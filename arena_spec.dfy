/**
 * The arena's tick as functions over the list of entities.
 *
 * Arena.updateObjects runs three passes over its `ArrayList`:
 *   1. every entity's `update()`, in list order;
 *   2. `removeIf` dropping every robot that some BlackHole absorbs (Java's
 *      `ArrayList.removeIf` evaluates the predicate on every element of the
 *      unmodified list before compacting it);
 *   3. the pair pass: for every index `i`, a full teleport scan of every robot
 *      against every pad, then, when entry `i` is a robot, its collision row
 *      against every other entry `j`.
 * `Math.random()` is the stream `draws`, read from the cursor `c` on; every
 * function returns the cursor after the draws it used.
 */
module ArenaSpec {
  import opened Angles
  import opened Objects
  import Robots
  import Steering
  import WhiskerRobots
  import BeamSensorRobots
  import BlackHoles
  import TeleportPads

  /** Every `Math.random()` draw is in [0, 1). */
  ghost predicate UnitDraws(draws: nat -> real)
  {
    forall n: nat :: 0.0 <= draws(n) < 1.0
  }

  /** The landing band of a teleport. */
  predicate InBand(e: Entity)
  {
    10.0 <= e.x < 490.0 && 10.0 <= e.y < 490.0
  }

  /**
   * What a tick can do to one entry: fixtures stay exactly as they are; a
   * robot stays the same robot (identity, class, radius and speed) and may
   * only get a new position and heading.
   */
  predicate Keeps(e: Entity, f: Entity)
  {
    if e.Fixture? then f == e
    else f.Robot? && f.id == e.id && f.robotKind == e.robotKind && f.radius == e.radius && f.speed == e.speed
  }

  /** `Keeps`, entry by entry, between two lists of the same length. */
  predicate Moves(a: seq<Entity>, b: seq<Entity>)
  {
    |a| == |b| && forall k :: 0 <= k < |a| ==> Keeps(a[k], b[k])
  }

  lemma MovesTransitive(a: seq<Entity>, b: seq<Entity>, c: seq<Entity>)
    requires Moves(a, b) && Moves(b, c)
    ensures Moves(a, c)
  {
    assert forall k :: 0 <= k < |a| ==> Keeps(a[k], b[k]) && Keeps(b[k], c[k]);
  }

  // ---------------------------------------------------------------- counts

  /** getRobotsCount: every Robot, ControlBot included. */
  function RobotsCount(s: seq<Entity>): (n: nat)
    ensures n <= |s|
    decreases |s|
  {
    if s == [] then 0
    else RobotsCount(s[..|s| - 1]) + (if s[|s| - 1].Robot? then 1 else 0)
  }

  /** getObstaclesCount: plain Obstacles only, not TeleportPads or BlackHoles. */
  function ObstaclesCount(s: seq<Entity>): (n: nat)
    ensures n + RobotsCount(s) <= |s|
    decreases |s|
  {
    if s == [] then 0
    else ObstaclesCount(s[..|s| - 1]) + (if IsObstacle(s[|s| - 1]) then 1 else 0)
  }

  /** The non-robot entries, in list order. */
  function Fixtures(s: seq<Entity>): (r: seq<Entity>)
    ensures |r| + RobotsCount(s) == |s|
    decreases |s|
  {
    if s == [] then []
    else Fixtures(s[..|s| - 1]) + (if s[|s| - 1].Fixture? then [s[|s| - 1]] else [])
  }

  /** Every entry is counted as a robot exactly when all of them are robots; no obstacle is counted exactly when there is none. */
  lemma {:induction false} CountsSayWhatTheyCount(s: seq<Entity>)
    ensures RobotsCount(s) == |s| <==> forall k :: 0 <= k < |s| ==> s[k].Robot?
    ensures ObstaclesCount(s) == 0 <==> forall k :: 0 <= k < |s| ==> !IsObstacle(s[k])
    decreases |s|
  {
    if s != [] {
      var n := |s| - 1;
      CountsSayWhatTheyCount(s[..n]);
      assert forall k :: 0 <= k < n ==> s[..n][k] == s[k];
    }
  }

  /** The fixtures of a list are exactly its non-robot entries. */
  lemma {:induction false} FixturesMembers(s: seq<Entity>)
    ensures forall e :: e in Fixtures(s) <==> e in s && e.Fixture?
    decreases |s|
  {
    if s != [] {
      var n := |s| - 1;
      FixturesMembers(s[..n]);
      assert s == s[..n] + [s[n]];
    }
  }

  /** Both counts of a list extended by one entry, as `addObject` does. */
  lemma CountsOfAppend(s: seq<Entity>, e: Entity)
    ensures RobotsCount(s + [e]) == RobotsCount(s) + (if e.Robot? then 1 else 0)
    ensures ObstaclesCount(s + [e]) == ObstaclesCount(s) + (if IsObstacle(e) then 1 else 0)
    ensures Fixtures(s + [e]) == Fixtures(s) + (if e.Fixture? then [e] else [])
  {
    assert (s + [e])[..|s + [e]| - 1] == s;
  }

  /**
   * One entity of each of the seven classes: the robot count takes all four
   * robot classes, ControlBot included; the obstacle count takes the plain
   * Obstacle only.
   */
  lemma OneOfEachKind(x: real, y: real, r: real)
    ensures var s := [Robot(0, BumpSensor, x, y, r, 1.0, 0), Robot(1, Whisker, x, y, r, 1.0, 0),
                      Robot(2, BeamSensor, x, y, r, 1.0, 0), Robot(3, Control, x, y, r, 1.0, 0),
                      Fixture(4, PlainObstacle, x, y, r), Fixture(5, Pad, x, y, r), Fixture(6, Hole, x, y, r)];
            RobotsCount(s) == 4 && ObstaclesCount(s) == 1
  {
    var s := [Robot(0, BumpSensor, x, y, r, 1.0, 0), Robot(1, Whisker, x, y, r, 1.0, 0),
              Robot(2, BeamSensor, x, y, r, 1.0, 0), Robot(3, Control, x, y, r, 1.0, 0),
              Fixture(4, PlainObstacle, x, y, r), Fixture(5, Pad, x, y, r), Fixture(6, Hole, x, y, r)];
    var k := 0;
    while k < 7
      invariant 0 <= k <= 7
      invariant RobotsCount(s[..k]) == (if k < 4 then k else 4)
      invariant ObstaclesCount(s[..k]) == (if k <= 4 then 0 else 1)
    {
      assert s[..k + 1][..k] == s[..k];
      k := k + 1;
    }
    assert s[..7] == s;
  }

  /** A list that only moves entries keeps its fixtures and both counts. */
  lemma {:induction false} MovesKeepCounts(a: seq<Entity>, b: seq<Entity>)
    requires Moves(a, b)
    ensures Fixtures(b) == Fixtures(a)
    ensures RobotsCount(b) == RobotsCount(a)
    ensures ObstaclesCount(b) == ObstaclesCount(a)
    decreases |a|
  {
    if a != [] {
      var n := |a| - 1;
      assert Moves(a[..n], b[..n]) by {
        assert forall k :: 0 <= k < n ==> a[..n][k] == a[k] && b[..n][k] == b[k];
      }
      MovesKeepCounts(a[..n], b[..n]);
      assert Keeps(a[n], b[n]);
    }
  }

  // --------------------------------------------------------------- identity

  /** No two entries are the same object. */
  predicate DistinctIds(s: seq<Entity>)
  {
    forall a, b :: 0 <= a < b < |s| ==> s[a].id != s[b].id
  }

  /** Every entry's identity was issued before `n`. */
  predicate IdsBelow(s: seq<Entity>, n: nat)
  {
    forall k :: 0 <= k < |s| ==> s[k].id < n
  }

  lemma MovesKeepIds(a: seq<Entity>, b: seq<Entity>, n: nat)
    requires Moves(a, b)
    ensures forall k :: 0 <= k < |a| ==> b[k].id == a[k].id
    ensures DistinctIds(a) ==> DistinctIds(b)
    ensures IdsBelow(a, n) ==> IdsBelow(b, n)
  {
    assert forall k :: 0 <= k < |a| ==> Keeps(a[k], b[k]);
  }

  // ----------------------------------------------------------- integration

  /**
   * One entity's `update()`. Obstacle, TeleportPad, BlackHole and ControlBot
   * do nothing; a BumpSensorRobot runs Robot.update; the two steering robots
   * scan `objs` first.
   */
  function UpdateEntity(e: Entity, objs: seq<Entity>, trig: Robots.Trig): (u: Entity)
    ensures Keeps(e, u)
    ensures e.Fixture? || e.robotKind == Control ==> u == e
    ensures e.Robot? ==> u == e.(x := u.x, y := u.y, direction := u.direction)
    ensures e.Robot? && e.robotKind != Control && 0.0 < e.radius <= Robots.Side / 2.0 ==>
              e.radius <= u.x <= Robots.Side - e.radius && e.radius <= u.y <= Robots.Side - e.radius
    ensures e.Robot? && 0 <= e.direction < 360 ==> 0 <= u.direction < 360
  {
    if e.Fixture? then e
    else match e.robotKind
      case BumpSensor => Robots.Update(e, trig)
      case Whisker => WhiskerRobots.Update(e, objs, trig)
      case BeamSensor => BeamSensorRobots.Update(e, objs, trig)
      case Control => e
  }

  /** Same length and the same fixture at every index where either list holds one. */
  predicate SameFixtures(a: seq<Entity>, b: seq<Entity>)
  {
    |a| == |b| && forall k :: 0 <= k < |a| && (a[k].Fixture? || b[k].Fixture?) ==> a[k] == b[k]
  }

  /** Steering reads only obstacles, so an update sees no difference between lists with the same fixtures. */
  lemma UpdateEntitySeesOnlyFixtures(e: Entity, a: seq<Entity>, b: seq<Entity>, trig: Robots.Trig)
    requires SameFixtures(a, b)
    ensures UpdateEntity(e, a, trig) == UpdateEntity(e, b, trig)
  {
    if e.Robot? && e.robotKind == Whisker {
      Steering.SteerSeesOnlyObstacles(e.direction, e, a, b, WhiskerRobots.Margin, WhiskerRobots.Turn);
    } else if e.Robot? && e.robotKind == BeamSensor {
      Steering.SteerSeesOnlyObstacles(e.direction, e, a, b, BeamSensorRobots.Margin, BeamSensorRobots.Turn);
    }
  }

  /** The first pass: every entity updated, each steering robot scanning the list of the tick's start. */
  function Integrated(objs: seq<Entity>, trig: Robots.Trig): (r: seq<Entity>)
    ensures Moves(objs, r)
    ensures SameFixtures(objs, r)
  {
    seq(|objs|, k requires 0 <= k < |objs| => UpdateEntity(objs[k], objs, trig))
  }

  // ------------------------------------------------------------ absorption

  /** The removeIf predicate: a robot that some BlackHole of `pool` absorbs. */
  predicate Absorbed(e: Entity, pool: seq<Entity>)
  {
    e.Robot? && exists k :: 0 <= k < |pool| && IsHole(pool[k]) && BlackHoles.Absorbs(pool[k], e)
  }

  /** How many entries of `s` the predicate holds for. */
  function CountAbsorbed(s: seq<Entity>, pool: seq<Entity>): (n: nat)
    ensures n <= RobotsCount(s)
    decreases |s|
  {
    if s == [] then 0
    else CountAbsorbed(s[..|s| - 1], pool) + (if Absorbed(s[|s| - 1], pool) then 1 else 0)
  }

  /** `removeIf(Absorbed)`: the entries the predicate rejects, in their order. */
  function Survivors(s: seq<Entity>, pool: seq<Entity>): (r: seq<Entity>)
    ensures |r| + CountAbsorbed(s, pool) == |s|
    decreases |s|
  {
    if s == [] then []
    else
      var n := |s| - 1;
      Survivors(s[..n], pool) + (if Absorbed(s[n], pool) then [] else [s[n]])
  }

  /** Every obstacle is a fixture: counting obstacles among the fixtures counts them all. */
  lemma {:induction false} ObstaclesInFixtures(s: seq<Entity>)
    ensures ObstaclesCount(Fixtures(s)) == ObstaclesCount(s)
    decreases |s|
  {
    if s != [] {
      var n := |s| - 1;
      ObstaclesInFixtures(s[..n]);
      assert ObstaclesCount(s) == ObstaclesCount(s[..n]) + (if IsObstacle(s[n]) then 1 else 0);
      if s[n].Fixture? {
        assert Fixtures(s) == Fixtures(s[..n]) + [s[n]];
        CountsOfAppend(Fixtures(s[..n]), s[n]);
      } else {
        assert Fixtures(s) == Fixtures(s[..n]) + [];
        assert Fixtures(s[..n]) + [] == Fixtures(s[..n]);
      }
    }
  }

  /** The filter removes robots only, so every fixture survives, in order. */
  lemma {:induction false} SurvivorsKeepFixtures(s: seq<Entity>, pool: seq<Entity>)
    ensures Fixtures(Survivors(s, pool)) == Fixtures(s)
    decreases |s|
  {
    if s != [] {
      var n := |s| - 1;
      var e := s[n];
      var rest := Survivors(s[..n], pool);
      SurvivorsKeepFixtures(s[..n], pool);
      if Absorbed(e, pool) {
        assert Survivors(s, pool) == rest;
        assert Fixtures(s) == Fixtures(s[..n]) + [];
      } else {
        assert Survivors(s, pool) == rest + [e];
        CountsOfAppend(rest, e);
      }
    }
  }

  /** The filter removes robots only: the robot count drops by the number removed, fixtures all survive in order. */
  lemma SurvivorsCounts(s: seq<Entity>, pool: seq<Entity>)
    ensures RobotsCount(Survivors(s, pool)) + CountAbsorbed(s, pool) == RobotsCount(s)
    ensures ObstaclesCount(Survivors(s, pool)) == ObstaclesCount(s)
    ensures Fixtures(Survivors(s, pool)) == Fixtures(s)
  {
    SurvivorsKeepFixtures(s, pool);
    ObstaclesInFixtures(s);
    ObstaclesInFixtures(Survivors(s, pool));
  }

  /** An entry survives exactly when it is in the list and is not absorbed. */
  lemma {:induction false} SurvivorsMembers(s: seq<Entity>, pool: seq<Entity>)
    ensures forall e :: e in Survivors(s, pool) <==> e in s && !Absorbed(e, pool)
    decreases |s|
  {
    if s != [] {
      var n := |s| - 1;
      SurvivorsMembers(s[..n], pool);
      assert s == s[..n] + [s[n]];
    }
  }

  /** The filter distributes over concatenation, so survivors keep their relative order. */
  lemma {:induction false} SurvivorsOfConcat(a: seq<Entity>, b: seq<Entity>, pool: seq<Entity>)
    ensures Survivors(a + b, pool) == Survivors(a, pool) + Survivors(b, pool)
    decreases |b|
  {
    if b == [] {
      assert a + b == a;
    } else {
      var n := |b| - 1;
      assert (a + b)[..|a + b| - 1] == a + b[..n];
      SurvivorsOfConcat(a, b[..n], pool);
    }
  }

  /** Survivors are distinct objects issued below `n` when the list's entries were. */
  lemma {:induction false} SurvivorsKeepIds(s: seq<Entity>, pool: seq<Entity>, n: nat)
    requires DistinctIds(s) && IdsBelow(s, n)
    ensures DistinctIds(Survivors(s, pool)) && IdsBelow(Survivors(s, pool), n)
    decreases |s|
  {
    if s != [] {
      var m := |s| - 1;
      var rest := Survivors(s[..m], pool);
      SurvivorsKeepIds(s[..m], pool, n);
      SurvivorsMembers(s[..m], pool);
      forall k | 0 <= k < |rest|
        ensures rest[k].id != s[m].id
      {
        assert rest[k] in s[..m];
      }
    }
  }

  // -------------------------------------------------------------- teleport

  /**
   * The inner pad loop of the teleport scan for one robot: each pad of `objs`
   * from index `j` on that the robot overlaps, at its position of the moment,
   * teleports it (two draws).
   */
  function PadPass(robot: Entity, objs: seq<Entity>, j: nat, draws: nat -> real, c: nat): (r: (Entity, nat))
    requires robot.Robot? && j <= |objs|
    ensures Keeps(robot, r.0) && r.0.direction == robot.direction
    ensures c <= r.1
    ensures r.0 != robot ==> exists p :: j <= p < |objs| && IsPad(objs[p]) && Robots.Collides(robot, objs[p])
    ensures r.0 != robot && UnitDraws(draws) ==> InBand(r.0)
    decreases |objs| - j
  {
    if j == |objs| then (robot, c)
    else if IsPad(objs[j]) && Robots.Collides(robot, objs[j]) then
      PadPass(TeleportPads.Teleport(robot, draws(c), draws(c + 1)), objs, j + 1, draws, c + 2)
    else PadPass(robot, objs, j + 1, draws, c)
  }

  /** The robot overlaps some pad of the list. */
  predicate OnPad(e: Entity, objs: seq<Entity>)
  {
    exists p :: 0 <= p < |objs| && IsPad(objs[p]) && Robots.Collides(e, objs[p])
  }

  /**
   * The teleport scan, from index `k` on: every robot in turn runs its pad
   * pass, against the list as the earlier robots of the scan left it.
   */
  function TeleportScan(objs: seq<Entity>, k: nat, draws: nat -> real, c: nat): (r: (seq<Entity>, nat))
    requires k <= |objs|
    ensures Moves(objs, r.0) && SameFixtures(objs, r.0) && c <= r.1
    ensures forall m :: 0 <= m < k ==> r.0[m] == objs[m]
    ensures forall m :: k <= m < |objs| && r.0[m] != objs[m] ==> objs[m].Robot? && OnPad(objs[m], objs)
    ensures UnitDraws(draws) ==> forall m :: k <= m < |objs| && r.0[m] != objs[m] ==> InBand(r.0[m])
    decreases |objs| - k
  {
    if k == |objs| then (objs, c)
    else if objs[k].Robot? then
      var p := PadPass(objs[k], objs, 0, draws, c);
      var next := objs[k := p.0];
      OnPadAfterUpdate(objs, k, p.0);
      TeleportScan(next, k + 1, draws, p.1)
    else TeleportScan(objs, k + 1, draws, c)
  }

  /** Replacing one robot by a robot does not change which pads there are. */
  lemma OnPadAfterUpdate(objs: seq<Entity>, k: nat, e: Entity)
    requires k < |objs| && objs[k].Robot? && e.Robot?
    ensures forall f :: OnPad(f, objs[k := e]) ==> OnPad(f, objs)
  {
    forall f | OnPad(f, objs[k := e])
      ensures OnPad(f, objs)
    {
      var p :| 0 <= p < |objs| && IsPad(objs[k := e][p]) && Robots.Collides(f, objs[k := e][p]);
      assert objs[p] == objs[k := e][p];
    }
  }

  /** No TeleportPad in the list. */
  predicate NoPads(objs: seq<Entity>)
  {
    forall k :: 0 <= k < |objs| ==> !IsPad(objs[k])
  }

  /** Without pads the teleport scan moves nothing and draws nothing. */
  lemma {:induction false} ScanWithoutPads(objs: seq<Entity>, k: nat, draws: nat -> real, c: nat)
    requires k <= |objs| && NoPads(objs)
    ensures TeleportScan(objs, k, draws, c) == (objs, c)
    decreases |objs| - k
  {
    if k < |objs| {
      if objs[k].Robot? {
        PadPassWithoutPads(objs[k], objs, 0, draws, c);
        assert objs[k := objs[k]] == objs;
      }
      ScanWithoutPads(objs, k + 1, draws, c);
    }
  }

  /** Without pads the pad pass draws nothing. */
  lemma {:induction false} PadPassWithoutPads(robot: Entity, objs: seq<Entity>, j: nat, draws: nat -> real, c: nat)
    requires robot.Robot? && j <= |objs| && NoPads(objs)
    ensures PadPass(robot, objs, j, draws, c) == (robot, c)
    decreases |objs| - j
  {
    if j < |objs| {
      PadPassWithoutPads(robot, objs, j + 1, draws, c);
    }
  }

  // ------------------------------------------------------------- collisions

  /**
   * Robot `i`'s collision row from index `j` on: a colliding Obstacle or
   * Robot reverses it, a colliding TeleportPad teleports it; BlackHoles and
   * the robot's own index are skipped.
   */
  function Row(robot: Entity, objs: seq<Entity>, i: nat, j: nat, draws: nat -> real, c: nat): (r: (Entity, nat))
    requires robot.Robot? && j <= |objs|
    ensures Keeps(robot, r.0) && c <= r.1
    ensures 0 <= robot.direction < 360 ==> 0 <= r.0.direction < 360
    decreases |objs| - j
  {
    if j == |objs| then (robot, c)
    else if j == i then Row(robot, objs, i, j + 1, draws, c)
    else
      var o := objs[j];
      if IsObstacle(o) && Robots.Collides(robot, o) then
        Row(Robots.HandleCollision(robot, o), objs, i, j + 1, draws, c)
      else if o.Robot? && Robots.Collides(robot, o) then
        Row(Robots.HandleCollision(robot, o), objs, i, j + 1, draws, c)
      else if IsPad(o) && Robots.Collides(robot, o) then
        Row(TeleportPads.Teleport(robot, draws(c), draws(c + 1)), objs, i, j + 1, draws, c + 2)
      else Row(robot, objs, i, j + 1, draws, c)
  }

  /** The entries from `j` on, other than `i`, that are Obstacles or Robots colliding with the robot. */
  function Partners(robot: Entity, objs: seq<Entity>, i: nat, j: nat): (n: nat)
    requires j <= |objs|
    ensures n <= |objs| - j
    decreases |objs| - j
  {
    if j == |objs| then 0
    else
      var o := objs[j];
      var hit := j != i && (IsObstacle(o) || o.Robot?) && Robots.Collides(robot, o);
      (if hit then 1 else 0) + Partners(robot, objs, i, j + 1)
  }

  /** Collision reads position and radius only, so the partner count does not depend on the heading. */
  lemma {:induction false} PartnersIgnoreHeading(robot: Entity, d: int, objs: seq<Entity>, i: nat, j: nat)
    requires robot.Robot? && j <= |objs|
    ensures Partners(robot.(direction := d), objs, i, j) == Partners(robot, objs, i, j)
    decreases |objs| - j
  {
    if j < |objs| {
      PartnersIgnoreHeading(robot, d, objs, i, j + 1);
    }
  }

  /**
   * When no pad of the row overlaps the robot, the row only reverses: once per
   * colliding Obstacle or Robot at an index other than `i`, and nothing else
   * changes.
   */
  lemma {:induction false} RowWithoutPads(robot: Entity, objs: seq<Entity>, i: nat, j: nat, draws: nat -> real, c: nat)
    requires robot.Robot? && j <= |objs|
    requires forall k :: j <= k < |objs| && IsPad(objs[k]) ==> !Robots.Collides(robot, objs[k])
    ensures Row(robot, objs, i, j, draws, c)
            == (robot.(direction := ReverseTimes(robot.direction, Partners(robot, objs, i, j))), c)
    decreases |objs| - j
  {
    if j < |objs| && j != i {
      var o := objs[j];
      if (IsObstacle(o) || o.Robot?) && Robots.Collides(robot, o) {
        var r' := robot.(direction := Reverse(robot.direction));
        assert Robots.HandleCollision(robot, o) == r';
        RowWithoutPads(r', objs, i, j + 1, draws, c);
        PartnersIgnoreHeading(robot, Reverse(robot.direction), objs, i, j + 1);
        assert r'.(direction := ReverseTimes(r'.direction, Partners(robot, objs, i, j + 1)))
            == robot.(direction := ReverseTimes(robot.direction, Partners(robot, objs, i, j)));
      } else {
        RowWithoutPads(robot, objs, i, j + 1, draws, c);
      }
    } else if j < |objs| {
      RowWithoutPads(robot, objs, i, j + 1, draws, c);
    }
  }

  /** A robot alone in the list is never tested against itself: its row changes nothing. */
  lemma LoneRobotRow(robot: Entity, draws: nat -> real, c: nat)
    requires robot.Robot?
    ensures Row(robot, [robot], 0, 0, draws, c) == (robot, c)
  {
  }

  // ------------------------------------------------------------- pair pass

  /** The pair pass from index `i` on: a teleport scan, then entry `i`'s row when it is a robot. */
  function PairPass(objs: seq<Entity>, i: nat, draws: nat -> real, c: nat): (r: (seq<Entity>, nat))
    requires i <= |objs|
    ensures Moves(objs, r.0) && c <= r.1
    decreases |objs| - i
  {
    if i == |objs| then (objs, c)
    else
      var s := TeleportScan(objs, 0, draws, c);
      if s.0[i].Robot? then
        var w := Row(s.0[i], s.0, i, 0, draws, s.1);
        assert Moves(s.0, s.0[i := w.0]);
        MovesTransitive(objs, s.0, s.0[i := w.0]);
        var p := PairPass(s.0[i := w.0], i + 1, draws, w.1);
        MovesTransitive(objs, s.0[i := w.0], p.0);
        p
      else
        var p := PairPass(s.0, i + 1, draws, s.1);
        MovesTransitive(objs, s.0, p.0);
        p
  }

  /** One whole `updateObjects`: the new list and the cursor after the draws it used. */
  function Tick(objs: seq<Entity>, trig: Robots.Trig, draws: nat -> real, c: nat): (r: (seq<Entity>, nat))
  {
    var moved := Integrated(objs, trig);
    PairPass(Survivors(moved, moved), 0, draws, c)
  }

  /** The robots the tick removes: those a BlackHole absorbs after the integration pass. */
  function AbsorbedInTick(objs: seq<Entity>, trig: Robots.Trig): nat
  {
    var moved := Integrated(objs, trig);
    CountAbsorbed(moved, moved)
  }

  /**
   * Length accounting: the tick removes exactly the absorbed robots, so the
   * length and the robot count drop by that number, while every fixture
   * survives, in order, and the obstacle count is unchanged.
   */
  lemma TickAccounting(objs: seq<Entity>, trig: Robots.Trig, draws: nat -> real, c: nat)
    ensures var r := Tick(objs, trig, draws, c).0;
            |r| == |objs| - AbsorbedInTick(objs, trig) &&
            RobotsCount(r) == RobotsCount(objs) - AbsorbedInTick(objs, trig) &&
            ObstaclesCount(r) == ObstaclesCount(objs) &&
            Fixtures(r) == Fixtures(objs)
  {
    var moved := Integrated(objs, trig);
    var kept := Survivors(moved, moved);
    MovesKeepCounts(objs, moved);
    SurvivorsCounts(moved, moved);
    MovesKeepCounts(kept, PairPass(kept, 0, draws, c).0);
  }

  /** The tick keeps identities distinct and adds none. */
  lemma TickKeepsIds(objs: seq<Entity>, trig: Robots.Trig, draws: nat -> real, c: nat, n: nat)
    requires DistinctIds(objs) && IdsBelow(objs, n)
    ensures var r := Tick(objs, trig, draws, c).0;
            DistinctIds(r) && IdsBelow(r, n)
  {
    var moved := Integrated(objs, trig);
    MovesKeepIds(objs, moved, n);
    var kept := Survivors(moved, moved);
    SurvivorsKeepIds(moved, moved, n);
    MovesKeepIds(kept, PairPass(kept, 0, draws, c).0, n);
  }

  /** Every entry after the tick is a survivor of absorption, moved only as `Keeps` allows. */
  lemma TickMovesSurvivors(objs: seq<Entity>, trig: Robots.Trig, draws: nat -> real, c: nat)
    ensures var moved := Integrated(objs, trig);
            Moves(Survivors(moved, moved), Tick(objs, trig, draws, c).0)
  {
  }

  /**
   * Two robots overlapping each other, away from walls' concerns and with no
   * pads around: each one's row reverses it exactly once.
   */
  lemma TwoRobotsBounceApart(a: Entity, b: Entity, draws: nat -> real, c: nat)
    requires a.Robot? && b.Robot? && Robots.Collides(a, b)
    requires 0 <= a.direction < 360 && 0 <= b.direction < 360
    ensures PairPass([a, b], 0, draws, c)
            == ([a.(direction := Reverse(a.direction)), b.(direction := Reverse(b.direction))], c)
  {
    var a' := a.(direction := Reverse(a.direction));
    var b' := b.(direction := Reverse(b.direction));
    ScanWithoutPads([a, b], 0, draws, c);
    RowWithoutPads(a, [a, b], 0, 0, draws, c);
    assert Partners(a, [a, b], 0, 0) == 1;
    assert [a, b][0 := a'] == [a', b];
    ScanWithoutPads([a', b], 0, draws, c);
    Robots.CollidesSymmetric(a, b);
    assert Robots.Collides(b, a');
    RowWithoutPads(b, [a', b], 1, 0, draws, c);
    assert Partners(b, [a', b], 1, 0) == 1;
    assert [a', b][1 := b'] == [a', b'];
    assert TeleportScan([a, b], 0, draws, c) == ([a, b], c);
    assert Row(a, [a, b], 0, 0, draws, c) == (a', c);
    var p1 := PairPass([a', b], 1, draws, c);
    assert Row(b, [a', b], 1, 0, draws, c) == (b', c);
    assert PairPass([a', b], 1, draws, c) == PairPass([a', b'], 2, draws, c);
    assert PairPass([a, b], 0, draws, c) == PairPass([a', b], 1, draws, c);
  }
}
