/**
 * Arena: the mutable list of entities, the random factories and the tick.
 *
 * Each pass of `updateObjects` is a method whose loop is proved against the
 * matching function of ArenaSpec, so everything proved about `Tick` holds of
 * the list the method leaves. Object identity is an `id` issued by the arena
 * (`NewId`); `Valid` says the list holds distinct objects, all issued.
 */
module Arenas {
  import opened Objects
  import Robots
  import Steering
  import WhiskerRobots
  import BeamSensorRobots
  import BlackHoles
  import TeleportPads
  import opened ArenaSpec

  // -------------------------------------------------------------- factories

  /** `random.nextInt(480) + 10` for a draw `n` of nextInt(480). */
  function Coordinate(n: int): (v: real)
    requires 0 <= n < 480
    ensures v == v.Floor as real && 10.0 <= v <= 489.0
  {
    (n + 10) as real
  }

  /** Where the factories put an entity: whole-number coordinates in [10, 489], and for a robot a whole heading in [0, 359]. */
  predicate Spawned(e: Entity)
  {
    e.x == e.x.Floor as real && 10.0 <= e.x <= 489.0 &&
    e.y == e.y.Floor as real && 10.0 <= e.y <= 489.0 &&
    (e.Robot? ==> 0 <= e.direction <= 359)
  }

  /** createRandomRobot: a BumpSensorRobot of radius 15 and speed 3, from the draws for x, y and heading. */
  function RandomRobot(id: nat, nx: int, ny: int, nd: int): (e: Entity)
    requires 0 <= nx < 480 && 0 <= ny < 480 && 0 <= nd < 360
    ensures e.Robot? && e.id == id && e.robotKind == BumpSensor && e.radius == 15.0 && e.speed == 3.0
    ensures Spawned(e) && e.direction == nd
  {
    Robot(id, BumpSensor, Coordinate(nx), Coordinate(ny), 15.0, 3.0, nd)
  }

  /** createRandomWhiskerRobot: radius 15, speed 4. */
  function RandomWhiskerRobot(id: nat, nx: int, ny: int, nd: int): (e: Entity)
    requires 0 <= nx < 480 && 0 <= ny < 480 && 0 <= nd < 360
    ensures e.Robot? && e.id == id && e.robotKind == Whisker && e.radius == 15.0 && e.speed == 4.0
    ensures Spawned(e) && e.direction == nd
  {
    Robot(id, Whisker, Coordinate(nx), Coordinate(ny), 15.0, 4.0, nd)
  }

  /** createRandomBeamSensorRobot: radius 10, speed 5. */
  function RandomBeamSensorRobot(id: nat, nx: int, ny: int, nd: int): (e: Entity)
    requires 0 <= nx < 480 && 0 <= ny < 480 && 0 <= nd < 360
    ensures e.Robot? && e.id == id && e.robotKind == BeamSensor && e.radius == 10.0 && e.speed == 5.0
    ensures Spawned(e) && e.direction == nd
  {
    Robot(id, BeamSensor, Coordinate(nx), Coordinate(ny), 10.0, 5.0, nd)
  }

  /** createRandomObstacle: radius 20. */
  function RandomObstacle(id: nat, nx: int, ny: int): (e: Entity)
    requires 0 <= nx < 480 && 0 <= ny < 480
    ensures IsObstacle(e) && e.id == id && e.radius == 20.0 && Spawned(e)
  {
    Fixture(id, PlainObstacle, Coordinate(nx), Coordinate(ny), 20.0)
  }

  /** createRandomTeleportPad: radius 15. */
  function RandomTeleportPad(id: nat, nx: int, ny: int): (e: Entity)
    requires 0 <= nx < 480 && 0 <= ny < 480
    ensures IsPad(e) && e.id == id && e.radius == 15.0 && Spawned(e)
  {
    Fixture(id, Pad, Coordinate(nx), Coordinate(ny), 15.0)
  }

  /** createRandomBlackHole: radius 20. */
  function RandomBlackHole(id: nat, nx: int, ny: int): (e: Entity)
    requires 0 <= nx < 480 && 0 <= ny < 480
    ensures IsHole(e) && e.id == id && e.radius == 20.0 && Spawned(e)
  {
    Fixture(id, Hole, Coordinate(nx), Coordinate(ny), 20.0)
  }

  /** Draws for createRandomRobot: x, y, heading. */
  predicate RobotDraws(nx: int, ny: int, nd: int)
  {
    0 <= nx < 480 && 0 <= ny < 480 && 0 <= nd < 360
  }

  /** Draws for createRandomObstacle: x, y. */
  predicate FixtureDraws(nx: int, ny: int)
  {
    0 <= nx < 480 && 0 <= ny < 480
  }

  /**
   * The default arena: two BumpSensorRobots, then two Obstacles, issued the
   * identities 0 to 3.
   */
  function Seed(a: (int, int, int), b: (int, int, int), o: (int, int), p: (int, int)): (s: seq<Entity>)
    requires RobotDraws(a.0, a.1, a.2) && RobotDraws(b.0, b.1, b.2)
    requires FixtureDraws(o.0, o.1) && FixtureDraws(p.0, p.1)
    ensures |s| == 4 && RobotsCount(s) == 2 && ObstaclesCount(s) == 2
    ensures s[0].Robot? && s[0].robotKind == BumpSensor && s[1].Robot? && s[1].robotKind == BumpSensor
    ensures IsObstacle(s[2]) && IsObstacle(s[3])
    ensures DistinctIds(s) && IdsBelow(s, 4)
    ensures forall k :: 0 <= k < 4 ==> Spawned(s[k])
  {
    var e0, e1 := RandomRobot(0, a.0, a.1, a.2), RandomRobot(1, b.0, b.1, b.2);
    var e2, e3 := RandomObstacle(2, o.0, o.1), RandomObstacle(3, p.0, p.1);
    CountsOfAppend([], e0);
    CountsOfAppend([e0], e1);
    CountsOfAppend([e0, e1], e2);
    CountsOfAppend([e0, e1, e2], e3);
    assert [e0, e1, e2] + [e3] == [e0, e1, e2, e3];
    [e0, e1, e2, e3]
  }

  /** The dynamically dispatched `update()` of one object, reading `objs` as the steering robots' arena. */
  method UpdateOne(e: Entity, objs: seq<Entity>, trig: Robots.Trig) returns (u: Entity)
    ensures u == UpdateEntity(e, objs, trig)
  {
    u := e;
    if e.Robot? {
      match e.robotKind {
        case BumpSensor =>
          u := Robots.Update(e, trig);
        case Whisker =>
          var d := Steering.AvoidObstacles(e, objs, WhiskerRobots.Margin, WhiskerRobots.Turn);
          u := Robots.Update(e.(direction := d), trig);
        case BeamSensor =>
          var d := Steering.AvoidObstacles(e, objs, BeamSensorRobots.Margin, BeamSensorRobots.Turn);
          u := Robots.Update(e.(direction := d), trig);
        case Control =>
      }
    }
  }

  // ------------------------------------------------------------- absorption

  /** The body of the removeIf predicate for a robot: the scan over the list for a BlackHole that absorbs it. */
  method IsAbsorbed(robot: Entity, pool: seq<Entity>) returns (b: bool)
    requires robot.Robot?
    ensures b == Absorbed(robot, pool)
  {
    var j := 0;
    while j < |pool|
      invariant 0 <= j <= |pool|
      invariant forall m :: 0 <= m < j ==> !(IsHole(pool[m]) && BlackHoles.Absorbs(pool[m], robot))
    {
      if IsHole(pool[j]) && BlackHoles.Absorbs(pool[j], robot) {
        return true;
      }
      j := j + 1;
    }
    return false;
  }

  /** The inner loop of the teleport scan: one robot against every pad of the list, teleporting at each overlap. */
  method TeleportRobot(robot: Entity, objs: seq<Entity>, draws: nat -> real, c: nat) returns (r: Entity, next: nat)
    requires robot.Robot?
    ensures (r, next) == PadPass(robot, objs, 0, draws, c)
  {
    r, next := robot, c;
    var j := 0;
    while j < |objs|
      invariant 0 <= j <= |objs|
      invariant r.Robot?
      invariant PadPass(r, objs, j, draws, next) == PadPass(robot, objs, 0, draws, c)
    {
      var pad := objs[j];
      if IsPad(pad) && Robots.Collides(r, pad) {
        r := TeleportPads.Teleport(r, draws(next), draws(next + 1));
        next := next + 2;
      }
      j := j + 1;
    }
  }

  // ------------------------------------------------------------------ arena

  class Arena {
    /** The entities, in insertion order. */
    var objects: seq<Entity>
    /** The next identity to issue. */
    var issued: nat

    /** Distinct objects, every one issued by this arena. */
    ghost predicate Valid()
      reads this
    {
      DistinctIds(objects) && IdsBelow(objects, issued)
    }

    /** Arena(): the default two robots and two obstacles, appended in that order as `Seed` lists them, with identities 0 to 3. */
    constructor (a: (int, int, int), b: (int, int, int), o: (int, int), p: (int, int))
      requires RobotDraws(a.0, a.1, a.2) && RobotDraws(b.0, b.1, b.2)
      requires FixtureDraws(o.0, o.1) && FixtureDraws(p.0, p.1)
      ensures objects == Seed(a, b, o, p) && issued == 4 && Valid()
    {
      objects := Seed(a, b, o, p);
      issued := 4;
    }

    /** A fresh identity, standing for `new`: larger than every identity issued before. */
    method NewId() returns (id: nat)
      modifies this
      ensures id == old(issued) && issued == old(issued) + 1 && objects == old(objects)
      ensures old(Valid()) ==> Valid() && IdsBelow(objects, id)
    {
      id := issued;
      issued := issued + 1;
    }

    /** addObject: append at the end. */
    method AddObject(e: Entity)
      modifies this
      ensures objects == old(objects) + [e] && issued == old(issued)
      ensures old(Valid()) && old(IdsBelow(objects, e.id)) && e.id < issued ==> Valid()
    {
      objects := objects + [e];
    }

    /** clearObjects: the list becomes empty. */
    method ClearObjects()
      modifies this
      ensures objects == [] && issued == old(issued) && Valid()
    {
      objects := [];
    }

    /**
     * updateObjects: the three passes. The new list and the draw cursor are
     * those of `Tick`; the arena still holds distinct issued objects.
     */
    method UpdateObjects(trig: Robots.Trig, draws: nat -> real, c: nat) returns (next: nat)
      modifies this
      ensures (objects, next) == Tick(old(objects), trig, draws, c) && issued == old(issued)
      ensures old(Valid()) ==> Valid()
    {
      ghost var start := objects;
      IntegrateAll(trig);
      RemoveAbsorbed();
      next := CollideAll(draws, c);
      if DistinctIds(start) && IdsBelow(start, issued) {
        TickKeepsIds(start, trig, draws, c, issued);
      }
    }

    /** The `update()` loop; the steering robots scan the live list. */
    method IntegrateAll(trig: Robots.Trig)
      modifies this
      ensures objects == Integrated(old(objects), trig) && issued == old(issued)
    {
      ghost var start := objects;
      var k := 0;
      while k < |objects|
        invariant 0 <= k <= |objects| == |start|
        invariant SameFixtures(start, objects)
        invariant forall m :: 0 <= m < k ==> objects[m] == UpdateEntity(start[m], start, trig)
        invariant forall m :: k <= m < |objects| ==> objects[m] == start[m]
        invariant issued == old(issued)
      {
        var e := objects[k];
        var u := UpdateOne(e, objects, trig);
        UpdateEntitySeesOnlyFixtures(e, objects, start, trig);
        objects := objects[k := u];
        k := k + 1;
      }
      assert objects == Integrated(start, trig);
    }

    /** `removeIf`: every robot is tested against the unmodified list, then the survivors are kept in order. */
    method RemoveAbsorbed()
      modifies this
      ensures objects == Survivors(old(objects), old(objects)) && issued == old(issued)
    {
      var pool := objects;
      var kept := [];
      var k := 0;
      while k < |pool|
        invariant 0 <= k <= |pool|
        invariant kept == Survivors(pool[..k], pool)
        invariant issued == old(issued)
      {
        var gone := false;
        if pool[k].Robot? {
          gone := IsAbsorbed(pool[k], pool);
        }
        assert pool[..k + 1][..k] == pool[..k];
        if !gone {
          kept := kept + [pool[k]];
        }
        k := k + 1;
      }
      assert pool[..|pool|] == pool;
      objects := kept;
    }

    /** The pair loop: for every index a teleport scan, then that index's collision row when it holds a robot. */
    method CollideAll(draws: nat -> real, c: nat) returns (next: nat)
      modifies this
      ensures (objects, next) == PairPass(old(objects), 0, draws, c) && issued == old(issued)
    {
      ghost var start := objects;
      next := c;
      var i := 0;
      while i < |objects|
        invariant 0 <= i <= |objects|
        invariant PairPass(objects, i, draws, next) == PairPass(start, 0, draws, c)
        invariant issued == old(issued)
      {
        next := ScanPads(draws, next);
        if objects[i].Robot? {
          next := CollisionRow(i, draws, next);
        }
        i := i + 1;
      }
    }

    /** The teleport scan: every robot in turn against every pad, teleporting at each overlap. */
    method ScanPads(draws: nat -> real, c: nat) returns (next: nat)
      modifies this
      ensures (objects, next) == TeleportScan(old(objects), 0, draws, c) && issued == old(issued)
    {
      ghost var start := objects;
      next := c;
      var k := 0;
      while k < |objects|
        invariant 0 <= k <= |objects|
        invariant TeleportScan(objects, k, draws, next) == TeleportScan(start, 0, draws, c)
        invariant issued == old(issued)
      {
        if objects[k].Robot? {
          var robot;
          robot, next := TeleportRobot(objects[k], objects, draws, next);
          objects := objects[k := robot];
        }
        k := k + 1;
      }
    }

    /** Robot `i` against every other entry: reverse on an Obstacle or Robot, teleport on a pad. */
    method CollisionRow(i: nat, draws: nat -> real, c: nat) returns (next: nat)
      requires i < |objects| && objects[i].Robot?
      modifies this
      ensures var w := Row(old(objects)[i], old(objects), i, 0, draws, c);
              objects == old(objects)[i := w.0] && next == w.1 && issued == old(issued)
    {
      var objs := objects;
      var robot := objs[i];
      next := c;
      var j := 0;
      while j < |objs|
        invariant 0 <= j <= |objs|
        invariant robot.Robot?
        invariant Row(robot, objs, i, j, draws, next) == Row(objs[i], objs, i, 0, draws, c)
      {
        if i != j {
          var other := objs[j];
          if IsObstacle(other) && Robots.Collides(robot, other) {
            robot := Robots.HandleCollision(robot, other);
          } else if other.Robot? && Robots.Collides(robot, other) {
            robot := Robots.HandleCollision(robot, other);
          } else if IsPad(other) && Robots.Collides(robot, other) {
            robot := TeleportPads.Teleport(robot, draws(next), draws(next + 1));
            next := next + 2;
          }
        }
        j := j + 1;
      }
      objects := objs[i := robot];
    }
  }
}
