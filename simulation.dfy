/**
 * The logic slices of the Simulation window: the configuration line layout
 * of Save and the kind dispatch of Load over already-split records, hit-test
 * selection, Delete Selected, dragging, and the ControlBot bookkeeping.
 *
 * `selected` and `controlBot` hold object identities, as the Java fields hold
 * references: a reference can outlive the object's place in the arena (after
 * an absorption, a load or a delete), and so can an identity here.
 */
module Simulations {
  import opened Objects
  import ControlBots
  import Robots
  import opened ArenaSpec
  import opened Arenas

  datatype Option<T> = None | Some(value: T)

  // -------------------------------------------------------------- save/load

  /**
   * One comma-separated field of a configuration line: a `Number` is text
   * that `Double.parseDouble` accepts, carried as its value; a `Word` is any
   * other text.
   */
  datatype Field = Word(text: string) | Number(value: real)

  /** saveConfiguration's line for one object: simple class name, x, y, radius. */
  function LineOf(e: Entity): seq<Field>
  {
    [Word(SimpleName(e)), Number(e.x), Number(e.y), Number(e.radius)]
  }

  /** The whole saved file, one line per object in list order. */
  function SaveLines(objs: seq<Entity>): seq<seq<Field>>
  {
    seq(|objs|, k requires 0 <= k < |objs| => LineOf(objs[k]))
  }

  /** The class names the switch of loadConfiguration has a case for. */
  predicate Handled(name: string)
  {
    name == "BumpSensorRobot" || name == "WhiskerRobot" || name == "Obstacle" ||
    name == "TeleportPad" || name == "BlackHole"
  }

  /** What one line does to the arena: add an object, nothing, or throw out of the loop. */
  datatype Parsed = Built(e: Entity) | Skipped | Thrown

  /** The four reads of a line: fewer than four fields or a field that does not parse throws, before the switch is reached. */
  predicate Malformed(parts: seq<Field>)
  {
    |parts| < 4 || !parts[1].Number? || !parts[2].Number? || !parts[3].Number?
  }

  /**
   * One line of loadConfiguration: the switch on the first field. Robots
   * are rebuilt with speed 2 and heading 0; the other kinds keep x, y and
   * radius only, which is all they have.
   */
  function ParseRecord(parts: seq<Field>, id: nat): (p: Parsed)
    ensures p.Thrown? <==> Malformed(parts)
    ensures p.Built? <==> !Malformed(parts) && parts[0].Word? && Handled(parts[0].text)
    ensures p.Built? ==> p.e.id == id && SimpleName(p.e) == parts[0].text &&
                         p.e.x == parts[1].value && p.e.y == parts[2].value && p.e.radius == parts[3].value
    ensures p.Built? && p.e.Robot? ==> p.e.speed == 2.0 && p.e.direction == 0
  {
    if Malformed(parts) then Thrown
    else
      var x, y, r := parts[1].value, parts[2].value, parts[3].value;
      match parts[0]
      case Number(_) => Skipped
      case Word(name) =>
        if name == "BumpSensorRobot" then Built(Robot(id, BumpSensor, x, y, r, 2.0, 0))
        else if name == "WhiskerRobot" then Built(Robot(id, Whisker, x, y, r, 2.0, 0))
        else if name == "Obstacle" then Built(Fixture(id, PlainObstacle, x, y, r))
        else if name == "TeleportPad" then Built(Fixture(id, Pad, x, y, r))
        else if name == "BlackHole" then Built(Fixture(id, Hole, x, y, r))
        else Skipped
  }

  /** The outcome of the load loop: the objects added, the next identity, and whether the loop ran to the end. */
  datatype Loaded = Loaded(objects: seq<Entity>, next: nat, ok: bool)

  /** The load loop over the lines, issuing identities from `id` on as objects are built. */
  function LoadRecords(records: seq<seq<Field>>, id: nat): (l: Loaded)
    ensures id <= l.next && |l.objects| == l.next - id
    decreases |records|
  {
    if records == [] then Loaded([], id, true)
    else match ParseRecord(records[0], id)
      case Thrown => Loaded([], id, false)
      case Skipped => LoadRecords(records[1..], id)
      case Built(e) =>
        var rest := LoadRecords(records[1..], id + 1);
        Loaded([e] + rest.objects, rest.next, rest.ok)
  }

  /** The identities a load issues are fresh and distinct: `id`, `id + 1`, ... in order. */
  lemma {:induction false} LoadIssuesFreshIds(records: seq<seq<Field>>, id: nat)
    ensures forall k :: 0 <= k < |LoadRecords(records, id).objects| ==> LoadRecords(records, id).objects[k].id == id + k
    decreases |records|
  {
    if records != [] {
      var l := LoadRecords(records, id);
      match ParseRecord(records[0], id)
      case Thrown =>
      case Skipped =>
        LoadIssuesFreshIds(records[1..], id);
        assert l == LoadRecords(records[1..], id);
      case Built(e) =>
        LoadIssuesFreshIds(records[1..], id + 1);
        var rest := LoadRecords(records[1..], id + 1);
        assert l.objects == [e] + rest.objects;
        forall k | 0 <= k < |l.objects|
          ensures l.objects[k].id == id + k
        {
          if k > 0 {
            assert l.objects[k] == rest.objects[k - 1];
          }
        }
    }
  }

  /** Loading `a` and then `b` is loading `a + b`, unless `a` already threw. */
  lemma {:induction false} LoadOfConcat(a: seq<seq<Field>>, b: seq<seq<Field>>, id: nat)
    ensures var la := LoadRecords(a, id);
            var lb := LoadRecords(b, la.next);
            LoadRecords(a + b, id) == if la.ok then Loaded(la.objects + lb.objects, lb.next, lb.ok) else la
    decreases |a|
  {
    if a == [] {
      assert a + b == b;
    } else {
      assert (a + b)[1..] == a[1..] + b;
      match ParseRecord(a[0], id)
      case Thrown =>
      case Skipped => LoadOfConcat(a[1..], b, id);
      case Built(e) =>
        LoadOfConcat(a[1..], b, id + 1);
        var rest := LoadRecords(a[1..], id + 1);
        if rest.ok {
          assert [e] + (rest.objects + LoadRecords(b, rest.next).objects)
              == ([e] + rest.objects) + LoadRecords(b, rest.next).objects;
        }
    }
  }

  /** The objects already added, followed by the outcome of the remaining lines. */
  function Join(added: seq<Entity>, rest: Loaded): Loaded
  {
    Loaded(added + rest.objects, rest.next, rest.ok)
  }

  /** The load of the lines from `k` on, read one line at a time. */
  lemma LoadStep(records: seq<seq<Field>>, k: nat, id: nat, added: seq<Entity>)
    requires k < |records|
    ensures ParseRecord(records[k], id).Thrown? ==>
              Join(added, LoadRecords(records[k..], id)) == Loaded(added, id, false)
    ensures ParseRecord(records[k], id).Skipped? ==>
              Join(added, LoadRecords(records[k..], id)) == Join(added, LoadRecords(records[k + 1..], id))
    ensures ParseRecord(records[k], id).Built? ==>
              Join(added, LoadRecords(records[k..], id))
              == Join(added + [ParseRecord(records[k], id).e], LoadRecords(records[k + 1..], id + 1))
  {
    assert records[k..][1..] == records[k + 1..];
    assert added + [] == added;
    var p := ParseRecord(records[k], id);
    if p.Built? {
      var rest := LoadRecords(records[k + 1..], id + 1);
      assert added + ([p.e] + rest.objects) == (added + [p.e]) + rest.objects;
    }
  }

  /**
   * A malformed line ends the load with an exception: the arena keeps the
   * objects of the lines before it and none after.
   */
  lemma LoadStopsAtMalformedLine(a: seq<seq<Field>>, bad: seq<Field>, b: seq<seq<Field>>, id: nat)
    requires Malformed(bad)
    ensures var la := LoadRecords(a, id);
            LoadRecords(a + [bad] + b, id) == Loaded(la.objects, la.next, false)
  {
    var la := LoadRecords(a, id);
    assert a + [bad] + b == a + ([bad] + b);
    LoadOfConcat(a, [bad] + b, id);
    assert LoadRecords([bad] + b, la.next) == Loaded([], la.next, false);
    if la.ok {
      assert la.objects + [] == la.objects;
    }
  }

  /** The kinds the load switch rebuilds: every kind but BeamSensorRobot and ControlBot. */
  predicate Reloadable(e: Entity)
  {
    e.Fixture? || e.robotKind == BumpSensor || e.robotKind == Whisker
  }

  /** `Reloadable` is the switch's list of cases, read on the saved class name. */
  lemma ReloadableIsHandled(e: Entity)
    ensures Reloadable(e) <==> Handled(SimpleName(e))
  {
  }

  /** The entries whose class the load switch handles, in order: everything but BeamSensorRobots and ControlBots. */
  function HandledOnly(objs: seq<Entity>): (r: seq<Entity>)
    ensures |r| <= |objs|
    ensures forall e :: e in r ==> e in objs && Reloadable(e)
    ensures forall e :: e in objs && Reloadable(e) ==> e in r
    decreases |objs|
  {
    if objs == [] then []
    else (if Reloadable(objs[0]) then [objs[0]] else []) + HandledOnly(objs[1..])
  }

  /** The filter distributes over concatenation, so the kept entries stay in list order. */
  lemma {:induction false} HandledOnlyOfConcat(a: seq<Entity>, b: seq<Entity>)
    ensures HandledOnly(a + b) == HandledOnly(a) + HandledOnly(b)
    decreases |a|
  {
    if a != [] {
      var h := if Reloadable(a[0]) then [a[0]] else [];
      assert (a + b)[0] == a[0] && (a + b)[1..] == a[1..] + b;
      HandledOnlyOfConcat(a[1..], b);
      assert HandledOnly(a + b) == h + (HandledOnly(a[1..]) + HandledOnly(b));
      assert h + (HandledOnly(a[1..]) + HandledOnly(b)) == (h + HandledOnly(a[1..])) + HandledOnly(b);
      assert HandledOnly(a) == h + HandledOnly(a[1..]);
    } else {
      assert a + b == b;
    }
  }

  /** A list of handled entries only is kept whole. */
  lemma {:induction false} HandledOnlyKeepsHandledList(objs: seq<Entity>)
    requires forall k :: 0 <= k < |objs| ==> Reloadable(objs[k])
    ensures HandledOnly(objs) == objs
    decreases |objs|
  {
    if objs != [] {
      HandledOnlyKeepsHandledList(objs[1..]);
      assert objs == [objs[0]] + objs[1..];
    }
  }

  /** What a line records about an object. */
  function Shape(e: Entity): (string, real, real, real)
  {
    (SimpleName(e), e.x, e.y, e.radius)
  }

  /**
   * Save then load: the load runs to the end and rebuilds, in order, exactly
   * the objects of the five handled classes, each with the class, position
   * and radius that was saved.
   */
  lemma {:induction false} SaveThenLoad(objs: seq<Entity>, id: nat)
    ensures var l := LoadRecords(SaveLines(objs), id);
            var h := HandledOnly(objs);
            l.ok && |l.objects| == |h| &&
            forall k :: 0 <= k < |h| ==> Shape(l.objects[k]) == Shape(h[k])
    decreases |objs|
  {
    if objs != [] {
      var e := objs[0];
      var lines := SaveLines(objs);
      assert lines[1..] == SaveLines(objs[1..]);
      assert lines[0] == LineOf(e);
      var p := ParseRecord(LineOf(e), id);
      ReloadableIsHandled(e);
      if Handled(SimpleName(e)) {
        SaveThenLoad(objs[1..], id + 1);
        var rest := LoadRecords(lines[1..], id + 1);
        var hs := HandledOnly(objs[1..]);
        assert p.Built?;
        SimpleNameNamesTheKind(p.e, e);
        assert LoadRecords(lines, id).objects == [p.e] + rest.objects;
        assert HandledOnly(objs) == [e] + hs;
      } else {
        SaveThenLoad(objs[1..], id);
        assert p.Skipped?;
        assert LoadRecords(lines, id) == LoadRecords(lines[1..], id);
        assert HandledOnly(objs) == HandledOnly(objs[1..]);
      }
    }
  }

  /**
   * The line saved for a BeamSensorRobot or a ControlBot names a class the
   * load switch has no case for: reloading a file of such a line adds nothing.
   */
  lemma UnhandledRobotIsNotReloaded(b: Entity, id: nat)
    requires b.Robot? && (b.robotKind == BeamSensor || b.robotKind == Control)
    ensures LoadRecords(SaveLines([b]), id) == Loaded([], id, true)
  {
    assert SaveLines([b])[0] == LineOf(b);
    assert SaveLines([b])[1..] == [];
  }

  // -------------------------------------------------------------- selection

  /** The mouse point lies in the object's bounding square, borders included. */
  predicate Hit(e: Entity, px: real, py: real)
  {
    e.x - e.radius <= px && e.x + e.radius >= px && e.y - e.radius <= py && e.y + e.radius >= py
  }

  /** The hit-test stream `filter(...).findFirst()`: the index of the first hit in list order, if any. */
  function FirstHit(objs: seq<Entity>, px: real, py: real): (r: Option<nat>)
    ensures r.Some? ==> r.value < |objs| && Hit(objs[r.value], px, py) &&
                        forall k :: 0 <= k < r.value ==> !Hit(objs[k], px, py)
    ensures r.None? <==> forall k :: 0 <= k < |objs| ==> !Hit(objs[k], px, py)
    decreases |objs|
  {
    if objs == [] then None
    else if Hit(objs[0], px, py) then Some(0)
    else match FirstHit(objs[1..], px, py)
      case None => None
      case Some(k) => Some(k + 1)
  }

  // ---------------------------------------------------------------- editing

  /** `ArrayList.remove(Object)`: drop the first entry that is the given object, if there is one. */
  function RemoveFirst(s: seq<Entity>, id: nat): (r: seq<Entity>)
    ensures (forall k :: 0 <= k < |s| ==> s[k].id != id) ==> r == s
    ensures (exists k :: 0 <= k < |s| && s[k].id == id) ==> |r| == |s| - 1
    ensures forall e :: e in r ==> e in s
    decreases |s|
  {
    if s == [] then []
    else if s[0].id == id then s[1..]
    else [s[0]] + RemoveFirst(s[1..], id)
  }

  /** The entry removed is the first with that identity, and the others keep their order. */
  lemma {:induction false} RemoveFirstDropsFirstMatch(s: seq<Entity>, id: nat, k: nat)
    requires k < |s| && s[k].id == id
    requires forall m :: 0 <= m < k ==> s[m].id != id
    ensures RemoveFirst(s, id) == s[..k] + s[k + 1..]
    decreases k
  {
    if k > 0 {
      RemoveFirstDropsFirstMatch(s[1..], id, k - 1);
      assert s[1..][..k - 1] == s[1..k] && s[1..][k..] == s[k + 1..];
      assert s[..k] == [s[0]] + s[1..k];
    }
  }

  /** With distinct identities, the tail is distinct and holds no object with the head's identity. */
  lemma DistinctTail(s: seq<Entity>)
    requires s != [] && DistinctIds(s)
    ensures DistinctIds(s[1..])
    ensures forall e :: e in s[1..] ==> e.id != s[0].id
  {
    forall a, b | 0 <= a < b < |s| - 1 ensures s[1..][a].id != s[1..][b].id {
      assert s[1..][a] == s[a + 1] && s[1..][b] == s[b + 1];
    }
    forall e | e in s[1..] ensures e.id != s[0].id {
      var k :| 0 <= k < |s[1..]| && s[1..][k] == e;
      assert s[k + 1] == e;
    }
  }

  /** Putting an object in front of distinct objects, none with its identity, keeps them distinct. */
  lemma DistinctCons(h: Entity, r: seq<Entity>)
    requires DistinctIds(r) && forall e :: e in r ==> e.id != h.id
    ensures DistinctIds([h] + r)
  {
    forall a, b | 0 <= a < b < |r| + 1 ensures ([h] + r)[a].id != ([h] + r)[b].id {
      assert ([h] + r)[b] == r[b - 1];
      if a > 0 {
        assert ([h] + r)[a] == r[a - 1];
      } else {
        assert r[b - 1] in r;
      }
    }
  }

  /** With distinct identities, removal drops exactly the one object and keeps every other entry. */
  lemma {:induction false} RemoveFirstDistinct(s: seq<Entity>, id: nat)
    requires DistinctIds(s)
    ensures DistinctIds(RemoveFirst(s, id))
    ensures forall e :: e in RemoveFirst(s, id) <==> e in s && e.id != id
    decreases |s|
  {
    if s != [] {
      DistinctTail(s);
      assert s == [s[0]] + s[1..];
      if s[0].id == id {
        assert RemoveFirst(s, id) == s[1..];
      } else {
        RemoveFirstDistinct(s[1..], id);
        var r := RemoveFirst(s[1..], id);
        assert RemoveFirst(s, id) == [s[0]] + r;
        DistinctCons(s[0], r);
      }
    }
  }

  /** The drag handler: the object with that identity takes the mouse position; nothing else moves. */
  function MoveTo(s: seq<Entity>, id: nat, px: real, py: real): (r: seq<Entity>)
    ensures |r| == |s|
    ensures forall k :: 0 <= k < |s| ==>
              if s[k].id == id then r[k] == s[k].(x := px, y := py) else r[k] == s[k]
  {
    seq(|s|, k requires 0 <= k < |s| => if s[k].id == id then s[k].(x := px, y := py) else s[k])
  }

  // -------------------------------------------------------------- ControlBot

  /** The ControlBot that Add Selected Robot creates: at (250, 250), radius 15, speed 2, heading 0. */
  function NewControlBot(id: nat): (b: Entity)
    ensures b.Robot? && b.robotKind == Control && b.id == id
    ensures b.x == 250.0 && b.y == 250.0 && b.radius == 15.0 && b.speed == 2.0 && b.direction == 0
    ensures Hit(b, 250.0, 250.0)
  {
    Robot(id, Control, 250.0, 250.0, 15.0, 2.0, 0)
  }

  /** The four movement flags, in the order the animation loop applies them. */
  datatype Keys = Keys(up: bool, down: bool, left: bool, right: bool)

  /** The animation loop's moves of the ControlBot after the tick. */
  function Drive(b: Entity, keys: Keys): (u: Entity)
    requires b.Robot?
    ensures u.Robot? && u == b.(x := u.x, y := u.y, direction := b.direction)
    ensures u.x == b.x - (if keys.left then b.speed else 0.0) + (if keys.right then b.speed else 0.0)
    ensures u.y == b.y - (if keys.up then b.speed else 0.0) + (if keys.down then b.speed else 0.0)
  {
    var b1 := if keys.up then ControlBots.MoveUp(b) else b;
    var b2 := if keys.down then ControlBots.MoveDown(b1) else b1;
    var b3 := if keys.left then ControlBots.MoveLeft(b2) else b2;
    if keys.right then ControlBots.MoveRight(b3) else b3
  }

  /** Holding opposite keys leaves the bot where it was. */
  lemma OppositeKeysCancel(b: Entity)
    requires b.Robot?
    ensures Drive(b, Keys(true, true, true, true)) == b
  {
    var u := Drive(b, Keys(true, true, true, true));
    assert u.x == b.x && u.y == b.y;
  }

  /** The entry with the tracked identity, if it is still in the list, driven by the keys. */
  function DriveTracked(s: seq<Entity>, id: nat, keys: Keys): (r: seq<Entity>)
    ensures Moves(s, r)
    ensures forall k :: 0 <= k < |s| && s[k].id == id && s[k].Robot? ==> r[k] == Drive(s[k], keys)
    ensures forall k :: 0 <= k < |s| && (s[k].id != id || !s[k].Robot?) ==> r[k] == s[k]
  {
    seq(|s|, k requires 0 <= k < |s| => if s[k].id == id && s[k].Robot? then Drive(s[k], keys) else s[k])
  }

  // ------------------------------------------------------------- the window

  class Simulation {
    const arena: Arena
    var running: bool
    var selected: Option<nat>
    var controlBot: Option<nat>

    /** The arena holds distinct issued objects, and a tracked ControlBot identity was issued by it. */
    ghost predicate Valid()
      reads this, arena
    {
      arena.Valid() && (controlBot.Some? ==> controlBot.value < arena.issued)
    }

    /** The window at start-up: a default arena, stopped, nothing selected, no ControlBot. */
    constructor (a: (int, int, int), b: (int, int, int), o: (int, int), p: (int, int))
      requires RobotDraws(a.0, a.1, a.2) && RobotDraws(b.0, b.1, b.2)
      requires FixtureDraws(o.0, o.1) && FixtureDraws(p.0, p.1)
      ensures arena.objects == Seed(a, b, o, p) && fresh(arena)
      ensures !running && selected == None && controlBot == None && Valid()
    {
      arena := new Arena(a, b, o, p);
      running := false;
      selected := None;
      controlBot := None;
    }

    /** Start: run, and drop the selection. */
    method Start()
      modifies this
      ensures running && selected == (if old(running) then old(selected) else None)
      ensures controlBot == old(controlBot)
    {
      if !running {
        running := true;
        selected := None;
      }
    }

    /** Stop. */
    method Stop()
      modifies this
      ensures !running && selected == old(selected) && controlBot == old(controlBot)
    {
      running := false;
    }

    /** One animation frame: the arena's tick, then the tracked ControlBot's moves. */
    method Frame(trig: Robots.Trig, draws: nat -> real, c: nat, keys: Keys) returns (next: nat)
      requires running
      modifies arena
      ensures var t := Tick(old(arena.objects), trig, draws, c);
              next == t.1 &&
              arena.objects == (if controlBot.Some? then DriveTracked(t.0, controlBot.value, keys) else t.0)
      ensures arena.issued == old(arena.issued)
      ensures old(Valid()) ==> Valid()
    {
      next := arena.UpdateObjects(trig, draws, c);
      if controlBot.Some? {
        var objs := arena.objects;
        arena.objects := DriveTracked(objs, controlBot.value, keys);
        MovesKeepIds(objs, arena.objects, arena.issued);
      }
    }

    /** New Arena: empty the arena and forget the ControlBot and the selection. */
    method NewArena()
      modifies this, arena
      ensures arena.objects == [] && arena.issued == old(arena.issued)
      ensures controlBot == None && selected == None && running == old(running)
      ensures old(Valid()) ==> Valid()
    {
      arena.ClearObjects();
      controlBot := None;
      selected := None;
    }

    /** Add Selected Robot with ControlBot chosen: a new bot only when none is tracked. */
    method AddControlBot()
      modifies this, arena
      ensures old(controlBot).Some? ==>
                controlBot == old(controlBot) && arena.objects == old(arena.objects) && arena.issued == old(arena.issued)
      ensures old(controlBot).None? ==>
                controlBot == Some(old(arena.issued)) && arena.issued == old(arena.issued) + 1 &&
                arena.objects == old(arena.objects) + [NewControlBot(old(arena.issued))]
      ensures selected == old(selected) && running == old(running)
      ensures old(Valid()) ==> Valid()
    {
      if controlBot.None? {
        var id := arena.NewId();
        controlBot := Some(id);
        arena.AddObject(NewControlBot(id));
      }
    }

    /** Add Selected Robot: one of the three random factories, or the ControlBot rule. */
    method AddSelectedRobot(kind: RobotKind, nx: int, ny: int, nd: int)
      requires kind != Control ==> RobotDraws(nx, ny, nd)
      modifies this, arena
      ensures kind == BumpSensor ==> arena.objects == old(arena.objects) + [RandomRobot(old(arena.issued), nx, ny, nd)]
      ensures kind == Whisker ==> arena.objects == old(arena.objects) + [RandomWhiskerRobot(old(arena.issued), nx, ny, nd)]
      ensures kind == BeamSensor ==> arena.objects == old(arena.objects) + [RandomBeamSensorRobot(old(arena.issued), nx, ny, nd)]
      ensures kind != Control ==> controlBot == old(controlBot) && arena.issued == old(arena.issued) + 1
      ensures kind == Control && old(controlBot).Some? ==>
                controlBot == old(controlBot) && arena.objects == old(arena.objects) && arena.issued == old(arena.issued)
      ensures kind == Control && old(controlBot).None? ==>
                controlBot == Some(old(arena.issued)) && arena.issued == old(arena.issued) + 1 &&
                arena.objects == old(arena.objects) + [NewControlBot(old(arena.issued))]
      ensures selected == old(selected) && running == old(running)
      ensures old(Valid()) ==> Valid()
    {
      match kind {
        case Control =>
          AddControlBot();
        case BumpSensor =>
          var id := arena.NewId();
          arena.AddObject(RandomRobot(id, nx, ny, nd));
        case Whisker =>
          var id := arena.NewId();
          arena.AddObject(RandomWhiskerRobot(id, nx, ny, nd));
        case BeamSensor =>
          var id := arena.NewId();
          arena.AddObject(RandomBeamSensorRobot(id, nx, ny, nd));
      }
    }

    /** Add Selected Obstacle: one of the three fixture factories. */
    method AddSelectedObstacle(kind: FixtureKind, nx: int, ny: int)
      requires FixtureDraws(nx, ny)
      modifies arena
      ensures arena.issued == old(arena.issued) + 1
      ensures arena.objects == old(arena.objects) + [
                match kind
                case PlainObstacle => RandomObstacle(old(arena.issued), nx, ny)
                case Pad => RandomTeleportPad(old(arena.issued), nx, ny)
                case Hole => RandomBlackHole(old(arena.issued), nx, ny)]
      ensures old(Valid()) ==> Valid()
    {
      var id := arena.NewId();
      match kind {
        case PlainObstacle => arena.AddObject(RandomObstacle(id, nx, ny));
        case Pad => arena.AddObject(RandomTeleportPad(id, nx, ny));
        case Hole => arena.AddObject(RandomBlackHole(id, nx, ny));
      }
    }

    /** Mouse press while stopped: select the first object under the point, or nothing. */
    method Press(px: real, py: real)
      modifies this
      ensures old(running) ==> selected == old(selected)
      ensures !old(running) ==>
                selected == (match FirstHit(arena.objects, px, py)
                             case None => None
                             case Some(k) => Some(arena.objects[k].id))
      ensures running == old(running) && controlBot == old(controlBot)
    {
      if !running {
        var hit := FirstHit(arena.objects, px, py);
        match hit {
          case None => selected := None;
          case Some(k) => selected := Some(arena.objects[k].id);
        }
      }
    }

    /** Mouse drag while stopped: the selected object follows the mouse. */
    method Drag(px: real, py: real)
      modifies arena
      ensures !running && selected.Some? ==> arena.objects == MoveTo(old(arena.objects), selected.value, px, py)
      ensures running || selected.None? ==> arena.objects == old(arena.objects)
      ensures arena.issued == old(arena.issued)
    {
      if !running && selected.Some? {
        arena.objects := MoveTo(arena.objects, selected.value, px, py);
      }
    }

    /** Delete Selected: remove the selected object, forget it, and forget the ControlBot if it was that object. */
    method Delete()
      modifies this, arena
      ensures old(selected).Some? ==>
                arena.objects == RemoveFirst(old(arena.objects), old(selected).value) && selected == None &&
                controlBot == (if old(controlBot) == old(selected) then None else old(controlBot))
      ensures old(selected).None? ==>
                arena.objects == old(arena.objects) && selected == None && controlBot == old(controlBot)
      ensures arena.issued == old(arena.issued) && running == old(running)
      ensures old(Valid()) ==> Valid()
    {
      if selected.Some? {
        ghost var before := arena.objects;
        arena.objects := RemoveFirst(arena.objects, selected.value);
        if old(Valid()) {
          RemoveFirstDistinct(before, selected.value);
          forall k | 0 <= k < |arena.objects| ensures arena.objects[k].id < arena.issued {
            assert arena.objects[k] in before;
          }
        }
        if selected == controlBot {
          controlBot := None;
        }
        selected := None;
      }
    }

    /** Save: one line per object, in list order. */
    method Save() returns (lines: seq<seq<Field>>)
      ensures lines == SaveLines(arena.objects)
    {
      lines := [];
      var k := 0;
      while k < |arena.objects|
        invariant 0 <= k <= |arena.objects|
        invariant lines == SaveLines(arena.objects[..k])
      {
        lines := lines + [LineOf(arena.objects[k])];
        k := k + 1;
      }
      assert arena.objects[..k] == arena.objects;
    }

    /**
     * Load: clear the arena, then add the objects of the lines in order, up to
     * a malformed line if there is one. The selection and the tracked
     * ControlBot are left as they were.
     */
    method Load(records: seq<seq<Field>>) returns (ok: bool)
      modifies arena
      ensures var l := LoadRecords(records, old(arena.issued));
              arena.objects == l.objects && arena.issued == l.next && ok == l.ok
      ensures old(Valid()) ==> Valid()
    {
      ghost var id0 := arena.issued;
      arena.ClearObjects();
      var k := 0;
      while k < |records|
        invariant 0 <= k <= |records|
        invariant id0 <= arena.issued
        invariant LoadRecords(records, id0) == Join(arena.objects, LoadRecords(records[k..], arena.issued))
        invariant arena.Valid()
      {
        var p := ParseRecord(records[k], arena.issued);
        LoadStep(records, k, arena.issued, arena.objects);
        match p {
          case Thrown =>
            return false;
          case Skipped =>
          case Built(e) =>
            var id := arena.NewId();
            arena.AddObject(e);
        }
        k := k + 1;
      }
      assert arena.objects + [] == arena.objects;
      return true;
    }
  }
}
