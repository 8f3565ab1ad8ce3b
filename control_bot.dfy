/**
 * ControlBot: a robot that never moves on its own (its update does nothing)
 * and is moved by key presses, one `speed` step along one axis at a time.
 * The moves do not clamp to the arena and do not reflect the heading.
 * Each move leaves the heading as it was and yields a robot again, with
 * the same identity, kind, radius and speed.
 */
module ControlBots {
  import opened Objects

  /** moveUp: `y` decreases by `speed`; nothing else changes. */
  function MoveUp(b: Entity): (u: Entity)
    requires b.Robot?
    ensures u.Robot? && u == b.(y := u.y, direction := b.direction)
    ensures u.y + b.speed == b.y
  {
    b.(y := b.y - b.speed, direction := b.direction)
  }

  /** moveDown: `y` increases by `speed`; nothing else changes. */
  function MoveDown(b: Entity): (u: Entity)
    requires b.Robot?
    ensures u.Robot? && u == b.(y := u.y, direction := b.direction)
    ensures u.y - b.speed == b.y
  {
    b.(y := b.y + b.speed, direction := b.direction)
  }

  /** moveLeft: `x` decreases by `speed`; nothing else changes. */
  function MoveLeft(b: Entity): (u: Entity)
    requires b.Robot?
    ensures u.Robot? && u == b.(x := u.x, direction := b.direction)
    ensures u.x + b.speed == b.x
  {
    b.(x := b.x - b.speed, direction := b.direction)
  }

  /** moveRight: `x` increases by `speed`; nothing else changes. */
  function MoveRight(b: Entity): (u: Entity)
    requires b.Robot?
    ensures u.Robot? && u == b.(x := u.x, direction := b.direction)
    ensures u.x - b.speed == b.x
  {
    b.(x := b.x + b.speed, direction := b.direction)
  }

  /** Opposite moves undo each other, in either order. */
  lemma OppositeMovesCancel(b: Entity)
    requires b.Robot?
    ensures MoveDown(MoveUp(b)) == b && MoveUp(MoveDown(b)) == b
    ensures MoveRight(MoveLeft(b)) == b && MoveLeft(MoveRight(b)) == b
  {
    var u := MoveUp(b);
    assert MoveDown(u).y == b.y;
    var d := MoveDown(b);
    assert MoveUp(d).y == b.y;
    var l := MoveLeft(b);
    assert MoveRight(l).x == b.x;
    var r := MoveRight(b);
    assert MoveLeft(r).x == b.x;
  }

  /** Moves along different axes commute. */
  lemma MovesCommute(b: Entity)
    requires b.Robot?
    ensures MoveLeft(MoveUp(b)) == MoveUp(MoveLeft(b))
    ensures MoveRight(MoveDown(b)) == MoveDown(MoveRight(b))
  {
  }

  /** Nothing keeps the bot inside the arena: from the top edge, moveUp leaves it. */
  lemma MoveUpCanLeaveTheArena()
    ensures var b := Robot(0, Control, 250.0, 0.0, 15.0, 2.0, 0);
            MoveUp(b).y < 0.0
  {
  }
}
