/**
 * Robot: one integration step with wall reflection, the collision predicate
 * and the collision response shared by every robot kind.
 */
module Robots {
  import opened Angles
  import opened Objects

  /** The arena is the square [0, 500] x [0, 500]. */
  const Side: real := 500.0

  /**
   * `Math.cos(Math.toRadians(d))` and `Math.sin(Math.toRadians(d))` for a
   * heading `d` in degrees. The trigonometry is not modelled: the caller
   * supplies both functions.
   */
  datatype Trig = Trig(cos: int -> real, sin: int -> real)

  /**
   * The wall handling of Robot.update, before the final normalisation: the
   * new position and the heading as the branches leave it. Left and right are
   * exclusive, so are top and bottom, but one horizontal and one vertical
   * branch can both apply.
   */
  function Reflect(x: real, y: real, radius: real, d: int): (p: (real, real, int))
    ensures x - radius < 0.0 ==> p.0 == radius
    ensures !(x - radius < 0.0) && x + radius > Side ==> p.0 == Side - radius
    ensures !(x - radius < 0.0) && !(x + radius > Side) ==> p.0 == x
    ensures y - radius < 0.0 ==> p.1 == radius
    ensures !(y - radius < 0.0) && y + radius > Side ==> p.1 == Side - radius
    ensures !(y - radius < 0.0) && !(y + radius > Side) ==> p.1 == y
    ensures 0.0 < radius <= Side / 2.0 ==> radius <= p.0 <= Side - radius && radius <= p.1 <= Side - radius
    ensures !(x - radius < 0.0 || x + radius > Side) && !(y - radius < 0.0 || y + radius > Side) ==> p.2 == d
    ensures (x - radius < 0.0 || x + radius > Side) && !(y - radius < 0.0 || y + radius > Side) ==> p.2 == 180 - d
    ensures !(x - radius < 0.0 || x + radius > Side) && (y - radius < 0.0 || y + radius > Side) ==> p.2 == -d
    ensures (x - radius < 0.0 || x + radius > Side) && (y - radius < 0.0 || y + radius > Side) ==> p.2 == d - 180
    ensures 0 <= d < 360 ==> -360 < p.2 < 360
  {
    var (x1, d1) :=
      if x - radius < 0.0 then (radius, 180 - d)
      else if x + radius > Side then (Side - radius, 180 - d)
      else (x, d);
    var (y1, d2) :=
      if y - radius < 0.0 then (radius, -d1)
      else if y + radius > Side then (Side - radius, -d1)
      else (y, d1);
    (x1, y1, d2)
  }

  /**
   * Robot.update: advance by `speed` along the heading, clamp to the walls
   * reflecting the heading, then normalise with `(d + 360) % 360`.
   */
  function Update(r: Entity, trig: Trig): (u: Entity)
    requires r.Robot?
    ensures u.Robot? && u == r.(x := u.x, y := u.y, direction := u.direction)
    ensures 0.0 < r.radius <= Side / 2.0 ==>
              r.radius <= u.x <= Side - r.radius && r.radius <= u.y <= Side - r.radius
    ensures 0 <= r.direction < 360 ==> 0 <= u.direction < 360
  {
    var (x, y) := Stepped(r, trig);
    var p := Reflect(x, y, r.radius, r.direction);
    r.(x := p.0, y := p.1, direction := JRem(p.2 + 360, 360))
  }

  /** The stepped position, before any clamping. */
  function Stepped(r: Entity, trig: Trig): (real, real)
    requires r.Robot?
  {
    (r.x + r.speed * trig.cos(r.direction), r.y + r.speed * trig.sin(r.direction))
  }

  /** With no wall hit the robot moves by the step and keeps a normalised heading. */
  lemma UpdateWithoutWall(r: Entity, trig: Trig)
    requires r.Robot? && 0 <= r.direction < 360
    requires var (x, y) := Stepped(r, trig);
             r.radius <= x <= Side - r.radius && r.radius <= y <= Side - r.radius
    ensures Update(r, trig) == r.(x := Stepped(r, trig).0, y := Stepped(r, trig).1, direction := r.direction)
  {
  }

  /**
   * A robot that would cross the left wall (and no other) ends exactly at
   * `x == radius` with heading `(180 - d) mod 360`.
   */
  lemma UpdateAtLeftWall(r: Entity, trig: Trig)
    requires r.Robot? && 0 <= r.direction < 360
    requires var (x, y) := Stepped(r, trig);
             x - r.radius < 0.0 && r.radius <= y <= Side - r.radius
    ensures Update(r, trig).x == r.radius
    ensures Update(r, trig).y == Stepped(r, trig).1
    ensures Update(r, trig).direction == (180 - r.direction) % 360
  {
    var (x, y) := Stepped(r, trig);
    var p := Reflect(x, y, r.radius, r.direction);
    assert p == (r.radius, y, 180 - r.direction);
    assert Update(r, trig) == r.(x := p.0, y := p.1, direction := JRem(p.2 + 360, 360));
    assert p.2 + 360 == 540 - r.direction > 0;
    assert JRem(p.2 + 360, 360) == (540 - r.direction) % 360;
    assert (540 - r.direction) % 360 == (180 - r.direction) % 360;
  }

  /** In a corner both branches fire: the heading becomes `-(180 - d)`, normalised. */
  lemma UpdateInTopLeftCorner(r: Entity, trig: Trig)
    requires r.Robot? && 0 <= r.direction < 360
    requires var (x, y) := Stepped(r, trig);
             x - r.radius < 0.0 && y - r.radius < 0.0
    ensures Update(r, trig).x == r.radius && Update(r, trig).y == r.radius
    ensures Update(r, trig).direction == (r.direction - 180) % 360
  {
    var (x, y) := Stepped(r, trig);
    var p := Reflect(x, y, r.radius, r.direction);
    assert p == (r.radius, r.radius, r.direction - 180);
    assert Update(r, trig) == r.(x := p.0, y := p.1, direction := JRem(p.2 + 360, 360));
    assert p.2 + 360 == r.direction + 180 > 0;
    assert JRem(p.2 + 360, 360) == (r.direction + 180) % 360;
    assert (r.direction + 180) % 360 == (r.direction - 180) % 360;
  }

  /** Robot.checkCollision: the centres are closer than the sum of the radii. */
  predicate Collides(a: Entity, b: Entity)
  {
    Within(a.x - b.x, a.y - b.y, a.radius + b.radius)
  }

  /** The collision test is symmetric in its two objects. */
  lemma CollidesSymmetric(a: Entity, b: Entity)
    ensures Collides(a, b) == Collides(b, a)
  {
    assert (a.x - b.x) * (a.x - b.x) == (b.x - a.x) * (b.x - a.x);
    assert (a.y - b.y) * (a.y - b.y) == (b.y - a.y) * (b.y - a.y);
  }

  /** The test is strict: circles that only touch do not collide. */
  lemma TouchingDoesNotCollide(a: Entity, b: Entity)
    requires (a.x - b.x) * (a.x - b.x) + (a.y - b.y) * (a.y - b.y) == (a.radius + b.radius) * (a.radius + b.radius)
    ensures !Collides(a, b)
  {
  }

  /** Two objects of positive radius on the same centre always collide. */
  lemma SameCentreCollides(a: Entity, b: Entity)
    requires a.x == b.x && a.y == b.y && a.radius + b.radius > 0.0
    ensures Collides(a, b)
  {
    var s := a.radius + b.radius;
    assert a.x - b.x == 0.0 && a.y - b.y == 0.0;
    assert 0.0 < s * s;
    assert Within(0.0, 0.0, s);
  }

  /** Robot.handleCollision: a full reversal when colliding, nothing otherwise. */
  function HandleCollision(r: Entity, other: Entity): (u: Entity)
    requires r.Robot?
    ensures u.Robot? && u == r.(direction := u.direction)
    ensures !Collides(r, other) ==> u == r
    ensures Collides(r, other) && 0 <= r.direction < 360 ==>
              u.direction == (r.direction + 180) % 360 && 0 <= u.direction < 360
  {
    if Collides(r, other) then r.(direction := Reverse(r.direction)) else r
  }

  /** Two collision responses against the same colliding object cancel out. */
  lemma HandleCollisionTwice(r: Entity, other: Entity)
    requires r.Robot? && 0 <= r.direction < 360
    ensures HandleCollision(HandleCollision(r, other), other) == r
  {
    if Collides(r, other) {
      ReverseTwice(r.direction);
    }
  }
}
