/** BlackHole: a static fixture that absorbs robots overlapping it. */
module BlackHoles {
  import opened Objects
  import Robots

  /**
   * BlackHole.absorbs: the distance from the hole's centre to the robot's is
   * below the sum of the two radii, which is the robot collision test.
   */
  function Absorbs(hole: Entity, robot: Entity): (b: bool)
    requires IsHole(hole) && robot.Robot?
    ensures b == Robots.Collides(robot, hole)
  {
    var dx := robot.x - hole.x;
    var dy := robot.y - hole.y;
    Within(dx, dy, hole.radius + robot.radius)
  }

  /** A robot on the hole's centre is absorbed as soon as the radii sum to something positive. */
  lemma CentreIsAbsorbed(hole: Entity, robot: Entity)
    requires IsHole(hole) && robot.Robot?
    requires robot.x == hole.x && robot.y == hole.y && hole.radius + robot.radius > 0.0
    ensures Absorbs(hole, robot)
  {
    Robots.SameCentreCollides(robot, hole);
  }

  /** A robot only touching the rim is not absorbed: the test is strict. */
  lemma RimIsNotAbsorbed(hole: Entity, robot: Entity)
    requires IsHole(hole) && robot.Robot?
    requires robot.y == hole.y && robot.x == hole.x + hole.radius + robot.radius
    ensures !Absorbs(hole, robot)
  {
    var s := hole.radius + robot.radius;
    assert robot.x - hole.x == s && robot.y - hole.y == 0.0;
    assert (robot.x - hole.x) * (robot.x - hole.x) == s * s;
  }
}
