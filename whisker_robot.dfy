/** WhiskerRobot: turn 90 degrees for every plain obstacle within 10 units of clearance, then move. */
module WhiskerRobots {
  import opened Objects
  import Robots
  import opened Steering

  /** The clearance added to the two radii. */
  const Margin: real := 10.0

  /** The turn per triggering obstacle, in degrees. */
  const Turn: int := 90

  /**
   * WhiskerRobot.update: `avoidObstacles` first, so proximity is measured at
   * the position before the move, then Robot.update with the new heading.
   */
  function Update(self: Entity, objs: seq<Entity>, trig: Robots.Trig): (u: Entity)
    requires self.Robot?
    ensures u.Robot? && u == self.(x := u.x, y := u.y, direction := u.direction)
    ensures TriggerCount(self, objs, Margin) == 0 ==> u == Robots.Update(self, trig)
    ensures 0 <= self.direction < 360 ==>
              u == Robots.Update(self.(direction := (self.direction + Turn * TriggerCount(self, objs, Margin)) % 360), trig)
    ensures 0 <= self.direction < 360 ==> 0 <= u.direction < 360
  {
    SteerClosedForm(self.direction, self, objs, Margin, Turn);
    SteerWithoutTriggers(self.direction, self, objs, Margin, Turn);
    Robots.Update(self.(direction := Steer(self.direction, self, objs, Margin, Turn)), trig)
  }

  /** With `k` triggering obstacles and a heading in [0, 360), the steered heading is `(d + 90k) mod 360`. */
  lemma WhiskerTurn(self: Entity, objs: seq<Entity>)
    requires self.Robot? && 0 <= self.direction < 360
    ensures Steer(self.direction, self, objs, Margin, Turn)
            == (self.direction + 90 * TriggerCount(self, objs, Margin)) % 360
  {
    SteerClosedForm(self.direction, self, objs, Margin, Turn);
  }

  /**
   * A whisker robot at (100, 100), radius 15, heading 0, next to an obstacle of
   * radius 20 at (115, 100): the distance 15 is below 15 + 20 + 10, so it
   * turns to 90 degrees before moving.
   */
  lemma NearbyObstacleTurnsNinety()
    ensures var self := Robot(0, Whisker, 100.0, 100.0, 15.0, 4.0, 0);
            Steer(0, self, [Fixture(1, PlainObstacle, 115.0, 100.0, 20.0)], Margin, Turn) == 90
  {
    var self := Robot(0, Whisker, 100.0, 100.0, 15.0, 4.0, 0);
    var obstacle := Fixture(1, PlainObstacle, 115.0, 100.0, 20.0);
    assert Near(self, obstacle, Margin);
    assert [obstacle][1..] == [];
  }
}
