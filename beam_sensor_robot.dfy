/** BeamSensorRobot: turn 67 degrees for every plain obstacle within 20 units of clearance, then move. */
module BeamSensorRobots {
  import opened Objects
  import Robots
  import opened Steering

  /** The clearance added to the two radii. */
  const Margin: real := 20.0

  /** The turn per triggering obstacle, in degrees. */
  const Turn: int := 67

  /**
   * BeamSensorRobot.update: `avoidObstacles` first, so proximity is measured at
   * the position before the move, then Robot.update with the new heading.
   */
  function Update(self: Entity, objs: seq<Entity>, trig: Robots.Trig): (u: Entity)
    requires self.Robot?
    ensures u.Robot? && u == self.(x := u.x, y := u.y, direction := u.direction)
    ensures TriggerCount(self, objs, Margin) == 0 ==> u == Robots.Update(self, trig)
    ensures 0 <= self.direction < 360 ==>
              u == Robots.Update(self.(direction := (self.direction + Turn * TriggerCount(self, objs, Margin)) % 360), trig)
    ensures 0 <= self.direction < 360 ==> 0 <= u.direction < 360
  {
    SteerClosedForm(self.direction, self, objs, Margin, Turn);
    SteerWithoutTriggers(self.direction, self, objs, Margin, Turn);
    Robots.Update(self.(direction := Steer(self.direction, self, objs, Margin, Turn)), trig)
  }

  /** With `k` triggering obstacles and a heading in [0, 360), the steered heading is `(d + 67k) mod 360`. */
  lemma BeamTurn(self: Entity, objs: seq<Entity>)
    requires self.Robot? && 0 <= self.direction < 360
    ensures Steer(self.direction, self, objs, Margin, Turn)
            == (self.direction + 67 * TriggerCount(self, objs, Margin)) % 360
  {
    SteerClosedForm(self.direction, self, objs, Margin, Turn);
  }

  /**
   * A beam robot at (100, 100), radius 10, heading 300, with two obstacles of
   * radius 20 inside its beam range: two turns of 67 wrap past 360 to 74.
   */
  lemma TwoObstaclesWrapAround()
    ensures var self := Robot(0, BeamSensor, 100.0, 100.0, 10.0, 5.0, 300);
            Steer(300, self, [Fixture(1, PlainObstacle, 140.0, 100.0, 20.0),
                              Fixture(2, PlainObstacle, 100.0, 140.0, 20.0)], Margin, Turn) == 74
  {
    var self := Robot(0, BeamSensor, 100.0, 100.0, 10.0, 5.0, 300);
    var a := Fixture(1, PlainObstacle, 140.0, 100.0, 20.0);
    var b := Fixture(2, PlainObstacle, 100.0, 140.0, 20.0);
    assert Near(self, a, Margin) && Near(self, b, Margin);
    assert [a, b][1..] == [b];
    assert [b][1..] == [];
  }
}
