/**
 * The proximity steering shared by WhiskerRobot and BeamSensorRobot
 * (`avoidObstacles`): scan the arena's objects in order and, for every plain
 * obstacle closer than the two radii plus a margin, add a fixed turn to the
 * heading and reduce it with Java's `% 360`. The two classes differ only in
 * the margin and the turn.
 */
module Steering {
  import opened Angles
  import opened Objects

  /** `Math.sqrt(dx * dx + dy * dy) < radius + item.radius + margin`, with `dx, dy` from the robot to the item. */
  predicate Near(self: Entity, item: Entity, margin: real)
  {
    Within(item.x - self.x, item.y - self.y, self.radius + item.radius + margin)
  }

  /** An item makes the robot turn when it is a plain Obstacle and it is near. */
  predicate Triggers(self: Entity, item: Entity, margin: real)
  {
    IsObstacle(item) && Near(self, item, margin)
  }

  /** The number of objects that make the robot turn. */
  function TriggerCount(self: Entity, objs: seq<Entity>, margin: real): (k: nat)
    ensures k <= |objs|
    ensures (forall i :: 0 <= i < |objs| ==> !IsObstacle(objs[i])) ==> k == 0
    decreases |objs|
  {
    if objs == [] then 0
    else (if Triggers(self, objs[0], margin) then 1 else 0) + TriggerCount(self, objs[1..], margin)
  }

  /** The heading after the scan, starting from heading `d`: one reduced turn per triggering object, in list order. */
  function Steer(d: int, self: Entity, objs: seq<Entity>, margin: real, turn: int): int
    decreases |objs|
  {
    if objs == [] then d
    else
      var d' := if Triggers(self, objs[0], margin) then JRem(d + turn, 360) else d;
      Steer(d', self, objs[1..], margin, turn)
  }

  /**
   * avoidObstacles: the loop over the arena's objects, accumulating into the
   * heading. Only the heading is computed; position and radius are read.
   */
  method AvoidObstacles(self: Entity, objs: seq<Entity>, margin: real, turn: int) returns (d: int)
    requires self.Robot?
    ensures d == Steer(self.direction, self, objs, margin, turn)
  {
    d := self.direction;
    var k := 0;
    while k < |objs|
      invariant 0 <= k <= |objs|
      invariant Steer(d, self, objs[k..], margin, turn) == Steer(self.direction, self, objs, margin, turn)
    {
      var item := objs[k];
      assert objs[k..][1..] == objs[k + 1..];
      if IsObstacle(item) {
        if Near(self, item, margin) {
          d := d + turn;
          d := JRem(d, 360);
        }
      }
      k := k + 1;
    }
  }

  /**
   * From a heading in [0, 360) and a non-negative turn, `k` triggering objects
   * leave the heading at `(d + turn * k) mod 360`, which is again in [0, 360).
   */
  lemma {:induction false} SteerClosedForm(d: int, self: Entity, objs: seq<Entity>, margin: real, turn: int)
    requires turn >= 0
    ensures 0 <= d < 360 ==> Steer(d, self, objs, margin, turn) == (d + turn * TriggerCount(self, objs, margin)) % 360
    ensures 0 <= d < 360 ==> 0 <= Steer(d, self, objs, margin, turn) < 360
    decreases |objs|
  {
    if objs != [] && 0 <= d < 360 {
      var b := Triggers(self, objs[0], margin);
      var d' := if b then JRem(d + turn, 360) else d;
      SteerClosedForm(d', self, objs[1..], margin, turn);
      StepClosedForm(d, turn, b, TriggerCount(self, objs[1..], margin), Steer(d', self, objs[1..], margin, turn));
    }
  }

  /** One step of the closed form, on integers alone: a turn taken or not, then `rest` more turns. */
  lemma StepClosedForm(d: int, turn: int, b: bool, rest: nat, tail: int)
    requires 0 <= d < 360 && turn >= 0
    requires tail == ((if b then JRem(d + turn, 360) else d) + turn * rest) % 360
    ensures tail == (d + turn * ((if b then 1 else 0) + rest)) % 360
  {
    if b {
      var t := turn * rest;
      ModAddAfter(d + turn, t);
      assert turn * (1 + rest) == turn + t;
    }
  }

  /** Without a triggering object the heading is left exactly as it was, whatever its value. */
  lemma {:induction false} SteerWithoutTriggers(d: int, self: Entity, objs: seq<Entity>, margin: real, turn: int)
    ensures TriggerCount(self, objs, margin) == 0 ==> Steer(d, self, objs, margin, turn) == d
    decreases |objs|
  {
    if objs != [] {
      SteerWithoutTriggers(d, self, objs[1..], margin, turn);
    }
  }

  /**
   * Only plain obstacles are looked at: two lists that agree on every entry
   * where either holds an obstacle give the same heading.
   */
  lemma {:induction false} SteerSeesOnlyObstacles(d: int, self: Entity, a: seq<Entity>, b: seq<Entity>, margin: real, turn: int)
    requires |a| == |b|
    requires forall k :: 0 <= k < |a| && (IsObstacle(a[k]) || IsObstacle(b[k])) ==> a[k] == b[k]
    ensures Steer(d, self, a, margin, turn) == Steer(d, self, b, margin, turn)
    ensures TriggerCount(self, a, margin) == TriggerCount(self, b, margin)
    decreases |a|
  {
    if a != [] {
      assert Triggers(self, a[0], margin) == Triggers(self, b[0], margin);
      var d' := if Triggers(self, a[0], margin) then JRem(d + turn, 360) else d;
      SteerSeesOnlyObstacles(d', self, a[1..], b[1..], margin, turn);
    }
  }
}
