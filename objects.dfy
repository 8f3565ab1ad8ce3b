/**
 * The shared entity record (AbstractObject and its subclasses).
 *
 * Every object in the arena has a position `(x, y)` and a `radius`; robots
 * add a `speed` and a heading `direction` in whole degrees. The concrete Java
 * class becomes a kind tag. `id` stands for Java object identity: two records
 * with the same `id` are the same object, which is what `==` on references
 * and `ArrayList.remove(Object)` test in the source.
 *
 * The Java constructor stores `x`, `y` and `radius` as given and the getters
 * `getX`, `getY`, `getRadius` return them; here they are the datatype
 * constructor and its destructors `x`, `y`, `radius`.
 */
module Objects {

  /** The concrete subclasses of Robot. */
  datatype RobotKind = BumpSensor | Whisker | BeamSensor | Control

  /** The concrete subclasses of AbstractObject that are not robots. */
  datatype FixtureKind = PlainObstacle | Pad | Hole

  datatype Entity =
    | Robot(id: nat, robotKind: RobotKind, x: real, y: real, radius: real, speed: real, direction: int)
    | Fixture(id: nat, fixtureKind: FixtureKind, x: real, y: real, radius: real)

  /** `instanceof Obstacle`: TeleportPad and BlackHole are not subclasses of Obstacle. */
  predicate IsObstacle(e: Entity) { e.Fixture? && e.fixtureKind == PlainObstacle }

  /** `instanceof TeleportPad`. */
  predicate IsPad(e: Entity) { e.Fixture? && e.fixtureKind == Pad }

  /** `instanceof BlackHole`. */
  predicate IsHole(e: Entity) { e.Fixture? && e.fixtureKind == Hole }

  /** `getClass().getSimpleName()`. */
  function SimpleName(e: Entity): string
  {
    match e
    case Robot(_, BumpSensor, _, _, _, _, _) => "BumpSensorRobot"
    case Robot(_, Whisker, _, _, _, _, _) => "WhiskerRobot"
    case Robot(_, BeamSensor, _, _, _, _, _) => "BeamSensorRobot"
    case Robot(_, Control, _, _, _, _, _) => "ControlBot"
    case Fixture(_, PlainObstacle, _, _, _) => "Obstacle"
    case Fixture(_, Pad, _, _, _) => "TeleportPad"
    case Fixture(_, Hole, _, _, _) => "BlackHole"
  }

  /** Different classes have different simple names. */
  lemma SimpleNameNamesTheKind(a: Entity, b: Entity)
    ensures SimpleName(a) == SimpleName(b) <==>
            (a.Robot? && b.Robot? && a.robotKind == b.robotKind) ||
            (a.Fixture? && b.Fixture? && a.fixtureKind == b.fixtureKind)
  {
  }

  /**
   * `Math.sqrt(dx * dx + dy * dy) < s`, written without the square root.
   * A square root is never negative, so the comparison holds exactly when
   * `s` is positive and the squared distance is below `s * s`.
   */
  predicate Within(dx: real, dy: real, s: real)
  {
    0.0 < s && dx * dx + dy * dy < s * s
  }
}
