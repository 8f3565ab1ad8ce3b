/** TeleportPad: a static fixture that moves what it touches to a random point. */
module TeleportPads {
  import opened Objects

  /**
   * TeleportPad.teleport with the two `Math.random()` draws `u` and `v`
   * supplied by the caller: the target's position becomes
   * `(u * 480 + 10, v * 480 + 10)`; nothing else about it changes.
   */
  function Teleport(target: Entity, u: real, v: real): (t: Entity)
    ensures t == target.(x := t.x, y := t.y)
    ensures 0.0 <= u < 1.0 && 0.0 <= v < 1.0 ==> 10.0 <= t.x < 490.0 && 10.0 <= t.y < 490.0
  {
    target.(x := u * 480.0 + 10.0, y := v * 480.0 + 10.0)
  }

  /** The landing point depends on the draws only, never on where the target was. */
  lemma LandingIgnoresOrigin(a: Entity, b: Entity, u: real, v: real)
    ensures Teleport(a, u, v).x == Teleport(b, u, v).x
    ensures Teleport(a, u, v).y == Teleport(b, u, v).y
  {
  }

  /** Different draws give different landing points: the map from draws to points is one-to-one. */
  lemma LandingDeterminesDraws(a: Entity, u: real, v: real, u': real, v': real)
    requires Teleport(a, u, v) == Teleport(a, u', v')
    ensures u == u' && v == v'
  {
    assert u * 480.0 == u' * 480.0;
    assert v * 480.0 == v' * 480.0;
  }
}
