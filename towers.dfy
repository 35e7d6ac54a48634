/** Definitions shared by the tower variants: the record a tower keeps, the
    numeric conversions Java applies to it, and the effects a tower produces
    when it fires. The base class `Tour` itself is not part of this model. */
module Towers {

  /** Which creatures a tower attacks (`Tour.TYPE_TERRESTRE`, `Tour.TYPE_TERRESTRE_ET_AIR`). */
  datatype TargetClass = GroundOnly | GroundAndAir

  /** The part of a tower's record that an upgrade changes:
      `niveau`, `prixAchat`, `prixTotal`, `degats`, `rayonPortee`, `cadenceTir`.
      The two doubles are modelled as exact reals. */
  datatype Stats = Stats(level: int, price: int, totalPrice: int, damage: int,
                         range: real, fireRate: real)

  /** A creature as seen by a tower that shoots at it. */
  datatype Creature = Creature(id: int, centerX: real, centerY: real)

  /** An animation handed to the game's animation manager; `IceBall` is a
      `BouleDeGlace` fired by tower `origin` at creature `target`. */
  datatype Animation = IceBall(origin: int, target: int, damage: int, slowdown: real)

  /** The zone passed to `blesserCreaturesDansZoneImpact`: an integer centre and a radius. */
  datatype ZoneImpact = ZoneImpact(centerX: int, centerY: int, radius: real)

  /** The game's animation manager (`GestionnaireAnimations`), as the list of
      animations added to it. */
  class AnimationManager {
    var animations: seq<Animation>

    constructor ()
      ensures animations == []
    {
      animations := [];
    }

    method Add(a: Animation)
      modifies this
      ensures animations == old(animations) + [a]
    {
      animations := animations + [a];
    }
  }

  function Pow2(k: nat): nat
  {
    if k == 0 then 1 else 2 * Pow2(k - 1)
  }

  function RealPow(b: real, k: nat): real
  {
    if k == 0 then 1.0 else b * RealPow(b, k - 1)
  }

  /** The arithmetic step of a closed form for prices that double. */
  lemma PriceDoublingStep(p: int, q: int)
    ensures 2 * (p * q) == p * (2 * q)
    ensures p * (q - 1) + p * q == p * (2 * q - 1)
  {
  }

  /** The arithmetic step of a closed form for a rate multiplied by 1.2. */
  lemma RealPowStep(r: real, k: nat)
    requires k > 0
    ensures r * RealPow(1.2, k - 1) * 1.2 == r * RealPow(1.2, k)
  {
  }

  /** Java's `(long) (d * 1.5)`, and the narrowing in `d *= 1.5` on a long:
      one and a half times `d`, truncated toward zero. */
  function ScaleDamage(d: int): (r: int)
    ensures 0 <= d ==> 2 * r <= 3 * d < 2 * r + 2
    ensures d < 0 ==> 2 * r - 2 < 3 * d <= 2 * r
  {
    if d >= 0 then (3 * d) / 2 else -((-3 * d) / 2)
  }

  /** For non-negative damage the truncated product is `d + d / 2`. */
  lemma ScaleDamageAddsHalf(d: int)
    requires 0 <= d
    ensures ScaleDamage(d) == d + d / 2
    ensures ScaleDamage(d) >= d
  {
    var q, m := d / 2, d % 2;
    assert d == 2 * q + m;
    assert 3 * d == 2 * (3 * q + m) + m;
  }

  /** Java's `(int) v` on a double: truncation toward zero. */
  function TruncateToInt(v: real): (r: int)
    ensures 0.0 <= v ==> r as real <= v < r as real + 1.0
    ensures v < 0.0 ==> r as real - 1.0 < v <= r as real
  {
    if v >= 0.0 then v.Floor else -((-v).Floor)
  }
}
