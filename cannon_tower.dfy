/** The cannon tower (`TourCanon`): slow, good area damage, attacks ground
    creatures only. Its upgrade has no guard of its own: it raises the level
    whatever `CanStillUpgrade` says. */
module CannonTowers {
  import opened Towers

  /** `NIVEAU_MAX` */
  const MaxLevel: int := 4
  /** `RAYON_IMPACT`: the radius of the splash around the target. */
  const ImpactRadius: real := 20.0
  const PurchasePrice: int := 20
  const InitialDamage: int := 15
  const InitialRange: real := 40.0
  const InitialFireRate: real := 1.0
  const Width: int := 20
  const Height: int := 20

  /** `peutEncoreEtreAmelioree`: the NON-strict bound `niveau <= NIVEAU_MAX`. */
  predicate CanStillUpgrade(s: Stats)
  {
    s.level <= MaxLevel
  }

  /** The record after one call of `ameliorer`, which always applies:
      the price goes into the total and doubles, damage gains half
      (truncated), range and rate gain a fifth, the level goes up by one. */
  function Upgraded(s: Stats): Stats
  {
    Stats(s.level + 1, 2 * s.price, s.totalPrice + s.price,
          ScaleDamage(s.damage), s.range * 1.2, s.fireRate * 1.2)
  }

  /** The record after `k` successive calls of `ameliorer`. */
  function UpgradedTimes(s: Stats, k: nat): Stats
  {
    if k == 0 then s else Upgraded(UpgradedTimes(s, k - 1))
  }

  /** The record after `k` attempts by a caller that upgrades only while
      `CanStillUpgrade` holds. */
  function GuardedUpgradedTimes(s: Stats, k: nat): Stats
  {
    if k == 0 then s
    else
      var t := GuardedUpgradedTimes(s, k - 1);
      if CanStillUpgrade(t) then Upgraded(t) else t
  }

  /** The record of a fresh tower; `level0` and `totalPrice0` are what the
      base class `Tour` sets, which is not part of this model. */
  function InitialStats(level0: int, totalPrice0: int): Stats
  {
    Stats(level0, PurchasePrice, totalPrice0, InitialDamage, InitialRange, InitialFireRate)
  }

  /** The zone a shot at `target` damages: centred on the target's centre,
      each coordinate truncated to an integer, with radius `ImpactRadius`. */
  function ImpactOf(target: Creature): (z: ZoneImpact)
    ensures z.radius == ImpactRadius
    ensures 0.0 <= target.centerX ==> z.centerX as real <= target.centerX < z.centerX as real + 1.0
    ensures target.centerX < 0.0 ==> z.centerX as real - 1.0 < target.centerX <= z.centerX as real
    ensures 0.0 <= target.centerY ==> z.centerY as real <= target.centerY < z.centerY as real + 1.0
    ensures target.centerY < 0.0 ==> z.centerY as real - 1.0 < target.centerY <= z.centerY as real
  {
    ZoneImpact(TruncateToInt(target.centerX), TruncateToInt(target.centerY), ImpactRadius)
  }

  class CannonTower {
    const id: int
    var x: int
    var y: int
    const width: int
    const height: int
    const targets: TargetClass
    var level: int
    var price: int
    var totalPrice: int
    var damage: int
    var range: real
    var fireRate: real

    function Stats(): Stats
      reads this
    {
      Towers.Stats(level, price, totalPrice, damage, range, fireRate)
    }

    /** `new TourCanon()`. */
    constructor (id: int, level0: int, totalPrice0: int)
      ensures this.id == id && x == 0 && y == 0
      ensures width == Width && height == Height && targets == GroundOnly
      ensures Stats() == InitialStats(level0, totalPrice0)
    {
      this.id := id;
      x, y := 0, 0;
      width, height := Width, Height;
      targets := GroundOnly;
      level, price, totalPrice := level0, PurchasePrice, totalPrice0;
      damage, range, fireRate := InitialDamage, InitialRange, InitialFireRate;
    }

    /** `ameliorer`: compound updates of the six fields, with no cap check. */
    method Upgrade()
      modifies this
      ensures Stats() == Upgraded(old(Stats()))
      ensures level == old(level) + 1
      ensures x == old(x) && y == old(y)
    {
      totalPrice := totalPrice + price;
      price := price * 2;
      damage := ScaleDamage(damage);
      range := range * 1.2;
      fireRate := fireRate * 1.2;
      level := level + 1;
    }

    /** `tirer`: the zone handed to `blesserCreaturesDansZoneImpact`. */
    method Fire(target: Creature) returns (zone: ZoneImpact)
      ensures zone == ImpactOf(target)
    {
      zone := ImpactOf(target);
    }

    /** `getCopieOriginale`: a fresh cannon whose stats owe nothing to this one's. */
    method OriginalCopy(newId: int, level0: int, totalPrice0: int) returns (t: CannonTower)
      ensures fresh(t) && t.id == newId && t.x == 0 && t.y == 0
      ensures t.width == Width && t.height == Height && t.targets == GroundOnly
      ensures t.Stats() == InitialStats(level0, totalPrice0)
    {
      t := new CannonTower(newId, level0, totalPrice0);
    }
  }

  /** One upgrade adds the old price to the total, doubles the price, adds
      half the damage (for non-negative damage) and a fifth of range and rate,
      whatever the level. */
  lemma UpgradeStep(s: Stats)
    requires 0 <= s.damage
    ensures Upgraded(s).level == s.level + 1
    ensures Upgraded(s).totalPrice == s.totalPrice + s.price
    ensures Upgraded(s).price == 2 * s.price
    ensures Upgraded(s).damage == s.damage + s.damage / 2
    ensures Upgraded(s).range == s.range * 1.2
    ensures Upgraded(s).fireRate == s.fireRate * 1.2
  {
    ScaleDamageAddsHalf(s.damage);
  }

  /** The predicate holds exactly when one more upgrade ends at most one level
      above `MaxLevel`; so a cannon at `MaxLevel` may still be upgraded, and
      after that upgrade it may not. */
  lemma CanStillUpgradeBound(s: Stats)
    ensures CanStillUpgrade(s) <==> Upgraded(s).level <= MaxLevel + 1
    ensures s.level == MaxLevel ==> CanStillUpgrade(s) && !CanStillUpgrade(Upgraded(s))
  {
  }

  /** Damage, range and rate never decrease with an upgrade. */
  lemma UpgradeIsMonotone(s: Stats)
    requires 0 <= s.damage && 0.0 <= s.range && 0.0 <= s.fireRate
    ensures Upgraded(s).damage >= s.damage
    ensures Upgraded(s).range >= s.range
    ensures Upgraded(s).fireRate >= s.fireRate
  {
    ScaleDamageAddsHalf(s.damage);
  }

  /** Closed form after `k` upgrades, at any level: the price is `p·2^k`,
      the total grows by `p·(2^k − 1)`, range and rate by a factor `1.2^k`. */
  lemma {:induction false} UpgradedTimesClosedForm(s: Stats, k: nat)
    ensures UpgradedTimes(s, k).level == s.level + k
    ensures UpgradedTimes(s, k).price == s.price * Pow2(k)
    ensures UpgradedTimes(s, k).totalPrice == s.totalPrice + s.price * (Pow2(k) - 1)
    ensures UpgradedTimes(s, k).range == s.range * RealPow(1.2, k)
    ensures UpgradedTimes(s, k).fireRate == s.fireRate * RealPow(1.2, k)
  {
    if k > 0 {
      UpgradedTimesClosedForm(s, k - 1);
      var t := UpgradedTimes(s, k - 1);
      var u := UpgradedTimes(s, k);
      assert u == Stats(t.level + 1, 2 * t.price, t.totalPrice + t.price,
                        ScaleDamage(t.damage), t.range * 1.2, t.fireRate * 1.2);
      PriceDoublingStep(s.price, Pow2(k - 1));
      RealPowStep(s.range, k);
      RealPowStep(s.fireRate, k);
    }
  }

  /** A caller that consults `CanStillUpgrade` before each upgrade takes a
      tower from a level within `MaxLevel + 1` to `min(level + k, MaxLevel + 1)`:
      the cannon's cap is one level above its `NIVEAU_MAX`. */
  lemma {:induction false} GuardedUpgradesSaturate(s: Stats, k: nat)
    requires s.level <= MaxLevel + 1
    ensures GuardedUpgradedTimes(s, k).level ==
              if s.level + k <= MaxLevel + 1 then s.level + k else MaxLevel + 1
  {
    if k > 0 {
      GuardedUpgradesSaturate(s, k - 1);
    }
  }
}
