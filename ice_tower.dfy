/** The ice tower (`TourDeGlace`): fast, slows the creatures it hits, attacks
    ground and air creatures. Its upgrade is guarded internally by the level cap. */
module IceTowers {
  import opened Towers

  /** `NIVEAU_MAX` */
  const MaxLevel: int := 5
  /** `COEFF_RALENTISSMENT`: the creature loses 40% of its speed. */
  const SlowCoefficient: real := 0.4
  /** `PRIX_ACHAT` */
  const PurchasePrice: int := 50
  const InitialDamage: int := 20
  const InitialRange: real := 50.0
  const InitialFireRate: real := 2.0
  const Width: int := 20
  const Height: int := 20

  /** `peutEncoreEtreAmelioree`: the strict bound `niveau < NIVEAU_MAX`. */
  predicate CanStillUpgrade(s: Stats)
  {
    s.level < MaxLevel
  }

  /** `getDegatsLvlSuivant`: for non-negative damage, half again, rounded down. */
  function DamageNextLevel(s: Stats): (r: int)
    ensures 0 <= s.damage ==> r == s.damage + s.damage / 2 && r >= s.damage
  {
    if 0 <= s.damage then ScaleDamageAddsHalf(s.damage); ScaleDamage(s.damage)
    else ScaleDamage(s.damage)
  }

  /** `getRayonPorteeLvlSuivant`: the range of the next level is strictly larger. */
  function RangeNextLevel(s: Stats): (r: real)
    ensures r > s.range
  {
    s.range + 10.0
  }

  /** `getCadenceTirLvlSuivant`: the rate of the next level is no smaller, and
      strictly larger for a positive rate. */
  function FireRateNextLevel(s: Stats): (r: real)
    ensures 0.0 <= s.fireRate ==> r >= s.fireRate
    ensures 0.0 < s.fireRate ==> r > s.fireRate
  {
    s.fireRate * 1.2
  }

  /** The record after one call of `ameliorer`. */
  function Upgraded(s: Stats): Stats
  {
    if CanStillUpgrade(s) then
      Stats(s.level + 1, 2 * s.price, s.totalPrice + s.price,
            DamageNextLevel(s), RangeNextLevel(s), FireRateNextLevel(s))
    else
      s
  }

  /** The record after `k` successive calls of `ameliorer`. */
  function UpgradedTimes(s: Stats, k: nat): Stats
  {
    if k == 0 then s else Upgraded(UpgradedTimes(s, k - 1))
  }

  /** The record of a fresh tower; `level0` and `totalPrice0` are what the
      base class `Tour` sets, which is not part of this model. */
  function InitialStats(level0: int, totalPrice0: int): Stats
  {
    Stats(level0, PurchasePrice, totalPrice0, InitialDamage, InitialRange, InitialFireRate)
  }

  class IceTower {
    const id: int
    var x: int
    var y: int
    const width: int
    const height: int
    const targets: TargetClass
    var level: int
    var price: int
    var totalPrice: int
    var damage: int
    var range: real
    var fireRate: real

    function Stats(): Stats
      reads this
    {
      Towers.Stats(level, price, totalPrice, damage, range, fireRate)
    }

    /** `new TourDeGlace()`. */
    constructor (id: int, level0: int, totalPrice0: int)
      ensures this.id == id && x == 0 && y == 0
      ensures width == Width && height == Height && targets == GroundAndAir
      ensures Stats() == InitialStats(level0, totalPrice0)
    {
      this.id := id;
      x, y := 0, 0;
      width, height := Width, Height;
      targets := GroundAndAir;
      level, price, totalPrice := level0, PurchasePrice, totalPrice0;
      damage, range, fireRate := InitialDamage, InitialRange, InitialFireRate;
    }

    /** `ameliorer`: when the cap allows it, pay the current price into the
        total, double the price, move damage, range and rate to the previews
        of the next level, and go up one level; otherwise change nothing. */
    method Upgrade()
      modifies this
      ensures Stats() == Upgraded(old(Stats()))
      ensures old(CanStillUpgrade(Stats())) ==>
                damage == old(DamageNextLevel(Stats())) &&
                range == old(RangeNextLevel(Stats())) &&
                fireRate == old(FireRateNextLevel(Stats()))
      ensures x == old(x) && y == old(y)
    {
      if CanStillUpgrade(Stats()) {
        totalPrice := totalPrice + price;
        price := price * 2;
        damage := DamageNextLevel(Stats());
        range := RangeNextLevel(Stats());
        fireRate := FireRateNextLevel(Stats());
        level := level + 1;
      }
    }

    /** `tirer`: adds one ice ball carrying the current damage and the slow coefficient. */
    method Fire(manager: AnimationManager, target: Creature)
      modifies manager
      ensures manager.animations ==
                old(manager.animations) + [IceBall(id, target.id, damage, SlowCoefficient)]
    {
      manager.Add(IceBall(id, target.id, damage, SlowCoefficient));
    }

    /** `getCopieOriginale`: a fresh ice tower whose stats owe nothing to this one's. */
    method OriginalCopy(newId: int, level0: int, totalPrice0: int) returns (t: IceTower)
      ensures fresh(t) && t.id == newId && t.x == 0 && t.y == 0
      ensures t.width == Width && t.height == Height && t.targets == GroundAndAir
      ensures t.Stats() == InitialStats(level0, totalPrice0)
    {
      t := new IceTower(newId, level0, totalPrice0);
    }
  }

  /** The predicate says exactly whether `ameliorer` takes effect: when it
      holds the level rises by one, and when it fails nothing changes. */
  lemma CanStillUpgradeIffUpgrades(s: Stats)
    ensures CanStillUpgrade(s) <==> Upgraded(s).level == s.level + 1
    ensures !CanStillUpgrade(s) <==> Upgraded(s) == s
  {
  }

  /** At or beyond the cap an upgrade changes nothing. */
  lemma UpgradeAtCapIsNoOp(s: Stats)
    requires s.level >= MaxLevel
    ensures Upgraded(s) == s
  {
  }

  /** Below the cap an upgrade raises the level by exactly one, adds the old
      price to the total, doubles the price, adds half the damage (for
      non-negative damage), ten to the range and a fifth to the rate. */
  lemma UpgradeStep(s: Stats)
    requires s.level < MaxLevel && 0 <= s.damage
    ensures Upgraded(s).level == s.level + 1
    ensures Upgraded(s).totalPrice == s.totalPrice + s.price
    ensures Upgraded(s).price == 2 * s.price
    ensures Upgraded(s).damage == s.damage + s.damage / 2
    ensures Upgraded(s).range == s.range + 10.0
    ensures Upgraded(s).fireRate == s.fireRate * 1.2
  {
    ScaleDamageAddsHalf(s.damage);
  }

  /** An upgrade keeps the level within the cap. */
  lemma UpgradeKeepsLevelBound(s: Stats)
    requires s.level <= MaxLevel
    ensures s.level <= Upgraded(s).level <= MaxLevel
  {
  }

  /** Damage, range and rate never decrease with an upgrade. */
  lemma UpgradeIsMonotone(s: Stats)
    requires 0 <= s.damage && 0.0 <= s.fireRate
    ensures Upgraded(s).damage >= s.damage
    ensures Upgraded(s).range >= s.range
    ensures Upgraded(s).fireRate >= s.fireRate
  {
    ScaleDamageAddsHalf(s.damage);
  }

  /** Closed form after `k` upgrades that all stay within the cap:
      the price is `p·2^k` and the total grows by `p·(2^k − 1)`. */
  lemma {:induction false} UpgradedTimesClosedForm(s: Stats, k: nat)
    requires s.level + k <= MaxLevel
    ensures UpgradedTimes(s, k).level == s.level + k
    ensures UpgradedTimes(s, k).price == s.price * Pow2(k)
    ensures UpgradedTimes(s, k).totalPrice == s.totalPrice + s.price * (Pow2(k) - 1)
    ensures UpgradedTimes(s, k).range == s.range + 10.0 * k as real
    ensures UpgradedTimes(s, k).fireRate == s.fireRate * RealPow(1.2, k)
  {
    if k > 0 {
      UpgradedTimesClosedForm(s, k - 1);
      var t := UpgradedTimes(s, k - 1);
      var u := UpgradedTimes(s, k);
      assert t.level < MaxLevel;
      assert u == Stats(t.level + 1, 2 * t.price, t.totalPrice + t.price,
                        DamageNextLevel(t), t.range + 10.0, t.fireRate * 1.2);
      PriceDoublingStep(s.price, Pow2(k - 1));
      RealPowStep(s.fireRate, k);
    }
  }

  /** However many times `ameliorer` is called, a tower that started within
      the cap ends at level `min(level + k, MaxLevel)`, and calls beyond the
      cap change nothing. */
  lemma {:induction false} UpgradedTimesSaturates(s: Stats, k: nat)
    requires s.level <= MaxLevel
    ensures UpgradedTimes(s, k).level == if s.level + k <= MaxLevel then s.level + k else MaxLevel
    ensures s.level + k > MaxLevel ==>
              UpgradedTimes(s, k) == UpgradedTimes(s, (MaxLevel - s.level) as nat)
  {
    if k > 0 {
      UpgradedTimesSaturates(s, k - 1);
    }
  }
}
