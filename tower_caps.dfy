/** How the two level caps compare. The ice tower checks `niveau < 5` inside
    its upgrade, so its upgrades stop at level 5. The cannon's upgrade checks
    nothing; its predicate is `niveau <= 4` with `NIVEAU_MAX = 4`, so a caller
    who consults the predicate before each upgrade also stops at level 5. */
module TowerCaps {
  import opened Towers
  import IceTowers
  import CannonTowers

  /** From the same record with a level of at most 5, `k` calls of the ice
      tower's `ameliorer` and `k` guarded attempts on a cannon reach the same level. */
  lemma {:induction false} SameEffectiveCap(s: Stats, k: nat)
    requires s.level <= IceTowers.MaxLevel
    ensures IceTowers.UpgradedTimes(s, k).level == CannonTowers.GuardedUpgradedTimes(s, k).level
    ensures IceTowers.MaxLevel == CannonTowers.MaxLevel + 1
  {
    IceTowers.UpgradedTimesSaturates(s, k);
    CannonTowers.GuardedUpgradesSaturate(s, k);
  }
}
