# Tower upgrades and server commands of asd-tower-defense, in Dafny

This project models two sequential pieces of the tower-defense game
asd-tower-defense and proves properties of them.

1. **Tower upgrade state machines.** The ice tower (`TourDeGlace`) and the
   cannon (`TourCanon`) each keep a record: level (`niveau`), purchase price
   (`prixAchat`), total spent (`prixTotal`), damage (`degats`), range
   (`rayonPortee`) and fire rate (`cadenceTir`). `ameliorer` updates that
   record in place. Both towers are Dafny classes with those fields. An
   upgrade method is tied to a pure function on the record (`Stats`), and
   the lemmas are about that function:
   - the ice tower's upgrade is guarded by its cap `niveau < 5`;
   - the cannon's upgrade is unguarded, and its predicate is `niveau <= 4`;
   - the lemmas give the closed form after k upgrades, the cap behaviour,
     the one-step formulas and monotonicity.
   The two `double` fields are exact `real`s. Java's `(long) (d * 1.5)` is
   stated as 1.5·d truncated toward zero.
2. **Server command translation and client registry** (`ServeurJeu`), with
   the sockets abstracted away:
   - the tower-type `switch` of `poserTour`;
   - the mapping from the game's outcome to the protocol's result codes;
   - the linear searches `repererTour` and `repererJoueur`;
   - `ameliorerTour` and `supprimerTour`;
   - the id → client registry kept by `enregistrerClient` and `supprimerJoueur`;
   - the stub handlers, which answer 0.

   The game (`Jeu`) is seen only through its tower and player lists, and
   through the outcome (`GameOutcome`) of the call the server makes on it,
   which is a parameter.

Files:
- `towers.dfy` holds what both towers share.
- `ice_tower.dfy` and `cannon_tower.dfy` hold one variant each.
- `tower_caps.dfy` compares the two caps.
- `game_server.dfy` holds the server.

Behaviour of the code worth knowing:
- At its cap, the ice tower's `ameliorer` does nothing.
- The ice tower's range grows by 10 per level; the cannon's range grows ×1.2.
- The cannon's `ameliorer` checks no cap; `peutEncoreEtreAmelioree` is
  `niveau <= 4`, so a caller who checks it before each upgrade stops at level 5.
- `ameliorerTour` answers `PAS_ARGENT` for every exception the game raises.
- The player id given to `ameliorerTour` and `supprimerTour` is only logged;
  no ownership check is made.

## Model

| member | source | states |
|---|---|---|
| Towers.ScaleDamage | src/models/tours/TourDeGlace.java:111-114 | the new damage is 1.5·d truncated toward zero: for d ≥ 0, 2r ≤ 3d < 2r + 2; for d < 0, 2r − 2 < 3d ≤ 2r |
| Towers.ScaleDamageAddsHalf | src/models/tours/TourCanon.java:73 | for non-negative damage the truncated product equals d + d/2 and is at least d |
| Towers.TruncateToInt | src/models/tours/TourCanon.java:85-87 | the `(int)` cast of a coordinate truncates toward zero: the result is within one of v, on v's side of zero |
| IceTowers.IceTower.constructor | src/models/tours/TourDeGlace.java:45-62 | a fresh ice tower is at (0, 0), 20×20, ground-and-air, with price 50, damage 20, range 50, rate 2 and the base class's level and total |
| IceTowers.IceTower.Upgrade | src/models/tours/TourDeGlace.java:64-85 | the new record is `Upgraded` of the old one; when upgradable, damage, range and rate equal the previews evaluated before the call; position unchanged |
| IceTowers.IceTower.Fire | src/models/tours/TourDeGlace.java:87-92 | exactly one ice ball is appended to the animation manager, carrying the tower, the target, the current damage and slow coefficient 0.4 |
| IceTowers.IceTower.OriginalCopy | src/models/tours/TourDeGlace.java:94-97 | a fresh tower with the initial stats, whatever the receiver's stats are |
| IceTowers.CanStillUpgradeIffUpgrades | src/models/tours/TourDeGlace.java:99-102 | `peutEncoreEtreAmelioree` (the strict bound `niveau < 5`, as written) holds exactly when `ameliorer` raises the level by one, and fails exactly when `ameliorer` changes nothing; `UpgradeKeepsLevelBound` adds that the level then stays within 5 |
| IceTowers.DamageNextLevel | src/models/tours/TourDeGlace.java:111-114 | `getDegatsLvlSuivant` gives damage + damage/2, at least the current damage, for non-negative damage; `Upgrade` ensures the new damage equals this preview |
| IceTowers.RangeNextLevel | src/models/tours/TourDeGlace.java:117-120 | `getRayonPorteeLvlSuivant` is strictly larger than the current range; `Upgrade` ensures the new range equals this preview |
| IceTowers.FireRateNextLevel | src/models/tours/TourDeGlace.java:105-108 | `getCadenceTirLvlSuivant` is no smaller than a non-negative rate and larger than a positive one; `Upgrade` ensures the new rate equals this preview |
| IceTowers.UpgradeAtCapIsNoOp | src/models/tours/TourDeGlace.java:64-66 | at level ≥ 5 an upgrade changes no field |
| IceTowers.UpgradeStep | src/models/tours/TourDeGlace.java:68-83 | below the cap: level + 1, total + old price, price × 2, damage + damage/2, range + 10, rate × 1.2 |
| IceTowers.UpgradeKeepsLevelBound | src/models/tours/TourDeGlace.java:99-102 | a level within the cap stays within it and never decreases |
| IceTowers.UpgradeIsMonotone | src/models/tours/TourDeGlace.java:104-120 | for non-negative damage and rate, an upgrade never lowers damage, range or rate |
| IceTowers.UpgradedTimesClosedForm | src/models/tours/TourDeGlace.java:69-72 | after k upgrades that stay within the cap: level + k, price p·2^k, total + p·(2^k − 1), range + 10k, rate × 1.2^k |
| IceTowers.UpgradedTimesSaturates | src/models/tours/TourDeGlace.java:64-102 | any number k of upgrades from a level within the cap ends at min(level + k, 5), and further upgrades change nothing |
| CannonTowers.CannonTower.constructor | src/models/tours/TourCanon.java:48-65 | a fresh cannon is at (0, 0), 20×20, ground-only, with price 20, damage 15, range 40, rate 1 |
| CannonTowers.CannonTower.Upgrade | src/models/tours/TourCanon.java:67-78 | the new record is `Upgraded` of the old one and the level always rises by exactly one, with no cap check |
| CannonTowers.CannonTower.Fire | src/models/tours/TourCanon.java:80-88 | the damaged zone is the one `ImpactOf` gives for the target |
| CannonTowers.CannonTower.OriginalCopy | src/models/tours/TourCanon.java:91-94 | a fresh cannon with the initial stats, whatever the receiver's stats are |
| CannonTowers.ImpactOf | src/models/tours/TourCanon.java:85-87 | the zone is centred on the target's centre, each coordinate truncated toward zero, with radius 20.0 |
| CannonTowers.UpgradeStep | src/models/tours/TourCanon.java:69-77 | at any level: level + 1, total + old price, price × 2, damage + damage/2, range × 1.2, rate × 1.2 |
| CannonTowers.CanStillUpgradeBound | src/models/tours/TourCanon.java:96-99 | `peutEncoreEtreAmelioree` (the non-strict bound `niveau <= 4`, as written) holds exactly when one more `ameliorer` ends at level 5 or below; a cannon at level 4 may still be upgraded, after which it may not; `GuardedUpgradesSaturate` gives where a caller consulting it stops |
| CannonTowers.UpgradeIsMonotone | src/models/tours/TourCanon.java:73-75 | for non-negative stats, an upgrade never lowers damage, range or rate |
| CannonTowers.UpgradedTimesClosedForm | src/models/tours/TourCanon.java:67-78 | after any k upgrades: level + k, price p·2^k, total + p·(2^k − 1), range and rate × 1.2^k |
| CannonTowers.GuardedUpgradesSaturate | src/models/tours/TourCanon.java:96-99 | a caller that checks the predicate before each upgrade reaches level min(level + k, 5), one above `NIVEAU_MAX` |
| TowerCaps.SameEffectiveCap | src/models/tours/TourCanon.java:30 | from the same level ≤ 5, k ice upgrades and k guarded cannon upgrades reach the same level, although the two `NIVEAU_MAX` differ by one |
| GameServer.KindOfCode | src/reseau/jeu/serveur/ServeurJeu.java:328-365 | the switch finds a kind exactly when some kind has that code, and the kind found has that code |
| GameServer.KindOfCodeRoundTrip | src/reseau/jeu/serveur/ServeurJeu.java:331-361 | with distinct case labels, each kind's code selects that kind |
| GameServer.PlacementCode | src/reseau/jeu/serveur/ServeurJeu.java:371-393 | the answer is `OK` iff the game raised nothing, and `ERREUR` iff it raised an exception other than the three named ones |
| GameServer.PlacementCodeInjective | src/reseau/jeu/serveur/ServeurJeu.java:375-391 | distinct outcomes give distinct codes: no money, bad position, blocked path and other failures are told apart |
| GameServer.UpgradeCode | src/reseau/jeu/serveur/ServeurJeu.java:443-450 | `OK` iff the upgrade raised nothing, else `PAS_ARGENT` |
| GameServer.FirstIndex | src/reseau/jeu/serveur/ServeurJeu.java:517-525 | the index found holds the first element (tower, or player for `repererJoueur` at lines 177-185) with that id; none is found iff no element has it |
| GameServer.RegisteredChangesOnlyId | src/reseau/jeu/serveur/ServeurJeu.java:143-158 | after registering, the id is present; a duplicate leaves the map as it was; a new id maps to the new client; every other entry is unchanged |
| GameServer.RemovedChangesOnlyId | src/reseau/jeu/serveur/ServeurJeu.java:292-298 | after removing, the id is absent and every other entry is unchanged |
| GameServer.RemoveUndoesRegister | src/reseau/jeu/serveur/ServeurJeu.java:154 | registering a new id and then removing it gives back the original registry |
| GameServer.RegisterPreservesValid | src/reseau/jeu/serveur/ServeurJeu.java:146-154 | registering keeps every client filed under its own id |
| GameServer.RemovePreservesValid | src/reseau/jeu/serveur/ServeurJeu.java:294 | removing keeps every client filed under its own id |
| GameServer.Server.RegisterClient | src/reseau/jeu/serveur/ServeurJeu.java:143-158 | the registry becomes `Registered` of the old one; the new channel is closed iff the id was already present |
| GameServer.Server.RemovePlayer | src/reseau/jeu/serveur/ServeurJeu.java:292-298 | the registry loses exactly that id |
| GameServer.Server.FindPlayer | src/reseau/jeu/serveur/ServeurJeu.java:177-185 | the search returns the first player with that id, or nothing (the exception) iff there is none |
| GameServer.Server.FindTower | src/reseau/jeu/serveur/ServeurJeu.java:517-525 | the search returns the first tower with that id, or nothing (`null`) iff there is none |
| GameServer.Server.PlaceTower | src/reseau/jeu/serveur/ServeurJeu.java:322-394 | for an unknown type code: `ERREUR`, and nothing reaches the game; for an unknown player: `IllegalArgumentException`; otherwise a tower of that kind at (x, y), owned by the first player with that id, goes to the game, and the answer is the code for the game's outcome |
| GameServer.Server.UpgradeTower | src/reseau/jeu/serveur/ServeurJeu.java:435-451 | `ERREUR` for an unknown tower and nothing reaches the game; otherwise the first tower with that id goes to the game and the answer is `UpgradeCode` of its outcome |
| GameServer.Server.SellTower | src/reseau/jeu/serveur/ServeurJeu.java:458-468 | `ERREUR` for an unknown tower; otherwise the first tower with that id is sold and the answer is `OK` |
| GameServer.Server.LaunchWave | src/reseau/jeu/serveur/ServeurJeu.java:307-312 | answers 0 and changes nothing |
| GameServer.Server.ChangePlayerState | src/reseau/jeu/serveur/ServeurJeu.java:402-406 | answers 0 and changes nothing |
| GameServer.Server.ChangeGameState | src/reseau/jeu/serveur/ServeurJeu.java:413-428 | answers 0 and changes nothing, whatever the requested state |

## Left out

- The base class `Tour` is not part of this model. The tower id, the initial level and the initial total price it sets are constructor parameters.
- The Java widths of the tower fields are unknown, because `Tour` is not shown. Prices, levels and damage are unbounded integers, so no `int`/`long` overflow is modelled. This matters only for a cannon upgraded many times, since it has no cap of its own.
- Towers.ScaleDamage: the model is exact 1.5·d truncated toward zero. It does not model double rounding for damage beyond 2^53.
- Towers.TruncateToInt: it does not model the saturation of Java's `(int)` cast outside the `int` range, or NaN.
- `rayonPortee` and `cadenceTir` are exact reals. IEEE double rounding of `× 1.2` and `+ 10` is not modelled.
- The effect of `BouleDeGlace` (flight, slowing) and of `blesserCreaturesDansZoneImpact` (which creatures are hurt) are not modelled. They are foreign code. The model records only the animation added and the zone passed.
- The internals of `Jeu.poserTour`, `Jeu.ameliorerTour` and `Jeu.vendreTour` are not modelled. Their outcome is a parameter. The server methods return the value they hand to the game. The model does not update the game's tower list itself.
- GameServer.Server.SellTower: `vendreTour` is taken not to throw. An exception it raised would escape `supprimerTour`, and that is not modelled.
- GameServer.Server.PlaceTower: the tower handed to the game is a value (kind, position, owner). It is not one of the tower objects. The stats of a fresh ice tower or cannon are stated by their own constructors.
- The values of the tower-type codes (`IDTours`) and of the result codes (`ConstantesServeurJeu`) are not part of this model. The type codes are a record of distinct integers held by the server. The result codes are a datatype.
- `Observable`, `setChanged` and `notifyObservers`, `synchronized`, and logging are not modelled. They are notification, concurrency and output plumbing.
- Also not modelled: the accept loop in `run` with `Port` and `CanalTCP`, `Watchdog`, `Updater`, `lancerPartie`, `infos`, the chat commands `direATous` and `direAuClient`, the snapshot getters, and the `EcouteurDeJeu` callbacks. They are network, thread and notification code.
- `src/vues/Panel_Terrain.java` and `src/vues/Panel_ModeSolo.java` are not modelled. They are Swing painting, input listeners, threads and menu setup.
- Colours, images, sounds, names and description strings are left out.
