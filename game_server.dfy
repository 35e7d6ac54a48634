/** The game server (`ServeurJeu`) with its sockets abstracted away: the
    translation of player commands into calls on the game and of their
    outcomes into result codes, and the registry of connected clients.
    The game itself (`Jeu`) is seen only through its lists of towers and
    players and through the outcome of the calls made on it. */
module GameServer {

  datatype Option<T> = None | Some(value: T)

  /** The tower kinds the server can build, in the order of its `switch`. */
  datatype TowerKind = Archer | AntiAir | Ballistic | Cannon | Air | Fire | Ice | Electric

  /** The integer type codes of the `IDTours` interface (`TOUR_ARCHER`,
      `TOUR_AA`, ...), whose values are not part of this model. */
  datatype TowerCodes = TowerCodes(archer: int, antiAir: int, ballistic: int, cannon: int,
                                   air: int, fire: int, ice: int, electric: int)

  /** The result codes of the wire protocol (`ConstantesServeurJeu`). */
  datatype ResultCode = Ok | PasArgent | ZoneInaccessible | CheminBloque | Erreur

  /** How a call on the game ended: normally, or with `NoMoneyException`,
      `BadPosException`, `PathBlockException` or any other exception. */
  datatype GameOutcome = Done | NoMoney | BadPos | PathBlock | Other

  /** What a command handler does: return a code, or let an
      `IllegalArgumentException` escape. */
  datatype Reply = Returned(code: ResultCode) | IllegalArgument

  datatype Player = Player(id: int, name: string)

  /** A tower of the game, as far as the server looks at it. */
  datatype TowerInfo = TowerInfo(id: int, kind: TowerKind)

  /** The new tower `poserTour` hands to the game: its kind, its position and its owner. */
  datatype Placement = Placement(kind: TowerKind, x: int, y: int, owner: Player)

  /** A registered client (`JoueurDistant`): its id and its channel. */
  datatype Client = Client(id: int, channel: Channel)

  function CodeOf(codes: TowerCodes, k: TowerKind): int
  {
    match k
    case Archer => codes.archer
    case AntiAir => codes.antiAir
    case Ballistic => codes.ballistic
    case Cannon => codes.cannon
    case Air => codes.air
    case Fire => codes.fire
    case Ice => codes.ice
    case Electric => codes.electric
  }

  /** The labels of a Java `switch` are distinct constants. */
  predicate DistinctCodes(codes: TowerCodes)
  {
    forall k1, k2 :: CodeOf(codes, k1) == CodeOf(codes, k2) ==> k1 == k2
  }

  /** The `switch` of `poserTour`: the kind whose code is `code`, if any. */
  function KindOfCode(codes: TowerCodes, code: int): (r: Option<TowerKind>)
    ensures r.Some? ==> CodeOf(codes, r.value) == code
    ensures r.None? <==> forall k :: CodeOf(codes, k) != code
  {
    if code == codes.archer then Some(Archer)
    else if code == codes.antiAir then Some(AntiAir)
    else if code == codes.ballistic then Some(Ballistic)
    else if code == codes.cannon then Some(Cannon)
    else if code == codes.air then Some(Air)
    else if code == codes.fire then Some(Fire)
    else if code == codes.ice then Some(Ice)
    else if code == codes.electric then Some(Electric)
    else None
  }

  /** Every kind's code is recognised as that kind. */
  lemma KindOfCodeRoundTrip(codes: TowerCodes, k: TowerKind)
    requires DistinctCodes(codes)
    ensures KindOfCode(codes, CodeOf(codes, k)) == Some(k)
  {
  }

  /** The `catch` clauses of `poserTour`. */
  function PlacementCode(o: GameOutcome): (r: ResultCode)
    ensures r == Ok <==> o == Done
    ensures r == Erreur <==> o == Other
  {
    match o
    case Done => Ok
    case NoMoney => PasArgent
    case BadPos => ZoneInaccessible
    case PathBlock => CheminBloque
    case Other => Erreur
  }

  /** Different outcomes give different codes, so a client can tell them apart. */
  lemma PlacementCodeInjective(o1: GameOutcome, o2: GameOutcome)
    requires PlacementCode(o1) == PlacementCode(o2)
    ensures o1 == o2
  {
  }

  /** The `catch` clause of `ameliorerTour`: any exception reads as "not enough money". */
  function UpgradeCode(o: GameOutcome): (r: ResultCode)
    ensures r == Ok <==> o == Done
    ensures r == Ok || r == PasArgent
  {
    if o == Done then Ok else PasArgent
  }

  /** The id `repererTour` compares (`getId` of a tower). */
  function TowerId(t: TowerInfo): int
  {
    t.id
  }

  /** The id `repererJoueur` compares (`getId` of a player). */
  function PlayerId(p: Player): int
  {
    p.id
  }

  /** Where the first element of `s` whose id (by `idOf`) is `id` stands, if
      anywhere: the search of both `repererTour` and `repererJoueur`. */
  function FirstIndex<T>(s: seq<T>, idOf: T -> int, id: int): (r: Option<nat>)
    ensures r.Some? ==> r.value < |s| && idOf(s[r.value]) == id &&
                        forall j :: 0 <= j < r.value ==> idOf(s[j]) != id
    ensures r.None? <==> forall j :: 0 <= j < |s| ==> idOf(s[j]) != id
  {
    if |s| == 0 then None
    else if idOf(s[0]) == id then Some(0)
    else match FirstIndex(s[1..], idOf, id)
      case None => None
      case Some(i) => Some(i + 1)
  }

  /** Every key of the registry maps to the client with that id. */
  predicate RegistryValid(m: map<int, Client>)
  {
    forall id :: id in m ==> m[id].id == id
  }

  /** The registry after `enregistrerClient`: a duplicate id is refused. */
  function Registered(m: map<int, Client>, id: int, channel: Channel): map<int, Client>
  {
    if id in m then m else m[id := Client(id, channel)]
  }

  /** The registry after `supprimerJoueur`. */
  function Removed(m: map<int, Client>, id: int): map<int, Client>
  {
    m - {id}
  }

  /** Registering `id` leaves it present, maps it to the new client exactly
      when it was absent, and changes no other entry. */
  lemma RegisteredChangesOnlyId(m: map<int, Client>, id: int, channel: Channel)
    ensures id in Registered(m, id, channel)
    ensures id in m ==> Registered(m, id, channel) == m
    ensures id !in m ==> Registered(m, id, channel)[id] == Client(id, channel)
    ensures forall k :: k != id ==> (k in Registered(m, id, channel) <==> k in m)
    ensures forall k :: k != id && k in m ==> Registered(m, id, channel)[k] == m[k]
  {
  }

  /** Removing `id` leaves it absent and changes no other entry. */
  lemma RemovedChangesOnlyId(m: map<int, Client>, id: int)
    ensures id !in Removed(m, id)
    ensures forall k :: k != id ==> (k in Removed(m, id) <==> k in m)
    ensures forall k :: k != id && k in m ==> Removed(m, id)[k] == m[k]
  {
  }

  /** Registering a new id and then removing it gives back the registry. */
  lemma RemoveUndoesRegister(m: map<int, Client>, id: int, channel: Channel)
    requires id !in m
    ensures Removed(Registered(m, id, channel), id) == m
  {
    var r := Removed(Registered(m, id, channel), id);
    assert forall k :: k in r <==> k in m;
    assert forall k :: k in r ==> r[k] == m[k];
  }

  /** Registering keeps every client filed under its own id. */
  lemma RegisterPreservesValid(m: map<int, Client>, id: int, channel: Channel)
    requires RegistryValid(m)
    ensures RegistryValid(Registered(m, id, channel))
  {
  }

  /** Removing keeps every client filed under its own id. */
  lemma RemovePreservesValid(m: map<int, Client>, id: int)
    requires RegistryValid(m)
    ensures RegistryValid(Removed(m, id))
  {
  }

  /** A client's transport channel (`CanalTCP`). */
  class Channel {
    var open: bool

    constructor ()
      ensures open
    {
      open := true;
    }

    /** `fermer` */
    method Close()
      modifies this
      ensures !open
    {
      open := false;
    }
  }

  /** What the server sees of the game (`Jeu`): its towers and its players. */
  class Game {
    var towers: seq<TowerInfo>
    var players: seq<Player>

    constructor (towers: seq<TowerInfo>, players: seq<Player>)
      ensures this.towers == towers && this.players == players
    {
      this.towers := towers;
      this.players := players;
    }
  }

  class Server {
    /** `clients`: the registry of connected clients by id. */
    var clients: map<int, Client>
    const game: Game
    const codes: TowerCodes

    ghost predicate Valid()
      reads this
    {
      DistinctCodes(codes) && RegistryValid(clients)
    }

    constructor (game: Game, codes: TowerCodes)
      requires DistinctCodes(codes)
      ensures Valid() && clients == map[]
      ensures this.game == game && this.codes == codes
    {
      this.game := game;
      this.codes := codes;
      clients := map[];
    }

    /** `enregistrerClient`: a duplicate id leaves the registry as it was
        and closes the new channel; a new id is filed with its channel. */
    method RegisterClient(id: int, channel: Channel)
      requires Valid()
      modifies this`clients, channel
      ensures Valid()
      ensures clients == Registered(old(clients), id, channel)
      ensures channel.open == (old(channel.open) && id !in old(clients))
    {
      RegisterPreservesValid(clients, id, channel);
      if id in clients {
        channel.Close();
      } else {
        clients := clients[id := Client(id, channel)];
      }
    }

    /** `supprimerJoueur` */
    method RemovePlayer(id: int)
      requires Valid()
      modifies this`clients
      ensures Valid()
      ensures clients == Removed(old(clients), id)
    {
      RemovePreservesValid(clients, id);
      clients := clients - {id};
    }

    /** `repererJoueur`: the first player of the game with that id; `None`
        stands for the `IllegalArgumentException` thrown when there is none. */
    method FindPlayer(id: int) returns (p: Option<Player>)
      ensures p.None? <==> FirstIndex(game.players, PlayerId, id).None?
      ensures p.Some? ==> p.value == game.players[FirstIndex(game.players, PlayerId, id).value]
    {
      var players := game.players;
      var i := 0;
      while i < |players|
        invariant 0 <= i <= |players|
        invariant forall j :: 0 <= j < i ==> PlayerId(players[j]) != id
      {
        if players[i].id == id {
          return Some(players[i]);
        }
        i := i + 1;
      }
      return None;
    }

    /** `repererTour`: the first tower of the game with that id, `None` for `null`. */
    method FindTower(id: int) returns (t: Option<TowerInfo>)
      ensures t.None? <==> FirstIndex(game.towers, TowerId, id).None?
      ensures t.Some? ==> t.value == game.towers[FirstIndex(game.towers, TowerId, id).value]
    {
      var towers := game.towers;
      var i := 0;
      while i < |towers|
        invariant 0 <= i <= |towers|
        invariant forall j :: 0 <= j < i ==> TowerId(towers[j]) != id
      {
        if towers[i].id == id {
          return Some(towers[i]);
        }
        i := i + 1;
      }
      return None;
    }

    /** `poserTour`: an unknown type code gives `Erreur` before anything
        else; an unknown player lets `IllegalArgumentException` escape;
        otherwise the new tower, at `(x, y)` and owned by that player, is
        handed to the game and the game's `outcome` is turned into a code. */
    method PlaceTower(playerId: int, typeCode: int, x: int, y: int, outcome: GameOutcome)
      returns (reply: Reply, submitted: Option<Placement>)
      ensures KindOfCode(codes, typeCode).None? ==> reply == Returned(Erreur) && submitted.None?
      ensures KindOfCode(codes, typeCode).Some? && FirstIndex(game.players, PlayerId, playerId).None? ==>
                reply == IllegalArgument && submitted.None?
      ensures KindOfCode(codes, typeCode).Some? && FirstIndex(game.players, PlayerId, playerId).Some? ==>
                reply == Returned(PlacementCode(outcome)) &&
                submitted == Some(Placement(KindOfCode(codes, typeCode).value, x, y,
                                            game.players[FirstIndex(game.players, PlayerId, playerId).value]))
      ensures submitted.Some? ==> submitted.value.x == x && submitted.value.y == y &&
                                  submitted.value.owner.id == playerId &&
                                  submitted.value.owner in game.players
    {
      var kind := KindOfCode(codes, typeCode);
      if kind.None? {
        return Returned(Erreur), None;
      }
      var owner := FindPlayer(playerId);
      if owner.None? {
        return IllegalArgument, None;
      }
      submitted := Some(Placement(kind.value, x, y, owner.value));
      reply := Returned(PlacementCode(outcome));
    }

    /** `ameliorerTour`: `Erreur` for an unknown tower; otherwise the tower
        is handed to the game and `outcome` decides between `Ok` and `PasArgent`. */
    method UpgradeTower(playerId: int, towerId: int, outcome: GameOutcome)
      returns (code: ResultCode, target: Option<TowerInfo>)
      ensures FirstIndex(game.towers, TowerId, towerId).None? ==> code == Erreur && target.None?
      ensures FirstIndex(game.towers, TowerId, towerId).Some? ==>
                code == UpgradeCode(outcome) &&
                target == Some(game.towers[FirstIndex(game.towers, TowerId, towerId).value])
    {
      target := FindTower(towerId);
      if target.None? {
        return Erreur, None;
      }
      code := UpgradeCode(outcome);
    }

    /** `supprimerTour`: `Erreur` for an unknown tower; otherwise the tower
        is handed to the game to be sold and the answer is `Ok`. */
    method SellTower(playerId: int, towerId: int) returns (code: ResultCode, sold: Option<TowerInfo>)
      ensures FirstIndex(game.towers, TowerId, towerId).None? ==> code == Erreur && sold.None?
      ensures FirstIndex(game.towers, TowerId, towerId).Some? ==>
                code == Ok && sold == Some(game.towers[FirstIndex(game.towers, TowerId, towerId).value])
    {
      sold := FindTower(towerId);
      if sold.None? {
        return Erreur, None;
      }
      code := Ok;
    }

    /** `lancerVague`: not implemented by the server; answers 0. */
    method LaunchWave(playerId: int, waveType: int) returns (r: int)
      ensures r == 0
    {
      r := 0;
    }

    /** `changementEtatJoueur`: not implemented by the server; answers 0. */
    method ChangePlayerState(playerId: int, newState: int) returns (r: int)
      ensures r == 0
    {
      r := 0;
    }

    /** `changementEtatPartie`: every state, paused, playing or other, is
        accepted without effect; answers 0. */
    method ChangeGameState(playerId: int, newState: int) returns (r: int)
      ensures r == 0
    {
      r := 0;
    }
  }
}
