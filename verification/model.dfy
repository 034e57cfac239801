/** Data model shared by the server and the client: identifiers, board tiles,
    protocol actions and their already-decoded payloads, and the server-side
    player record. */
module Model {

  datatype Option<+T> = None | Some(value: T)

  /** Player and game identifiers are UUIDs in the program; the model only
      ever compares them for equality. */
  type Id = string

  /** Money every player starts with, on the server and in the client mirror. */
  const StartingMoney: nat := 1500

  /** Number of failed rolls a player sent to jail must wait at most. */
  const JailTurns: nat := 3

  /** One face of a six-sided die. */
  type Die = d: int | 1 <= d <= 6 witness 1

  /** The tile shapes the turn engine destructures. */
  datatype Tile =
    | Property(name: string, costs: seq<nat>, rents: seq<nat>, level: nat, owner: Option<Id>)
    | Railroad(railName: string, cost: nat, railRents: seq<nat>, railOwner: Option<Id>)
    | Utility(utilityCost: nat, utilityOwner: Option<Id>)
    | Tax(price: nat)
    | LuxuryTax(luxuryPrice: nat)
    | Go(amount: nat)
    | Jail
    | GoToJail
    | FreeParking
    | Chance(deck: string)

  predicate IsOwnable(t: Tile) {
    t.Property? || t.Railroad? || t.Utility?
  }

  /** The owner of an ownable tile; None for an unowned tile and for every
      tile that cannot be owned. */
  function OwnerOf(t: Tile): (o: Option<Id>)
    ensures !IsOwnable(t) ==> o == None
  {
    match t
    case Property(_, _, _, _, owner) => owner
    case Railroad(_, _, _, owner) => owner
    case Utility(_, owner) => owner
    case _ => None
  }

  /** Protocol action tags. */
  datatype Action =
    | Identify | GameStart | PlayerTurn | Roll | Move | AskBuyProperty
    | BuyProperty | SkipBuyProperty | PayRent | PayTax | PlayerGoTile
    | GoToJail | FreeFromJail | PlayerBankrupt | GameOver | BuyAll | Invalid

  /** One entry of the GameStart roster the server sends. */
  datatype Identity = Identity(who: Id, displayName: string)

  /** Message payloads, as they are after decoding. */
  datatype Payload =
    | PlayerRef(player: Id)
    | DiceRoll(dice1: nat, dice2: nat)
    | NewPosition(position: nat)
    | BuyData(tilePosition: nat, buyer: Id)
    | RentData(rent: nat, landlord: Id, payer: Id)
    | AmountData(recipient: Id, amount: nat)
    | Roster(entries: seq<Identity>)
    | Text(text: string)

  datatype Message = Message(action: Action, data: Option<Payload>)

  /** One message put on one player's outbound channel. */
  datatype Delivery = Delivery(to: Id, message: Message)

  /** A player as the server holds it. The outbound channel is represented by
      the deliveries addressed to the player's id. */
  datatype Player = Player(
    id: Id,
    name: string,
    money: nat,
    position: nat,
    isInJail: bool,
    jailTurns: nat,
    isBankrupt: bool)

  /** A player as freshly created on identification: full purse, on the first
      tile, free and solvent. */
  predicate Fresh(p: Player) {
    p.money == StartingMoney && p.position == 0 && !p.isInJail
    && p.jailTurns == 0 && !p.isBankrupt
  }

  /** Player::default: the record created when a connection identifies. */
  function DefaultPlayer(id: Id, name: string): (p: Player)
    ensures Fresh(p)
    ensures p.id == id && p.name == name
  {
    Player(id, name, StartingMoney, 0, false, 0, false)
  }

  /** The ids of the players, in list order. */
  function Ids(ps: seq<Player>): (ids: seq<Id>)
    ensures |ids| == |ps|
    ensures forall i :: 0 <= i < |ps| ==> ids[i] == ps[i].id
  {
    seq(|ps|, i requires 0 <= i < |ps| => ps[i].id)
  }

  /** Replacing a player by a record with the same id keeps the id list. */
  lemma IdsUpdate(ps: seq<Player>, i: nat, p: Player)
    requires i < |ps| && p.id == ps[i].id
    ensures Ids(ps[i := p]) == Ids(ps)
  {
    assert forall k :: 0 <= k < |ps| ==> Ids(ps[i := p])[k] == Ids(ps)[k];
  }

  /** The index of the first player with the given id (the `find` on id). */
  function IndexOf(ps: seq<Player>, id: Id): (k: nat)
    requires id in Ids(ps)
    ensures k < |ps| && ps[k].id == id
    ensures forall m :: 0 <= m < k ==> ps[m].id != id
  {
    if ps[0].id == id then 0
    else
      assert Ids(ps)[1..] == Ids(ps[1..]);
      1 + IndexOf(ps[1..], id)
  }

  /** Two player lists with the same ids find the same first index. */
  lemma IndexOfSameIds(ps: seq<Player>, qs: seq<Player>, id: Id)
    requires Ids(ps) == Ids(qs) && id in Ids(ps)
    ensures IndexOf(ps, id) == IndexOf(qs, id)
  {
    var a, b := IndexOf(ps, id), IndexOf(qs, id);
    assert Ids(qs)[a] == id && Ids(ps)[b] == id;
  }
}
