/** The turn engine: a dice roll with the jail countdown and the doubles
    escape, the move around the board, the effect of the tile landed on
    (rent, tax, Go credit, GoToJail, purchase offer), and the purchase of the
    tile under the turn holder. */
module Actions {
  import opened Model
  import opened Board
  import opened Broadcast
  import opened GameState

  /** A step preceded by messages broadcast before it. */
  function Prepend(pre: seq<Message>, s: Step): (r: Step)
    ensures r.view == s.view && r.events == pre + s.events
  {
    Step(s.view, pre + s.events)
  }

  /** The turn holder's record replaced by `q`. */
  function WithTurnHolder(v: GameView, q: Player): GameView
    requires v.playerTurn < |v.players|
  {
    v.(players := v.players[v.playerTurn := q])
  }

  /** The turn holder's record replaced by `q`, the message `msg` broadcast,
      then the turn advanced: the shape of every tile effect but rent. */
  function UpdateThenAdvance(v: GameView, q: Player, msg: Message): (s: Step)
    requires v.playerTurn < |v.players| && CountSolvent(v.players[v.playerTurn := q]) >= 1
    ensures Pending(WithTurnHolder(v, q)) ==> ValidView(s.view)
    ensures s.view.players == v.players[v.playerTurn := q]
    ensures s.view.board == v.board
  {
    Prepend([msg], Advance(WithTurnHolder(v, q)))
  }

  /** A turn holder who cannot pay is declared bankrupt; no money moves. */
  function BankruptOutcome(v: GameView, uuid: Id): (s: Step)
    requires ValidView(v)
    ensures ValidView(s.view) && Ids(s.view.players) == Ids(v.players)
    ensures s.view.board == v.board
  {
    BankruptTurnHolder(v);
    UpdateThenAdvance(v, v.players[v.playerTurn].(isBankrupt := true),
                      Message(PlayerBankrupt, Some(PlayerRef(uuid))))
  }

  /** The players after `amount` moves from seat `payer` to the first
      player with id `payee`: only those two balances change, no money is
      created or lost, and nobody's bankrupt flag, position or id moves. */
  function PayRentTo(ps: seq<Player>, payer: nat, payee: Id, amount: nat): (r: seq<Player>)
    requires payer < |ps| && payee in Ids(ps) && ps[payer].money >= amount
    ensures |r| == |ps| && Ids(r) == Ids(ps)
    ensures TotalMoney(r) == TotalMoney(ps) && CountSolvent(r) == CountSolvent(ps)
    ensures forall k :: 0 <= k < |ps| ==> r[k] == ps[k].(money := r[k].money)
    ensures forall k :: 0 <= k < |ps| && k != payer && k != IndexOf(ps, payee) ==> r[k] == ps[k]
    ensures ps[payer].id != payee ==>
              && r[payer].money == ps[payer].money - amount
              && r[IndexOf(ps, payee)].money == ps[IndexOf(ps, payee)].money + amount
  {
    var tenant := ps[payer].(money := ps[payer].money - amount);
    var debited := ps[payer := tenant];
    IdsUpdate(ps, payer, tenant);
    IndexOfSameIds(ps, debited, payee);
    var j := IndexOf(debited, payee);
    var landlord := debited[j].(money := debited[j].money + amount);
    TotalMoneyUpdate(ps, payer, tenant);
    TotalMoneyUpdate(debited, j, landlord);
    CountSolventUpdate(ps, payer, tenant);
    CountSolventUpdate(debited, j, landlord);
    IdsUpdate(debited, j, landlord);
    debited[j := landlord]
  }

  /** PayRentTo as the two updates pay_rent_or_buy makes in place. */
  lemma PayRentToSteps(ps: seq<Player>, payer: nat, payee: Id, amount: nat, debited: seq<Player>, j: nat)
    requires payer < |ps| && payee in Ids(ps) && ps[payer].money >= amount
    requires debited == ps[payer := ps[payer].(money := ps[payer].money - amount)]
    requires payee in Ids(debited) && j == IndexOf(debited, payee)
    ensures PayRentTo(ps, payer, payee, amount) == debited[j := debited[j].(money := debited[j].money + amount)]
  {
  }

  /** Rent paid by the turn holder to the first player with the owner's id,
      announced, then the turn advances. */
  function RentOutcome(v: GameView, uuid: Id, rent: nat, owner: Id): (s: Step)
    requires v.playerTurn < |v.players| && CountSolvent(v.players) >= 1 && owner in Ids(v.players)
    requires v.players[v.playerTurn].money >= rent
    ensures ValidView(v) ==> ValidView(s.view)
    ensures Ids(s.view.players) == Ids(v.players) && s.view.board == v.board
  {
    var w := v.(players := PayRentTo(v.players, v.playerTurn, owner, rent));
    assert ValidView(v) ==> ValidView(w);
    Prepend([Message(PayRent, Some(RentData(rent, owner, uuid)))], Advance(w))
  }

  /** The rent-or-offer decision of pay_rent_or_buy, for the turn holder
      `uuid` standing on a tile with the given rent, owner and price. */
  function RentOrOffer(v: GameView, uuid: Id, rent: nat, owner: Option<Id>, cost: nat): (s: Step)
    requires ValidView(v) && v.players[v.playerTurn].id == uuid
    requires owner.Some? ==> owner.value in Ids(v.players)
    ensures ValidView(s.view) && Ids(s.view.players) == Ids(v.players)
    ensures s.view.board == v.board
  {
    var p := v.players[v.playerTurn];
    if owner.Some? && owner.value != uuid then
      if p.money < rent then BankruptOutcome(v, uuid) else RentOutcome(v, uuid, rent, owner.value)
    else if p.money >= cost then
      Step(v, [Message(AskBuyProperty, Some(BuyData(p.position, uuid)))])
    else
      Advance(v)
  }

  /** Tax and LuxuryTax: debit the price, or declare the turn holder bankrupt
      when it cannot be paid; the turn advances either way. */
  function TaxOutcome(v: GameView, uuid: Id, price: nat): (s: Step)
    requires ValidView(v) && v.players[v.playerTurn].id == uuid
    ensures ValidView(s.view) && Ids(s.view.players) == Ids(v.players)
    ensures s.view.board == v.board
  {
    var p := v.players[v.playerTurn];
    if p.money < price then
      BankruptOutcome(v, uuid)
    else
      var payer := p.(money := p.money - price);
      ReplaceKeepsValid(v, v.playerTurn, payer);
      UpdateThenAdvance(v, payer, Message(PayTax, Some(AmountData(p.id, price))))
  }

  /** What the tile under the turn holder needs of the board for its rent
      to be defined. */
  predicate RentDefined(t: Tile, board: seq<Tile>) {
    && IsOwnable(t)
    && (t.Property? ==> t.level < |t.rents| && |t.costs| > 0)
    && (t.Railroad? && t.railOwner.Some? ==> RailroadsOwnedBy(board, t.railOwner.value) < |t.railRents|)
  }

  /** The rent a player landing on an ownable tile owes its owner: the
      property's rent at its level, the railroad rent for the number of
      railroads the owner holds, the utility rent for the dice sum. */
  function RentDue(t: Tile, roll: nat, board: seq<Tile>): (r: nat)
    requires RentDefined(t, board)
    ensures t.Property? ==> r == t.rents[t.level]
    ensures t.Railroad? ==> r == RailroadRent(t.railRents, t.railOwner, board)
    ensures t.Utility? ==> r == UtilityRent(roll, t.utilityOwner, board)
  {
    match t
    case Property(_, _, rents, level, _) => rents[level]
    case Railroad(_, _, rents, owner) => RailroadRent(rents, owner, board)
    case Utility(_, owner) => UtilityRent(roll, owner, board)
  }

  /** On a well-formed board every ownable tile's rent is defined. */
  lemma WellFormedRentDefined(board: seq<Tile>, i: nat)
    requires WellFormedBoard(board) && i < |board| && IsOwnable(board[i])
    ensures RentDefined(board[i], board)
  {
    if board[i].Railroad? {
      RailroadRentDefined(board, i);
    }
  }

  /** The Go tile: the turn holder is credited the tile's amount, the credit
      is announced, the turn advances. */
  function GoOutcome(v: GameView, amount: nat): (s: Step)
    requires ValidView(v)
    ensures ValidView(s.view) && Ids(s.view.players) == Ids(v.players)
    ensures s.view.board == v.board
  {
    var p := v.players[v.playerTurn];
    var credited := p.(money := p.money + amount);
    ReplaceKeepsValid(v, v.playerTurn, credited);
    UpdateThenAdvance(v, credited, Message(PlayerGoTile, Some(AmountData(p.id, amount))))
  }

  /** The GoToJail tile: the turn holder is put on the first Jail tile with
      the full countdown, this is announced, the turn advances. */
  function JailOutcome(v: GameView): (s: Step)
    requires ValidView(v) && FirstJail(v.board).Some?
    ensures ValidView(s.view) && Ids(s.view.players) == Ids(v.players)
    ensures s.view.board == v.board
  {
    var p := v.players[v.playerTurn];
    var jailed := p.(position := FirstJail(v.board).value, isInJail := true, jailTurns := JailTurns);
    ReplaceKeepsValid(v, v.playerTurn, jailed);
    UpdateThenAdvance(v, jailed, Message(Action.GoToJail, Some(PlayerRef(p.id))))
  }

  /** The effect of a tile that cannot be owned: the Go credit, the trip to
      jail, the tax, or nothing before the turn passes. */
  function UnownableOutcome(v: GameView, uuid: Id, t: Tile): (s: Step)
    requires ValidView(v) && v.players[v.playerTurn].id == uuid && !IsOwnable(t)
    requires t.GoToJail? ==> FirstJail(v.board).Some?
    ensures ValidView(s.view) && Ids(s.view.players) == Ids(v.players)
    ensures s.view.board == v.board
  {
    match t
    case Go(amount) => GoOutcome(v, amount)
    case GoToJail => JailOutcome(v)
    case Tax(price) => TaxOutcome(v, uuid, price)
    case LuxuryTax(price) => TaxOutcome(v, uuid, price)
    case Jail => Advance(v)
    case FreeParking => Advance(v)
    case Chance(_) => Advance(v)
  }

  /** The effect of the tile under the turn holder, `roll` being the dice
      sum: an ownable tile asks for rent or offers itself for sale. */
  function LandOutcome(v: GameView, uuid: Id, roll: nat): (s: Step)
    requires ValidView(v) && v.players[v.playerTurn].id == uuid
    ensures ValidView(s.view) && Ids(s.view.players) == Ids(v.players)
    ensures s.view.board == v.board
  {
    var pos := v.players[v.playerTurn].position;
    var tile := v.board[pos];
    if IsOwnable(tile) then
      WellFormedRentDefined(v.board, pos);
      assert OwnerOf(tile).Some? ==> OwnerOf(tile).value in Ids(v.players);
      RentOrOffer(v, uuid, RentDue(tile, roll, v.board), OwnerOf(tile), PriceOf(tile))
    else
      UnownableOutcome(v, uuid, tile)
  }

  /** The tile reached from `pos` after `steps` steps on a circular board of
      `n` tiles. */
  function StepAround(pos: nat, steps: nat, n: nat): (r: nat)
    requires n > 0
    ensures r < n
  {
    (pos + steps) % n
  }

  /** The turn holder moves `roll` tiles around the board, the new position
      is announced, then the tile reached takes effect. */
  function MoveBy(v: GameView, uuid: Id, roll: nat): (s: Step)
    requires ValidView(v) && v.players[v.playerTurn].id == uuid
    ensures ValidView(s.view) && Ids(s.view.players) == Ids(v.players)
    ensures s.view.board == v.board
  {
    var p := v.players[v.playerTurn];
    var moved := p.(position := StepAround(p.position, roll, |v.board|));
    ReplaceKeepsValid(v, v.playerTurn, moved);
    Prepend([Message(Move, Some(NewPosition(moved.position)))], LandOutcome(WithTurnHolder(v, moved), uuid, roll))
  }

  /** The number of tiles a roll of (d1, d2) moves. */
  function DiceSum(d1: Die, d2: Die): (r: nat)
    ensures 2 <= r <= 12
  {
    d1 + d2
  }

  /** The dice (d1, d2) are announced, then the turn holder moves by their
      sum. */
  function MoveOutcome(v: GameView, uuid: Id, d1: Die, d2: Die): (s: Step)
    requires ValidView(v) && v.players[v.playerTurn].id == uuid
    ensures ValidView(s.view) && Ids(s.view.players) == Ids(v.players)
    ensures s.view.board == v.board
  {
    Prepend([Message(Roll, Some(DiceRoll(d1, d2)))], MoveBy(v, uuid, DiceSum(d1, d2)))
  }

  /** A jailed turn holder who rolled doubles is freed, the release is
      announced, then they move by the dice. */
  function EscapeOutcome(v: GameView, uuid: Id, d1: Die, d2: Die): (s: Step)
    requires ValidView(v) && v.players[v.playerTurn].id == uuid
    ensures ValidView(s.view) && Ids(s.view.players) == Ids(v.players)
    ensures s.view.board == v.board
  {
    var p := v.players[v.playerTurn];
    var freed := p.(isInJail := false, jailTurns := 0);
    ReplaceKeepsValid(v, v.playerTurn, freed);
    Prepend([Message(FreeFromJail, Some(PlayerRef(p.id)))], MoveOutcome(WithTurnHolder(v, freed), uuid, d1, d2))
  }

  /** A jailed turn holder who did not roll doubles waits one turn less, is
      released without moving when the count reaches zero, and the turn
      passes. */
  function WaitOutcome(v: GameView): (s: Step)
    requires ValidView(v) && v.players[v.playerTurn].isInJail
    ensures ValidView(s.view) && Ids(s.view.players) == Ids(v.players)
    ensures s.view.board == v.board
  {
    var counted := v.players[v.playerTurn].(jailTurns := v.players[v.playerTurn].jailTurns - 1);
    var waiting := if counted.jailTurns == 0 then counted.(isInJail := false) else counted;
    ReplaceKeepsValid(v, v.playerTurn, waiting);
    Advance(WithTurnHolder(v, waiting))
  }

  /** roll_dice for the dice (d1, d2): a jailed player escapes on doubles and
      waits otherwise; any other player moves. */
  function RollOutcome(v: GameView, uuid: Id, d1: Die, d2: Die): (s: Step)
    requires ValidView(v) && v.players[v.playerTurn].id == uuid
    ensures ValidView(s.view) && Ids(s.view.players) == Ids(v.players)
    ensures s.view.board == v.board
  {
    if v.players[v.playerTurn].isInJail then
      if d1 == d2 then EscapeOutcome(v, uuid, d1, d2) else WaitOutcome(v)
    else
      MoveOutcome(v, uuid, d1, d2)
  }

  /** The price buy_property charges for a tile: the first purchase tier of a
      property, the cost of a railroad or a utility. */
  function PriceOf(t: Tile): nat
    requires IsOwnable(t) && (t.Property? ==> |t.costs| > 0)
  {
    match t
    case Property(_, costs, _, _, _) => costs[0]
    case Railroad(_, cost, _, _) => cost
    case Utility(cost, _) => cost
  }

  /** Whether buy_property by `uuid` goes through: the tile under the turn
      holder can be owned, has no owner, and the buyer can pay its price. */
  predicate CanBuy(v: GameView, uuid: Id)
    requires Consistent(v) && uuid in Ids(v.players)
  {
    var tile := v.board[v.players[v.playerTurn].position];
    IsOwnable(tile) && OwnerOf(tile).None? && v.players[IndexOf(v.players, uuid)].money >= PriceOf(tile)
  }

  /** The match after the sale: the buyer pays the price and becomes the
      owner of the tile under the turn holder. */
  function Sale(v: GameView, uuid: Id): (w: GameView)
    requires ValidView(v) && uuid in Ids(v.players) && CanBuy(v, uuid)
    ensures ValidView(w) && Ids(w.players) == Ids(v.players)
    ensures w.currentTurn == v.currentTurn && w.playerTurn == v.playerTurn && w.isActive == v.isActive
  {
    var pos := v.players[v.playerTurn].position;
    var tile := v.board[pos];
    var j := IndexOf(v.players, uuid);
    var paid := v.players[j].(money := v.players[j].money - PriceOf(tile));
    ReplaceKeepsValid(v, j, paid);
    OwnerChangeKeepsWellFormed(v.board, pos, uuid);
    var w := v.(players := v.players[j := paid], board := v.board[pos := WithOwner(tile, uuid)]);
    assert Ids(w.players) == Ids(v.players);
    w
  }

  /** buy_property by `uuid` of the tile under the turn holder: the sale, if
      it goes through, is announced; then the turn advances in every case. */
  function PurchaseOutcome(v: GameView, uuid: Id): (s: Step)
    requires ValidView(v) && uuid in Ids(v.players)
    ensures ValidView(s.view) && Ids(s.view.players) == Ids(v.players)
  {
    if CanBuy(v, uuid) then
      var pos := v.players[v.playerTurn].position;
      Prepend([Message(Action.BuyProperty, Some(BuyData(pos, uuid)))], Advance(Sale(v, uuid)))
    else
      Advance(v)
  }

  /** Broadcast `msg`, then advance the turn. */
  method AnnounceAndAdvance(game: Game, msg: Message) returns (sent: seq<Delivery>)
    requires |game.players| > 0 && game.playerTurn < |game.players| && CountSolvent(game.players) >= 1
    modifies game
    ensures game.View() == Prepend([msg], Advance(old(game.View()))).view
    ensures sent == Deliveries(Ids(old(game.players)), Prepend([msg], Advance(old(game.View()))).events)
  {
    ghost var ids := Ids(game.players);
    ghost var rest := Advance(game.View()).events;
    var first := SendToAllPlayers(game.players, msg);
    var next := game.AdvanceTurn();
    sent := first + next;
    DeliveriesCons(ids, msg, rest);
  }

  /** Replace the turn holder's record, broadcast `msg`, advance the turn. */
  method UpdateBroadcastAdvance(game: Game, q: Player, msg: Message) returns (sent: seq<Delivery>)
    requires game.playerTurn < |game.players| && q.id == game.players[game.playerTurn].id
    requires CountSolvent(game.players[game.playerTurn := q]) >= 1
    modifies game
    ensures game.View() == UpdateThenAdvance(old(game.View()), q, msg).view
    ensures sent == Deliveries(Ids(old(game.players)), UpdateThenAdvance(old(game.View()), q, msg).events)
  {
    IdsUpdate(game.players, game.playerTurn, q);
    game.players := game.players[game.playerTurn := q];
    sent := AnnounceAndAdvance(game, msg);
  }

  /** A turn holder who cannot pay is flagged bankrupt, the bankruptcy is
      announced and the turn passes. */
  method DeclareBankrupt(game: Game, uuid: Id) returns (sent: seq<Delivery>)
    requires game.Valid()
    modifies game
    ensures game.View() == BankruptOutcome(old(game.View()), uuid).view
    ensures sent == Deliveries(Ids(old(game.players)), BankruptOutcome(old(game.View()), uuid).events)
  {
    ghost var v := game.View();
    var q := game.players[game.playerTurn].(isBankrupt := true);
    BankruptTurnHolder(v);
    sent := UpdateBroadcastAdvance(game, q, Message(PlayerBankrupt, Some(PlayerRef(uuid))));
  }

  /** The rent transfer of pay_rent_or_buy: the tenant pays, the first
      player with the owner's id is paid, the payment is announced and the
      turn advances. */
  method TransferRent(game: Game, uuid: Id, rentPrice: nat, owner: Id) returns (sent: seq<Delivery>)
    requires game.playerTurn < |game.players| && CountSolvent(game.players) >= 1
    requires owner in Ids(game.players)
    requires game.players[game.playerTurn].money >= rentPrice
    modifies game
    ensures game.View() == RentOutcome(old(game.View()), uuid, rentPrice, owner).view
    ensures sent == Deliveries(Ids(old(game.players)), RentOutcome(old(game.View()), uuid, rentPrice, owner).events)
  {
    ghost var v := game.View();
    var pt := game.playerTurn;
    var ps := game.players;
    IdsUpdate(ps, pt, ps[pt].(money := ps[pt].money - rentPrice));
    ps := ps[pt := ps[pt].(money := ps[pt].money - rentPrice)];
    var j := IndexOf(ps, owner);
    ps := ps[j := ps[j].(money := ps[j].money + rentPrice)];
    PayRentToSteps(v.players, pt, owner, rentPrice, game.players[pt := game.players[pt].(money := game.players[pt].money - rentPrice)], j);
    var msg := Message(PayRent, Some(RentData(rentPrice, ps[j].id, uuid)));
    assert msg == Message(PayRent, Some(RentData(rentPrice, owner, uuid)));
    game.players := ps;
    assert game.View() == v.(players := PayRentTo(v.players, pt, owner, rentPrice));
    sent := AnnounceAndAdvance(game, msg);
  }

  /** pay_rent_or_buy on the match `game`. */
  method PayRentOrBuy(game: Game, uuid: Id, rentPrice: nat, owner: Option<Id>, cost: nat)
    returns (sent: seq<Delivery>)
    requires game.Valid() && game.players[game.playerTurn].id == uuid
    requires owner.Some? ==> owner.value in Ids(game.players)
    modifies game
    ensures game.View() == RentOrOffer(old(game.View()), uuid, rentPrice, owner, cost).view
    ensures sent == Deliveries(Ids(old(game.players)), RentOrOffer(old(game.View()), uuid, rentPrice, owner, cost).events)
  {
    var pt := game.playerTurn;
    if owner.Some? && owner.value != uuid {
      if game.players[pt].money < rentPrice {
        sent := DeclareBankrupt(game, uuid);
      } else {
        sent := TransferRent(game, uuid, rentPrice, owner.value);
      }
    } else if game.players[pt].money >= cost {
      var msg := Message(AskBuyProperty, Some(BuyData(game.players[pt].position, uuid)));
      sent := SendToAllPlayers(game.players, msg);
      DeliveriesCons(Ids(game.players), msg, []);
    } else {
      sent := game.AdvanceTurn();
    }
  }

  /** The Tax and LuxuryTax arm of roll_dice. */
  method PayTaxOrBankrupt(game: Game, uuid: Id, price: nat) returns (sent: seq<Delivery>)
    requires game.Valid() && game.players[game.playerTurn].id == uuid
    modifies game
    ensures game.View() == TaxOutcome(old(game.View()), uuid, price).view
    ensures sent == Deliveries(Ids(old(game.players)), TaxOutcome(old(game.View()), uuid, price).events)
  {
    ghost var v := game.View();
    var pt := game.playerTurn;
    var p := game.players[pt];
    if p.money < price {
      sent := DeclareBankrupt(game, uuid);
    } else {
      var payer := p.(money := p.money - price);
      var msg := Message(PayTax, Some(AmountData(payer.id, price)));
      ReplaceKeepsValid(v, pt, payer);
      assert TaxOutcome(v, uuid, price) == UpdateThenAdvance(v, payer, msg);
      sent := UpdateBroadcastAdvance(game, payer, msg);
    }
  }

  /** The Go arm of roll_dice. */
  method CreditGo(game: Game, amount: nat) returns (sent: seq<Delivery>)
    requires game.Valid()
    modifies game
    ensures game.View() == GoOutcome(old(game.View()), amount).view
    ensures sent == Deliveries(Ids(old(game.players)), GoOutcome(old(game.View()), amount).events)
  {
    ghost var v := game.View();
    var pt := game.playerTurn;
    var p := game.players[pt];
    var credited := p.(money := p.money + amount);
    var msg := Message(PlayerGoTile, Some(AmountData(p.id, amount)));
    ReplaceKeepsValid(v, pt, credited);
    assert GoOutcome(v, amount) == UpdateThenAdvance(v, credited, msg);
    sent := UpdateBroadcastAdvance(game, credited, msg);
  }

  /** The GoToJail arm of roll_dice. */
  method SendToJail(game: Game) returns (sent: seq<Delivery>)
    requires game.Valid() && FirstJail(game.board).Some?
    modifies game
    ensures game.View() == JailOutcome(old(game.View())).view
    ensures sent == Deliveries(Ids(old(game.players)), JailOutcome(old(game.View())).events)
  {
    ghost var v := game.View();
    var pt := game.playerTurn;
    var p := game.players[pt];
    var jailed := p.(position := FirstJail(game.board).value, isInJail := true, jailTurns := JailTurns);
    var msg := Message(Action.GoToJail, Some(PlayerRef(p.id)));
    ReplaceKeepsValid(v, pt, jailed);
    assert JailOutcome(v) == UpdateThenAdvance(v, jailed, msg);
    sent := UpdateBroadcastAdvance(game, jailed, msg);
  }

  /** The arms of the match in roll_dice for tiles that cannot be owned. */
  method LandOnUnownable(game: Game, uuid: Id, tile: Tile) returns (sent: seq<Delivery>)
    requires game.Valid() && game.players[game.playerTurn].id == uuid && !IsOwnable(tile)
    requires tile.GoToJail? ==> FirstJail(game.board).Some?
    modifies game
    ensures game.View() == UnownableOutcome(old(game.View()), uuid, tile).view
    ensures sent == Deliveries(Ids(old(game.players)), UnownableOutcome(old(game.View()), uuid, tile).events)
  {
    match tile
    case Go(amount) =>
      sent := CreditGo(game, amount);
    case GoToJail =>
      sent := SendToJail(game);
    case Tax(price) =>
      sent := PayTaxOrBankrupt(game, uuid, price);
    case LuxuryTax(price) =>
      sent := PayTaxOrBankrupt(game, uuid, price);
    case Jail =>
      sent := game.AdvanceTurn();
    case FreeParking =>
      sent := game.AdvanceTurn();
    case Chance(_) =>
      sent := game.AdvanceTurn();
  }

  /** The match on the tile landed on, in roll_dice. */
  method LandOn(game: Game, uuid: Id, roll: nat) returns (sent: seq<Delivery>)
    requires game.Valid() && game.players[game.playerTurn].id == uuid
    modifies game
    ensures game.View() == LandOutcome(old(game.View()), uuid, roll).view
    ensures sent == Deliveries(Ids(old(game.players)), LandOutcome(old(game.View()), uuid, roll).events)
  {
    var pos := game.players[game.playerTurn].position;
    var tile := game.board[pos];
    if IsOwnable(tile) {
      WellFormedRentDefined(game.board, pos);
      assert OwnerOf(tile).Some? ==> OwnerOf(tile).value in Ids(game.players);
      sent := PayRentOrBuy(game, uuid, RentDue(tile, roll, game.board), OwnerOf(tile), PriceOf(tile));
    } else {
      sent := LandOnUnownable(game, uuid, tile);
    }
  }

  /** The move of roll_dice: the turn holder advances `roll` tiles around
      the board, the new position is announced, then the tile takes effect. */
  method MoveTurnHolder(game: Game, uuid: Id, roll: nat) returns (sent: seq<Delivery>)
    requires game.Valid() && game.players[game.playerTurn].id == uuid
    modifies game
    ensures game.View() == MoveBy(old(game.View()), uuid, roll).view
    ensures sent == Deliveries(Ids(old(game.players)), MoveBy(old(game.View()), uuid, roll).events)
  {
    ghost var v := game.View();
    var pt := game.playerTurn;
    var p := game.players[pt];
    var moved := p.(position := StepAround(p.position, roll, |game.board|));
    ReplaceKeepsValid(v, pt, moved);
    game.players := game.players[pt := moved];
    var msg := Message(Move, Some(NewPosition(moved.position)));
    var first := SendToAllPlayers(game.players, msg);
    ghost var w := game.View();
    assert w == WithTurnHolder(v, moved);
    var rest := LandOn(game, uuid, roll);
    sent := first + rest;
    DeliveriesCons(Ids(v.players), msg, LandOutcome(w, uuid, roll).events);
  }

  /** The dice are announced, then the turn holder moves by their sum. */
  method MoveAndLand(game: Game, uuid: Id, roll1: Die, roll2: Die) returns (sent: seq<Delivery>)
    requires game.Valid() && game.players[game.playerTurn].id == uuid
    modifies game
    ensures game.View() == MoveOutcome(old(game.View()), uuid, roll1, roll2).view
    ensures sent == Deliveries(Ids(old(game.players)), MoveOutcome(old(game.View()), uuid, roll1, roll2).events)
  {
    ghost var v := game.View();
    var roll := DiceSum(roll1, roll2);
    var msg := Message(Roll, Some(DiceRoll(roll1, roll2)));
    var first := SendToAllPlayers(game.players, msg);
    var rest := MoveTurnHolder(game, uuid, roll);
    sent := first + rest;
    DeliveriesCons(Ids(v.players), msg, MoveBy(v, uuid, roll).events);
  }

  /** The doubles escape of roll_dice. */
  method EscapeJail(game: Game, uuid: Id, roll1: Die, roll2: Die) returns (sent: seq<Delivery>)
    requires game.Valid() && game.players[game.playerTurn].id == uuid
    modifies game
    ensures game.View() == EscapeOutcome(old(game.View()), uuid, roll1, roll2).view
    ensures sent == Deliveries(Ids(old(game.players)), EscapeOutcome(old(game.View()), uuid, roll1, roll2).events)
  {
    ghost var v := game.View();
    var pt := game.playerTurn;
    var p := game.players[pt];
    var freed := p.(isInJail := false, jailTurns := 0);
    ReplaceKeepsValid(v, pt, freed);
    game.players := game.players[pt := freed];
    var msg := Message(FreeFromJail, Some(PlayerRef(freed.id)));
    var first := SendToAllPlayers(game.players, msg);
    ghost var w := game.View();
    assert w == WithTurnHolder(v, freed);
    var rest := MoveAndLand(game, uuid, roll1, roll2);
    sent := first + rest;
    DeliveriesCons(Ids(v.players), msg, MoveOutcome(w, uuid, roll1, roll2).events);
  }

  /** The jail countdown of roll_dice. */
  method WaitInJail(game: Game) returns (sent: seq<Delivery>)
    requires game.Valid() && game.players[game.playerTurn].isInJail
    modifies game
    ensures game.View() == WaitOutcome(old(game.View())).view
    ensures sent == Deliveries(Ids(old(game.players)), WaitOutcome(old(game.View())).events)
  {
    ghost var v := game.View();
    var pt := game.playerTurn;
    var waiting := game.players[pt].(jailTurns := game.players[pt].jailTurns - 1);
    if waiting.jailTurns == 0 {
      waiting := waiting.(isInJail := false);
    }
    ReplaceKeepsValid(v, pt, waiting);
    assert WaitOutcome(v) == Advance(WithTurnHolder(v, waiting));
    game.players := game.players[pt := waiting];
    assert game.View() == WithTurnHolder(v, waiting);
    sent := game.AdvanceTurn();
  }

  /** roll_dice, with the two dice drawn by the caller. */
  method RollDice(game: Game, uuid: Id, roll1: Die, roll2: Die) returns (sent: seq<Delivery>)
    requires game.Valid() && game.players[game.playerTurn].id == uuid
    modifies game
    ensures game.View() == RollOutcome(old(game.View()), uuid, roll1, roll2).view
    ensures sent == Deliveries(Ids(old(game.players)), RollOutcome(old(game.View()), uuid, roll1, roll2).events)
  {
    if game.players[game.playerTurn].isInJail {
      if roll1 == roll2 {
        sent := EscapeJail(game, uuid, roll1, roll2);
      } else {
        sent := WaitInJail(game);
      }
    } else {
      sent := MoveAndLand(game, uuid, roll1, roll2);
    }
  }

  /** buy_property by the player `uuid` of the tile under the turn holder. */
  method BuyProperty(uuid: Id, game: Game) returns (sent: seq<Delivery>)
    requires game.Valid() && uuid in Ids(game.players)
    modifies game
    ensures game.View() == PurchaseOutcome(old(game.View()), uuid).view
    ensures sent == Deliveries(Ids(old(game.players)), PurchaseOutcome(old(game.View()), uuid).events)
  {
    ghost var v := game.View();
    var pos := game.players[game.playerTurn].position;
    var tile := game.board[pos];
    var j := IndexOf(game.players, uuid);
    var buyer := game.players[j];
    if IsOwnable(tile) && OwnerOf(tile).None? && buyer.money >= PriceOf(tile) {
      assert CanBuy(v, uuid);
      var paid := buyer.(money := buyer.money - PriceOf(tile));
      game.players := game.players[j := paid];
      game.board := game.board[pos := WithOwner(tile, uuid)];
      assert game.View() == Sale(v, uuid);
      sent := AnnounceAndAdvance(game, Message(Action.BuyProperty, Some(BuyData(pos, uuid))));
    } else {
      sent := game.AdvanceTurn();
    }
  }
}
