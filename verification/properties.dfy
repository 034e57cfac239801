/** What the turn engine promises, stated over the step functions that the
    methods of the engine are proved to follow. */
module Properties {
  import opened Model
  import opened Board
  import opened GameState
  import opened Actions
  import opened Routing

  /** A roll of (d1, d2) from `pos` on a board of n tiles ends on tile
      (pos + d1 + d2) mod n, a tile of the board. */
  lemma DiceStep(pos: nat, d1: Die, d2: Die, n: nat)
    requires n > 0
    ensures StepAround(pos, DiceSum(d1, d2), n) == (pos + d1 + d2) % n < n
  {
  }

  /** Outside jail the dice are announced and the turn holder moves by
      their sum. */
  lemma FreeRoll(v: GameView, uuid: Id, d1: Die, d2: Die)
    requires ValidView(v) && v.players[v.playerTurn].id == uuid && !v.players[v.playerTurn].isInJail
    ensures RollOutcome(v, uuid, d1, d2) == Prepend([Message(Roll, Some(DiceRoll(d1, d2)))], MoveBy(v, uuid, DiceSum(d1, d2)))
  {
  }

  /** A move by `roll` puts the turn holder on the tile `roll` steps ahead,
      cyclically, announces the new position, and the tile reached takes
      effect. */
  lemma MoveLands(v: GameView, uuid: Id, roll: nat)
    requires ValidView(v) && v.players[v.playerTurn].id == uuid
    ensures var p := v.players[v.playerTurn];
      var target := StepAround(p.position, roll, |v.board|);
      && ValidView(WithTurnHolder(v, p.(position := target)))
      && MoveBy(v, uuid, roll)
         == Prepend([Message(Move, Some(NewPosition(target)))],
                    LandOutcome(WithTurnHolder(v, p.(position := target)), uuid, roll))
  {
    var p := v.players[v.playerTurn];
    ReplaceKeepsValid(v, v.playerTurn, p.(position := StepAround(p.position, roll, |v.board|)));
  }

  /** A jailed turn holder who rolls doubles leaves jail with no turns left
      to wait, the release is announced, and the roll then plays out
      exactly as it would for that player out of jail. */
  lemma JailDoublesEscape(v: GameView, uuid: Id, d: Die)
    requires ValidView(v) && v.players[v.playerTurn].id == uuid && v.players[v.playerTurn].isInJail
    ensures var freed := v.players[v.playerTurn].(isInJail := false, jailTurns := 0);
      && ValidView(WithTurnHolder(v, freed))
      && RollOutcome(v, uuid, d, d)
         == Prepend([Message(FreeFromJail, Some(PlayerRef(uuid)))], RollOutcome(WithTurnHolder(v, freed), uuid, d, d))
  {
    var freed := v.players[v.playerTurn].(isInJail := false, jailTurns := 0);
    ReplaceKeepsValid(v, v.playerTurn, freed);
  }

  /** A jailed turn holder who does not roll doubles has one turn less to
      wait and leaves jail only when none is left; nobody moves, no money
      changes, no tile takes effect, and the turn advances. */
  lemma JailWait(v: GameView, uuid: Id, d1: Die, d2: Die)
    requires ValidView(v) && v.players[v.playerTurn].id == uuid && v.players[v.playerTurn].isInJail
    requires d1 != d2
    ensures var p := v.players[v.playerTurn];
      var s := RollOutcome(v, uuid, d1, d2);
      var q := s.view.players[v.playerTurn];
      && q.jailTurns + 1 == p.jailTurns && q.isInJail == (p.jailTurns > 1)
      && q == p.(jailTurns := q.jailTurns, isInJail := q.isInJail)
      && |s.view.players| == |v.players|
      && (forall k :: 0 <= k < |v.players| && k != v.playerTurn ==> s.view.players[k] == v.players[k])
      && s.view.board == v.board
      && s == Advance(WithTurnHolder(v, q))
  {
  }

  /** Rent to another player that the tenant can pay: the tenant loses
      exactly the rent, the first player with the owner's id gains exactly
      the rent, nobody else changes, no money is created or lost, the
      payment is announced and the turn advances. */
  lemma RentMovesMoney(v: GameView, uuid: Id, rent: nat, owner: Id, cost: nat)
    requires ValidView(v) && v.players[v.playerTurn].id == uuid && owner in Ids(v.players)
    requires owner != uuid && v.players[v.playerTurn].money >= rent
    ensures var s := RentOrOffer(v, uuid, rent, Some(owner), cost);
      var j := IndexOf(v.players, owner);
      && TotalMoney(s.view.players) == TotalMoney(v.players)
      && s.view.players[v.playerTurn].money + rent == v.players[v.playerTurn].money
      && s.view.players[j].money == v.players[j].money + rent
      && (forall k :: 0 <= k < |v.players| && k != v.playerTurn && k != j ==> s.view.players[k] == v.players[k])
      && s.events[0] == Message(PayRent, Some(RentData(rent, owner, uuid)))
      && s.view.board == v.board
      && s == Prepend([Message(PayRent, Some(RentData(rent, owner, uuid)))],
                      Advance(v.(players := PayRentTo(v.players, v.playerTurn, owner, rent))))
  {
  }

  /** Rent the tenant cannot pay: the tenant is declared bankrupt, no money
      moves, the bankruptcy is announced and the turn advances. */
  lemma RentBankrupts(v: GameView, uuid: Id, rent: nat, owner: Id, cost: nat)
    requires ValidView(v) && v.players[v.playerTurn].id == uuid && owner in Ids(v.players)
    requires owner != uuid && v.players[v.playerTurn].money < rent
    ensures var s := RentOrOffer(v, uuid, rent, Some(owner), cost);
      && s.view.players == v.players[v.playerTurn := v.players[v.playerTurn].(isBankrupt := true)]
      && TotalMoney(s.view.players) == TotalMoney(v.players)
      && s.events[0] == Message(PlayerBankrupt, Some(PlayerRef(uuid)))
      && s.view.board == v.board
      && s == Prepend([Message(PlayerBankrupt, Some(PlayerRef(uuid)))],
                      Advance(WithTurnHolder(v, v.players[v.playerTurn].(isBankrupt := true))))
  {
    TotalMoneyUpdate(v.players, v.playerTurn, v.players[v.playerTurn].(isBankrupt := true));
  }

  /** An unowned tile, or one the turn holder owns, is offered when the
      price can be paid: nothing changes, the turn stays, and the offer
      names the tile and the player. Otherwise the turn just advances. */
  lemma OfferOrPass(v: GameView, uuid: Id, rent: nat, owner: Option<Id>, cost: nat)
    requires ValidView(v) && v.players[v.playerTurn].id == uuid
    requires owner == None || owner == Some(uuid)
    ensures var s := RentOrOffer(v, uuid, rent, owner, cost);
      if v.players[v.playerTurn].money >= cost then
        s == Step(v, [Message(AskBuyProperty, Some(BuyData(v.players[v.playerTurn].position, uuid)))])
      else s == Advance(v)
  {
  }

  /** Tax and LuxuryTax, affordable: the price is debited from the turn
      holder, nothing else changes, PayTax is announced and the turn
      advances. */
  lemma TaxPaid(v: GameView, uuid: Id, price: nat)
    requires ValidView(v) && v.players[v.playerTurn].id == uuid
    requires v.players[v.playerTurn].money >= price
    ensures var p := v.players[v.playerTurn];
      var s := TaxOutcome(v, uuid, price);
      && s.view.players == v.players[v.playerTurn := p.(money := p.money - price)]
      && TotalMoney(s.view.players) + price == TotalMoney(v.players)
      && s.events[0] == Message(PayTax, Some(AmountData(uuid, price)))
      && s == Prepend([Message(PayTax, Some(AmountData(uuid, price)))],
                      Advance(WithTurnHolder(v, p.(money := p.money - price))))
  {
    var p := v.players[v.playerTurn];
    TotalMoneyUpdate(v.players, v.playerTurn, p.(money := p.money - price));
  }

  /** Tax and LuxuryTax, unaffordable: the turn holder goes bankrupt, no
      money moves, the bankruptcy is announced and the turn advances. */
  lemma TaxBankrupts(v: GameView, uuid: Id, price: nat)
    requires ValidView(v) && v.players[v.playerTurn].id == uuid
    requires v.players[v.playerTurn].money < price
    ensures var p := v.players[v.playerTurn];
      var s := TaxOutcome(v, uuid, price);
      && s.view.players == v.players[v.playerTurn := p.(isBankrupt := true)]
      && TotalMoney(s.view.players) == TotalMoney(v.players)
      && s == Prepend([Message(PlayerBankrupt, Some(PlayerRef(uuid)))],
                      Advance(WithTurnHolder(v, p.(isBankrupt := true))))
  {
    var p := v.players[v.playerTurn];
    TotalMoneyUpdate(v.players, v.playerTurn, p.(isBankrupt := true));
  }

  /** The Go tile credits exactly its amount to the turn holder, announces
      it, and the turn advances. */
  lemma GoCredits(v: GameView, amount: nat)
    requires ValidView(v)
    ensures var p := v.players[v.playerTurn];
      var s := GoOutcome(v, amount);
      && s.view.players == v.players[v.playerTurn := p.(money := p.money + amount)]
      && TotalMoney(s.view.players) == TotalMoney(v.players) + amount
      && s.events[0] == Message(PlayerGoTile, Some(AmountData(p.id, amount)))
      && s == Prepend([Message(PlayerGoTile, Some(AmountData(p.id, amount)))],
                      Advance(WithTurnHolder(v, p.(money := p.money + amount))))
  {
    var p := v.players[v.playerTurn];
    TotalMoneyUpdate(v.players, v.playerTurn, p.(money := p.money + amount));
  }

  /** The GoToJail tile puts the turn holder on the first Jail tile, jailed
      for JailTurns turns, with the same money; this is announced and the
      turn advances. */
  lemma GoToJailJails(v: GameView)
    requires ValidView(v) && FirstJail(v.board).Some?
    ensures var p := v.players[v.playerTurn];
      var s := JailOutcome(v);
      var q := s.view.players[v.playerTurn];
      && v.board[q.position] == Jail
      && (forall k :: 0 <= k < q.position ==> v.board[k] != Jail)
      && q.isInJail && q.jailTurns == 3 && q.money == p.money
      && s.view.players == v.players[v.playerTurn := q]
      && s == Prepend([Message(Action.GoToJail, Some(PlayerRef(p.id)))], Advance(WithTurnHolder(v, q)))
  {
  }

  /** buy_property that goes through: the buyer pays exactly the price, the
      tile under the turn holder becomes theirs, no other tile and no other
      player changes, the sale is announced, and the turn advances. Any
      other purchase changes nothing but the turn. */
  lemma PurchaseEffect(v: GameView, uuid: Id)
    requires ValidView(v) && uuid in Ids(v.players)
    ensures var s := PurchaseOutcome(v, uuid);
      var pos := v.players[v.playerTurn].position;
      var j := IndexOf(v.players, uuid);
      if CanBuy(v, uuid) then
        && s.view.players[j].money + PriceOf(v.board[pos]) == v.players[j].money
        && (forall k :: 0 <= k < |v.players| && k != j ==> s.view.players[k] == v.players[k])
        && OwnerOf(s.view.board[pos]) == Some(uuid)
        && (forall k :: 0 <= k < |v.board| && k != pos ==> s.view.board[k] == v.board[k])
        && s.events[0] == Message(Action.BuyProperty, Some(BuyData(pos, uuid)))
        && s.view.board[pos] == WithOwner(v.board[pos], uuid)
        && s == Prepend([Message(Action.BuyProperty, Some(BuyData(pos, uuid)))], Advance(Sale(v, uuid)))
      else
        s == Advance(v)
  {
  }

  /** Bankruptcy moves no money. */
  lemma BankruptcyKeepsMoney(v: GameView, uuid: Id)
    requires ValidView(v)
    ensures TotalMoney(BankruptOutcome(v, uuid).view.players) == TotalMoney(v.players)
    ensures BankruptOutcome(v, uuid).view.players[v.playerTurn].isBankrupt
  {
    TotalMoneyUpdate(v.players, v.playerTurn, v.players[v.playerTurn].(isBankrupt := true));
  }

  /** BuyAll from the turn holder hands every property to the sender,
      whoever owned it, and changes nothing else. */
  lemma BuyAllClaims(v: GameView, uuid: Id, d1: Die, d2: Die)
    requires ValidView(v) && v.players[v.playerTurn].id == uuid
    ensures var w := Route(v, uuid, BuyAll, d1, d2).view;
      && w == v.(board := ClaimAll(v.board, uuid))
      && (forall i :: 0 <= i < |v.board| && v.board[i].Property? ==> OwnerOf(w.board[i]) == Some(uuid))
      && (forall i :: 0 <= i < |v.board| && !v.board[i].Property? ==> w.board[i] == v.board[i])
  {
  }

  // ---------------------------------------------------------------------
  // advance_turn on small matches

  function Seat(id: Id, bankrupt: bool): Player {
    Player(id, id, StartingMoney, 0, false, 0, bankrupt)
  }

  /** Two solvent players take turns: seat 0, then 1, then 0 again. */
  lemma AdvanceTwoPlayers(board: seq<Tile>)
    ensures var v := GameView([Seat("a", false), Seat("b", false)], board, 0, 0, true);
      && Advance(v).view.playerTurn == 1 && Advance(v).view.currentTurn == 1
      && Advance(Advance(v).view).view.playerTurn == 0 && Advance(Advance(v).view).view.currentTurn == 2
  {
    var ps := [Seat("a", false), Seat("b", false)];
    assert ps[1..][1..] == [];
    assert CountSolvent(ps) == 2;
  }

  /** A bankrupt player between two solvent ones is skipped. */
  lemma AdvanceSkipsMiddle(board: seq<Tile>)
    ensures var v := GameView([Seat("a", false), Seat("b", true), Seat("c", false)], board, 4, 0, true);
      && Advance(v).view.playerTurn == 2 && Advance(v).view.currentTurn == 5
  {
    var ps := [Seat("a", false), Seat("b", true), Seat("c", false)];
    assert ps[1..][1..][1..] == [];
    assert CountSolvent(ps) == 2;
  }

  /** With one solvent player left the match ends naming that player; the
      turn and the counter stay where they were. */
  lemma AdvanceEndsMatch(board: seq<Tile>)
    ensures var v := GameView([Seat("a", true), Seat("b", false)], board, 7, 0, true);
      && Advance(v).view == v.(isActive := false)
      && Advance(v).events == [Message(GameOver, Some(PlayerRef("b")))]
  {
    var ps := [Seat("a", true), Seat("b", false)];
    assert ps[1..][1..] == [];
    assert CountSolvent(ps) == 1;
  }
}
