/** Routing of the actions players send during a match: an action acts only
    on the matches whose turn holder sent it; Roll runs the turn engine and
    the debug BuyAll hands every property to the sender. */
module Routing {
  import opened Model
  import opened Board
  import opened Broadcast
  import opened GameState
  import opened Actions
  import opened Registry

  /** One tile after BuyAll by `uuid`: a property now belongs to `uuid`,
      whoever held it; other tiles are untouched. */
  function Claim(t: Tile, uuid: Id): (r: Tile)
    ensures r.Property? == t.Property?
    ensures t.Property? ==> OwnerOf(r) == Some(uuid) && r == t.(owner := Some(uuid))
    ensures !t.Property? ==> r == t
  {
    if t.Property? then t.(owner := Some(uuid)) else t
  }

  /** The board after BuyAll by `uuid`. */
  function ClaimAll(board: seq<Tile>, uuid: Id): (r: seq<Tile>)
    ensures |r| == |board|
    ensures forall i :: 0 <= i < |board| ==> r[i] == Claim(board[i], uuid)
  {
    seq(|board|, i requires 0 <= i < |board| => Claim(board[i], uuid))
  }

  /** BuyAll leaves the railroads alone, so the railroad count and each
      owner's railroad holdings do not change. */
  lemma {:induction false} ClaimAllRailroads(board: seq<Tile>, uuid: Id)
    ensures RailroadCount(ClaimAll(board, uuid)) == RailroadCount(board)
  {
    if board != [] {
      assert ClaimAll(board, uuid)[1..] == ClaimAll(board[1..], uuid);
      ClaimAllRailroads(board[1..], uuid);
    }
  }

  /** FirstJailFrom only looks for Jail tiles, which BuyAll leaves alone. */
  lemma {:induction false} ClaimAllJailFrom(board: seq<Tile>, uuid: Id, from: nat)
    requires from <= |board|
    ensures FirstJailFrom(ClaimAll(board, uuid), from) == FirstJailFrom(board, from)
    decreases |board| - from
  {
    if from < |board| {
      ClaimAllJailFrom(board, uuid, from + 1);
    }
  }

  /** BuyAll by a player of the match keeps the match invariant: the board
      stays well formed and every new owner is a player. */
  lemma ClaimAllKeepsValid(v: GameView, uuid: Id)
    requires ValidView(v) && uuid in Ids(v.players)
    ensures ValidView(v.(board := ClaimAll(v.board, uuid)))
  {
    ClaimAllRailroads(v.board, uuid);
    ClaimAllJailFrom(v.board, uuid, 0);
  }

  /** handle_message_in_game on one match: nothing happens unless `uuid`
      holds the turn; then Roll is roll_dice with the dice (d1, d2), BuyAll
      claims every property without a message, and every other action is
      ignored. The function is total: a view that breaks the match
      invariant, which no registered match does, is left alone. */
  function Route(v: GameView, uuid: Id, a: Action, d1: Die, d2: Die): (s: Step)
    ensures ValidView(v) ==> ValidView(s.view) && Ids(s.view.players) == Ids(v.players)
    ensures s != Step(v, []) ==> ValidView(v) && v.players[v.playerTurn].id == uuid && (a == Roll || a == BuyAll)
    ensures a == BuyAll ==>
              && s.events == []
              && s.view.players == v.players && s.view.playerTurn == v.playerTurn
              && s.view.currentTurn == v.currentTurn && s.view.isActive == v.isActive
              && |s.view.board| == |v.board|
  {
    if !ValidView(v) || v.players[v.playerTurn].id != uuid then
      Step(v, [])
    else
      match a
      case Roll => RollOutcome(v, uuid, d1, d2)
      case BuyAll =>
        ClaimAllKeepsValid(v, uuid);
        Step(v.(board := ClaimAll(v.board, uuid)), [])
      case _ => Step(v, [])
  }

  /** Roll from the turn holder has exactly the effect of roll_dice. */
  lemma RollIsRollDice(v: GameView, uuid: Id, d1: Die, d2: Die)
    requires ValidView(v) && v.players[v.playerTurn].id == uuid
    ensures Route(v, uuid, Roll, d1, d2) == RollOutcome(v, uuid, d1, d2)
  {
  }

  /** The BuyAll loop: every property of the board is given to `uuid`. */
  method ClaimAllProperties(game: Game, uuid: Id)
    modifies game
    ensures game.board == ClaimAll(old(game.board), uuid)
    ensures game.players == old(game.players) && game.playerTurn == old(game.playerTurn)
    ensures game.currentTurn == old(game.currentTurn) && game.isActive == old(game.isActive)
  {
    for i := 0 to |game.board|
      invariant |game.board| == |old(game.board)|
      invariant forall k :: 0 <= k < i ==> game.board[k] == Claim(old(game.board)[k], uuid)
      invariant forall k :: i <= k < |game.board| ==> game.board[k] == old(game.board)[k]
      invariant game.players == old(game.players) && game.playerTurn == old(game.playerTurn)
      invariant game.currentTurn == old(game.currentTurn) && game.isActive == old(game.isActive)
    {
      if game.board[i].Property? {
        game.board := game.board[i := game.board[i].(owner := Some(uuid))];
      }
    }
  }

  /** The body of the loop of handle_message_in_game, for one match. */
  method HandleInGame(game: Game, uuid: Id, a: Action, d1: Die, d2: Die) returns (sent: seq<Delivery>)
    requires game.Valid()
    modifies game
    ensures game.View() == Route(old(game.View()), uuid, a, d1, d2).view
    ensures sent == Deliveries(Ids(old(game.players)), Route(old(game.View()), uuid, a, d1, d2).events)
  {
    if game.players[game.playerTurn].id != uuid {
      sent := [];
      return;
    }
    match a
    case Roll =>
      sent := RollDice(game, uuid, d1, d2);
    case BuyAll =>
      ClaimAllProperties(game, uuid);
      sent := [];
    case _ =>
      sent := [];
  }

  /** The views of the matches listed in `order`. */
  function ViewsOf(games: map<Id, Game>, order: seq<Id>): (vs: seq<GameView>)
    requires forall j :: 0 <= j < |order| ==> order[j] in games
    reads games.Values
    ensures |vs| == |order|
    ensures forall j :: 0 <= j < |order| ==> vs[j] == games[order[j]].View()
  {
    seq(|order|, j requires 0 <= j < |order| && order[j] in games reads games.Values => games[order[j]].View())
  }

  /** The deliveries of handle_message_in_game, match after match. */
  function Outgoing(vs: seq<GameView>, uuid: Id, a: Action, dice: seq<(Die, Die)>): seq<Delivery>
    requires |dice| == |vs|
  {
    if vs == [] then []
    else
      Outgoing(vs[..|vs| - 1], uuid, a, dice[..|vs| - 1])
      + Deliveries(Ids(vs[|vs| - 1].players), Route(vs[|vs| - 1], uuid, a, dice[|vs| - 1].0, dice[|vs| - 1].1).events)
  }

  /** Routing one more match adds its deliveries at the end. */
  lemma OutgoingSnoc(vs: seq<GameView>, uuid: Id, a: Action, dice: seq<(Die, Die)>, i: nat)
    requires |dice| == |vs| && i < |vs|
    ensures Outgoing(vs[..i + 1], uuid, a, dice[..i + 1])
            == Outgoing(vs[..i], uuid, a, dice[..i])
               + Deliveries(Ids(vs[i].players), Route(vs[i], uuid, a, dice[i].0, dice[i].1).events)
  {
    assert vs[..i + 1][..i] == vs[..i] && dice[..i + 1][..i] == dice[..i];
  }

  /** Whether `order` lists every match id exactly once: the order in which
      the map of matches is walked. */
  ghost predicate Enumerates(order: seq<Id>, games: map<Id, Game>) {
    && (forall k :: k in games <==> k in order)
    && (forall i, j :: 0 <= i < j < |order| ==> order[i] != order[j])
  }

  /** One pass of the loop of handle_message_in_game: the i-th match listed
      is routed with the i-th pair of dice, and no other match changes. */
  method RouteAt(games: map<Id, Game>, uuid: Id, a: Action, order: seq<Id>, dice: seq<(Die, Die)>, i: nat)
    returns (sent: seq<Delivery>)
    requires i < |order| == |dice|
    requires forall j :: 0 <= j < |order| ==> order[j] in games
    requires forall x, y :: 0 <= x < y < |order| ==> games[order[x]] != games[order[y]]
    requires games[order[i]].Valid()
    modifies games[order[i]]
    ensures games[order[i]].View() == Route(old(games[order[i]].View()), uuid, a, dice[i].0, dice[i].1).view
    ensures sent == Deliveries(Ids(old(games[order[i]].View()).players),
                               Route(old(games[order[i]].View()), uuid, a, dice[i].0, dice[i].1).events)
    ensures forall j :: 0 <= j < |order| && j != i ==> unchanged(games[order[j]])
  {
    var game := games[order[i]];
    sent := HandleInGame(game, uuid, a, dice[i].0, dice[i].1);
    forall j | 0 <= j < |order| && j != i
      ensures games[order[j]] != game
    {
      // the distinctness requires is stated for x < y, so take both orders
      if j < i {
        assert games[order[j]] != games[order[i]];
      } else {
        assert games[order[i]] != games[order[j]];
      }
    }
  }

  /** The loop of handle_message_in_game over the matches listed in
      `order`, each a distinct object: the j-th match is routed with the
      j-th pair of dice and the others are left alone. */
  method RouteEach(games: map<Id, Game>, uuid: Id, a: Action, order: seq<Id>, dice: seq<(Die, Die)>) returns (sent: seq<Delivery>)
    requires forall j :: 0 <= j < |order| ==> order[j] in games && games[order[j]].Valid()
    requires forall x, y :: 0 <= x < y < |order| ==> games[order[x]] != games[order[y]]
    requires |dice| == |order|
    modifies games.Values
    ensures sent == Outgoing(old(ViewsOf(games, order)), uuid, a, dice)
    ensures forall j :: 0 <= j < |order| ==>
              games[order[j]].View() == Route(old(games[order[j]].View()), uuid, a, dice[j].0, dice[j].1).view
  {
    sent := [];
    ghost var before := ViewsOf(games, order);
    for i := 0 to |order|
      invariant forall j :: i <= j < |order| ==> games[order[j]].View() == before[j]
      invariant forall j :: 0 <= j < i ==> games[order[j]].View() == Route(before[j], uuid, a, dice[j].0, dice[j].1).view
      invariant sent == Outgoing(before[..i], uuid, a, dice[..i])
    {
      var out := RouteAt(games, uuid, a, order, dice, i);
      sent := sent + out;
      OutgoingSnoc(before, uuid, a, dice, i);
    }
    assert before[..|order|] == before && dice[..|order|] == dice;
  }

  /** handle_message_in_game for the action `a` sent by `uuid`. The map of
      matches is walked in the order `order`, and the j-th match walked
      draws the dice dice[j]. Every match is routed on its own, the
      registry itself is not touched, and every match keeps its invariant. */
  method HandleMessageInGame(state: ServerState, uuid: Id, a: Action, order: seq<Id>, dice: seq<(Die, Die)>)
    returns (sent: seq<Delivery>)
    requires state.Valid() && Enumerates(order, state.games) && |dice| == |order|
    modifies state.games.Values
    ensures unchanged(state)
    ensures forall j :: 0 <= j < |order| ==>
              state.games[order[j]].View() == Route(old(state.games[order[j]].View()), uuid, a, dice[j].0, dice[j].1).view
    ensures sent == Outgoing(old(ViewsOf(state.games, order)), uuid, a, dice)
    ensures state.Valid()
  {
    var games := state.games;
    sent := RouteEach(games, uuid, a, order, dice);
    forall k | k in games
      ensures games[k].Valid()
    {
      var j :| 0 <= j < |order| && order[j] == k;
    }
  }

  /** handle_message: outside a match every action is ignored. */
  method HandleMessage(state: ServerState, uuid: Id, a: Action) returns (sent: seq<Delivery>)
    ensures sent == []
  {
    sent := [];
  }
}
