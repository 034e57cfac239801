/** A match on the server: its players, its private board, whose turn it is,
    and the turn advancement that skips bankrupt players and ends the match
    when one solvent player is left. */
module GameState {
  import opened Model
  import opened Board
  import opened Broadcast

  /** Number of players that are not bankrupt. */
  function CountSolvent(ps: seq<Player>): (n: nat)
    ensures n <= |ps|
  {
    if ps == [] then 0 else (if ps[0].isBankrupt then 0 else 1) + CountSolvent(ps[1..])
  }

  /** Replacing one player changes the solvent count by the change in that
      player's bankrupt flag only. */
  lemma {:induction false} CountSolventUpdate(ps: seq<Player>, i: nat, p: Player)
    requires i < |ps|
    ensures CountSolvent(ps[i := p])
            == CountSolvent(ps) - (if ps[i].isBankrupt then 0 else 1) + (if p.isBankrupt then 0 else 1)
  {
    if i == 0 {
      assert ps[i := p][1..] == ps[1..];
    } else {
      assert ps[i := p][1..] == ps[1..][i - 1 := p];
      CountSolventUpdate(ps[1..], i - 1, p);
    }
  }

  /** The index of the first player that is not bankrupt (the winner the
      match-over message names). */
  function FirstSolvent(ps: seq<Player>): (w: nat)
    requires CountSolvent(ps) >= 1
    ensures w < |ps| && !ps[w].isBankrupt
    ensures forall k :: 0 <= k < w ==> ps[k].isBankrupt
  {
    if !ps[0].isBankrupt then 0 else 1 + FirstSolvent(ps[1..])
  }

  /** Sum of all players' money. */
  function TotalMoney(ps: seq<Player>): nat
  {
    if ps == [] then 0 else ps[0].money + TotalMoney(ps[1..])
  }

  /** Replacing one player changes the total by the change in that player's
      money only. */
  lemma {:induction false} TotalMoneyUpdate(ps: seq<Player>, i: nat, p: Player)
    requires i < |ps|
    ensures TotalMoney(ps[i := p]) == TotalMoney(ps) - ps[i].money + p.money
  {
    if i == 0 {
      assert ps[i := p][1..] == ps[1..];
    } else {
      assert ps[i := p][1..] == ps[1..][i - 1 := p];
      TotalMoneyUpdate(ps[1..], i - 1, p);
    }
  }

  /** The seat after seat j on a ring of n seats. */
  function Succ(j: nat, n: nat): (r: nat)
    requires j < n
    ensures r < n
  {
    if j + 1 == n then 0 else j + 1
  }

  /** `(j + 1) % n`, as the source writes the step to the next seat. */
  lemma ModSucc(j: nat, n: nat)
    requires j < n
    ensures (j + 1) % n == Succ(j, n)
  {
    if j + 1 < n {
      assert (j + 1) % n == j + 1;
    } else {
      assert j + 1 == n;
    }
  }

  /** The seat m places after seat i on a ring of n seats. */
  function Cyclic(i: nat, m: nat, n: nat): (j: nat)
    requires i < n
    ensures j < n
  {
    if m == 0 then i else Succ(Cyclic(i, m - 1, n), n)
  }

  /** Within one lap the walk has a closed form. */
  lemma {:induction false} CyclicClosed(i: nat, m: nat, n: nat)
    requires i < n && m <= n
    ensures Cyclic(i, m, n) == if i + m < n then i + m else i + m - n
  {
    if m > 0 {
      CyclicClosed(i, m - 1, n);
    }
  }

  /** From seat j, walk forward (at most `fuel` steps) to the first solvent
      player. */
  function Scan(ps: seq<Player>, j: nat, fuel: nat): (r: nat)
    requires j < |ps|
    ensures r < |ps|
    decreases fuel
  {
    if !ps[j].isBankrupt || fuel == 0 then j else Scan(ps, Succ(j, |ps|), fuel - 1)
  }

  /** The seat the turn passes to from seat i: the next solvent one. */
  function NextSolvent(ps: seq<Player>, i: nat): (r: nat)
    requires i < |ps|
    ensures r < |ps|
  {
    Scan(ps, Succ(i, |ps|), |ps| - 1)
  }

  lemma {:induction false} ScanFinds(ps: seq<Player>, i: nat, m: nat, d: nat) returns (e: nat)
    requires i < |ps| && 1 <= m <= d <= |ps|
    requires !ps[Cyclic(i, d, |ps|)].isBankrupt
    ensures m <= e <= d
    ensures Scan(ps, Cyclic(i, m, |ps|), |ps| - m) == Cyclic(i, e, |ps|)
    ensures !ps[Cyclic(i, e, |ps|)].isBankrupt
    ensures forall k :: m <= k < e ==> ps[Cyclic(i, k, |ps|)].isBankrupt
    decreases d - m
  {
    var n := |ps|;
    var j := Cyclic(i, m, n);
    if !ps[j].isBankrupt {
      e := m;
    } else {
      assert m != d;
      assert Succ(j, n) == Cyclic(i, m + 1, n);
      e := ScanFinds(ps, i, m + 1, d);
    }
  }

  /** Some player is solvent: name one. */
  lemma {:induction false} SolventWitness(ps: seq<Player>) returns (j: nat)
    requires CountSolvent(ps) >= 1
    ensures j < |ps| && !ps[j].isBankrupt
  {
    if ps[0].isBankrupt {
      var k := SolventWitness(ps[1..]);
      j := k + 1;
    } else {
      j := 0;
    }
  }

  /** Some solvent seat lies d places after seat i, with 1 <= d <= n. */
  lemma SolventAhead(ps: seq<Player>, i: nat) returns (d: nat)
    requires i < |ps| && CountSolvent(ps) >= 1
    ensures 1 <= d <= |ps| && !ps[Cyclic(i, d, |ps|)].isBankrupt
  {
    var n := |ps|;
    var j := SolventWitness(ps);
    d := if j > i then j - i else j + n - i;
    CyclicClosed(i, d, n);
  }

  /** The turn passes to the first solvent seat cyclically after seat i
      (seat i itself last): every seat skipped on the way is bankrupt. */
  lemma NextSolventIsFirst(ps: seq<Player>, i: nat) returns (d: nat)
    requires i < |ps| && CountSolvent(ps) >= 1
    ensures !ps[NextSolvent(ps, i)].isBankrupt
    ensures 1 <= d <= |ps| && NextSolvent(ps, i) == Cyclic(i, d, |ps|)
    ensures forall k :: 1 <= k < d ==> ps[Cyclic(i, k, |ps|)].isBankrupt
  {
    var ahead := SolventAhead(ps, i);
    d := ScanFinds(ps, i, 1, ahead);
  }

  lemma NextSolventSolvent(ps: seq<Player>, i: nat)
    requires i < |ps| && CountSolvent(ps) >= 1
    ensures !ps[NextSolvent(ps, i)].isBankrupt
  {
    var _ := NextSolventIsFirst(ps, i);
  }

  /** The state of a match apart from its id and its outbound channels. */
  datatype GameView = GameView(
    players: seq<Player>,
    board: seq<Tile>,
    currentTurn: nat,
    playerTurn: nat,
    isActive: bool)

  /** A turn-engine step: the new state and the messages broadcast, in order. */
  datatype Step = Step(view: GameView, events: seq<Message>)

  /** Facts every step keeps: the turn index and every position index in
      range, a well-formed board, a jailed player has a turn left to wait,
      every owner on the board plays in the match. */
  predicate Consistent(v: GameView) {
    && |v.players| > 0 && v.playerTurn < |v.players|
    && |v.board| > 0 && WellFormedBoard(v.board)
    && (forall i :: 0 <= i < |v.players| ==>
          v.players[i].position < |v.board| && (v.players[i].isInJail ==> v.players[i].jailTurns >= 1))
    && (forall i :: 0 <= i < |v.board| && OwnerOf(v.board[i]).Some? ==>
          OwnerOf(v.board[i]).value in Ids(v.players))
  }

  /** The state right before the turn advances: at least one solvent player,
      the turn holder is bankrupt if only one is solvent, and a match with two
      solvent players has not been declared over. */
  predicate Pending(v: GameView) {
    && Consistent(v)
    && CountSolvent(v.players) >= 1
    && (CountSolvent(v.players) == 1 ==> v.players[v.playerTurn].isBankrupt)
    && (CountSolvent(v.players) >= 2 ==> v.isActive)
  }

  /** The match invariant: a match is active exactly while two players are
      solvent, and the turn holder is bankrupt exactly when the match is over
      (the player whose bankruptcy ended it keeps the turn). */
  predicate ValidView(v: GameView) {
    && Consistent(v)
    && CountSolvent(v.players) >= 1
    && v.isActive == (CountSolvent(v.players) >= 2)
    && v.players[v.playerTurn].isBankrupt == !v.isActive
  }

  lemma ValidIsPending(v: GameView)
    requires ValidView(v)
    ensures Pending(v)
  {
  }

  /** Replacing one player's record by one with the same id, a position on
      the board, a jail countdown when jailed and the same bankrupt flag
      keeps the match invariant. */
  lemma ReplaceKeepsValid(v: GameView, j: nat, q: Player)
    requires ValidView(v) && j < |v.players|
    requires q.id == v.players[j].id && q.position < |v.board| && (q.isInJail ==> q.jailTurns >= 1)
    requires q.isBankrupt == v.players[j].isBankrupt
    ensures ValidView(v.(players := v.players[j := q]))
    ensures Ids(v.players[j := q]) == Ids(v.players)
  {
    CountSolventUpdate(v.players, j, q);
    IdsUpdate(v.players, j, q);
  }

  /** Declaring the turn holder bankrupt leaves a state from which the turn
      may advance. */
  lemma BankruptTurnHolder(v: GameView)
    requires ValidView(v)
    ensures Pending(v.(players := v.players[v.playerTurn := v.players[v.playerTurn].(isBankrupt := true)]))
    ensures Ids(v.players[v.playerTurn := v.players[v.playerTurn].(isBankrupt := true)]) == Ids(v.players)
  {
    var q := v.players[v.playerTurn].(isBankrupt := true);
    CountSolventUpdate(v.players, v.playerTurn, q);
    IdsUpdate(v.players, v.playerTurn, q);
  }

  /** advance_turn: with one solvent player left the match ends naming that
      player; otherwise the turn counter goes up by one and the turn passes to
      the next solvent player. Players and board never change. */
  function Advance(v: GameView): (s: Step)
    requires |v.players| > 0 && v.playerTurn < |v.players| && CountSolvent(v.players) >= 1
    ensures s.view.players == v.players && s.view.board == v.board
    ensures CountSolvent(v.players) == 1 ==>
              && s.view == v.(isActive := false)
              && s.events == [Message(GameOver, Some(PlayerRef(v.players[FirstSolvent(v.players)].id)))]
    ensures CountSolvent(v.players) >= 2 ==>
              && s.view.currentTurn == v.currentTurn + 1
              && s.view.isActive == v.isActive
              && s.view.playerTurn < |v.players|
              && !v.players[s.view.playerTurn].isBankrupt
              && s.events == [Message(PlayerTurn, Some(PlayerRef(v.players[s.view.playerTurn].id)))]
    ensures Pending(v) ==> ValidView(s.view)
  {
    if CountSolvent(v.players) == 1 then
      var winner := v.players[FirstSolvent(v.players)];
      Step(v.(isActive := false), [Message(GameOver, Some(PlayerRef(winner.id)))])
    else
      NextSolventSolvent(v.players, v.playerTurn);
      var next := NextSolvent(v.players, v.playerTurn);
      Step(v.(currentTurn := v.currentTurn + 1, playerTurn := next),
           [Message(PlayerTurn, Some(PlayerRef(v.players[next].id)))])
  }

  /** With two or more solvent players the turn moves to the first solvent
      seat after the old one, cyclically. */
  lemma AdvanceSkipsBankrupt(v: GameView)
    requires |v.players| > 0 && v.playerTurn < |v.players| && CountSolvent(v.players) >= 2
    ensures var t := Advance(v).view.playerTurn;
            exists d :: 1 <= d <= |v.players| && t == Cyclic(v.playerTurn, d, |v.players|)
                        && forall k :: 1 <= k < d ==> v.players[Cyclic(v.playerTurn, k, |v.players|)].isBankrupt
  {
    var d := NextSolventIsFirst(v.players, v.playerTurn);
    assert Advance(v).view.playerTurn == Cyclic(v.playerTurn, d, |v.players|);
  }

  /** A match on the server. Its fields are updated in place by the turn
      engine; the messages its methods put on the players' channels are
      returned as deliveries. */
  class Game {
    const id: Id
    var players: seq<Player>
    var board: seq<Tile>
    var currentTurn: nat
    var playerTurn: nat
    var isActive: bool

    /** Game::default: an active match with no players yet, turn counters at
        zero, and its own copy of the board. */
    constructor (id: Id, board: seq<Tile>)
      ensures this.id == id && this.board == board && players == []
      ensures currentTurn == 0 && playerTurn == 0 && isActive
    {
      this.id := id;
      this.board := board;
      players := [];
      currentTurn := 0;
      playerTurn := 0;
      isActive := true;
    }

    function View(): GameView
      reads this
    {
      GameView(players, board, currentTurn, playerTurn, isActive)
    }

    predicate Valid()
      reads this
    {
      ValidView(View())
    }

    /** advance_turn: the match ends when one solvent player is left;
        otherwise the turn counter goes up and the turn passes on. */
    method AdvanceTurn() returns (sent: seq<Delivery>)
      requires |players| > 0 && playerTurn < |players| && CountSolvent(players) >= 1
      modifies this
      ensures View() == Advance(old(View())).view
      ensures sent == Deliveries(Ids(players), Advance(old(View())).events)
    {
      var left := CountSolvent(players);
      if left == 1 {
        var winner := players[FirstSolvent(players)];
        sent := SendToAllPlayers(players, Message(GameOver, Some(PlayerRef(winner.id))));
        isActive := false;
        return;
      }
      currentTurn := currentTurn + 1;
      PassTurn();
      sent := SendToAllPlayers(players, Message(PlayerTurn, Some(PlayerRef(players[playerTurn].id))));
    }

    /** The loop of advance_turn: the turn moves one seat on, cyclically,
        then on past every bankrupt player. The loop ends because some
        player is solvent. */
    method PassTurn()
      requires playerTurn < |players| && CountSolvent(players) >= 1
      modifies this
      ensures players == old(players) && board == old(board)
      ensures playerTurn == NextSolvent(players, old(playerTurn))
      ensures currentTurn == old(currentTurn) && isActive == old(isActive)
    {
      var n := |players|;
      ghost var start := playerTurn;
      ghost var d := SolventAhead(players, start);
      ModSucc(playerTurn, n);
      playerTurn := (playerTurn + 1) % n;
      ghost var k: nat := 1;
      while players[playerTurn].isBankrupt
        invariant players == old(players) && board == old(board)
        invariant currentTurn == old(currentTurn) && isActive == old(isActive)
        invariant 1 <= k <= d && playerTurn < n
        invariant playerTurn == Cyclic(start, k, n)
        invariant Scan(players, playerTurn, n - k) == NextSolvent(players, start)
        decreases d - k
      {
        assert k != d;
        ModSucc(playerTurn, n);
        playerTurn := (playerTurn + 1) % n;
        k := k + 1;
      }
    }
  }
}
