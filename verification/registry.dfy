/** The server's registry of players and matches: the waiting room, the map
    of running matches, and start_new_game, which moves the first players of
    the waiting room into a new match. */
module Registry {
  import opened Model
  import opened Board
  import opened Broadcast
  import opened GameState

  /** The seat that starts a match of `n` players for the random byte `r`:
      the byte reduced modulo n - 1, so the last seat never starts. */
  function StartIndex(r: nat, n: nat): (i: nat)
    requires n >= 2
    ensures i < n - 1
  {
    r % (n - 1)
  }

  /** The GameStart roster: each player's id and name, in seat order. */
  function RosterOf(ps: seq<Player>): (rs: seq<Identity>)
    ensures |rs| == |ps|
    ensures forall i :: 0 <= i < |ps| ==> rs[i] == Identity(ps[i].id, ps[i].name)
  {
    seq(|ps|, i requires 0 <= i < |ps| => Identity(ps[i].id, ps[i].name))
  }

  /** The messages start_new_game broadcasts to the players of a new match
      whose first turn is at seat `turn`. */
  function StartEvents(ps: seq<Player>, turn: nat): seq<Message>
    requires turn < |ps|
  {
    [Message(GameStart, Some(Roster(RosterOf(ps)))), Message(PlayerTurn, Some(PlayerRef(ps[turn].id)))]
  }

  /** A board as the program ships it: nobody owns any tile yet. */
  predicate Unowned(board: seq<Tile>) {
    forall i :: 0 <= i < |board| ==> OwnerOf(board[i]) == None
  }

  /** Players who are all solvent count fully. */
  lemma {:induction false} AllSolvent(ps: seq<Player>)
    requires forall i :: 0 <= i < |ps| ==> !ps[i].isBankrupt
    ensures CountSolvent(ps) == |ps|
  {
    if ps != [] {
      AllSolvent(ps[1..]);
    }
  }

  /** A match made of at least two fresh players on an unowned well-formed
      board, active and with any seat to play, satisfies the match
      invariant. */
  lemma NewMatchValid(ps: seq<Player>, board: seq<Tile>, turn: nat)
    requires |ps| >= 2 && turn < |ps| && forall i :: 0 <= i < |ps| ==> Fresh(ps[i])
    requires |board| > 0 && WellFormedBoard(board) && Unowned(board)
    ensures ValidView(GameView(ps, board, 0, turn, true))
  {
    AllSolvent(ps);
  }

  /** The match Game::default builds for `gameId` on `board`, given the
      players `ps` and the seat StartIndex(r, |ps|) to start. */
  method NewMatch(gameId: Id, ps: seq<Player>, board: seq<Tile>, r: nat) returns (game: Game)
    requires |ps| >= 2
    ensures fresh(game) && game.id == gameId
    ensures game.View() == GameView(ps, board, 0, StartIndex(r, |ps|), true)
  {
    game := new Game(gameId, board);
    game.players := ps;
    game.playerTurn := r % (|ps| - 1);
  }

  /** The two broadcasts that open a match: the roster, then the first
      turn. */
  method AnnounceStart(players: seq<Player>, turn: nat) returns (sent: seq<Delivery>)
    requires turn < |players|
    ensures sent == Deliveries(Ids(players), StartEvents(players, turn))
  {
    var roster := Message(GameStart, Some(Roster(RosterOf(players))));
    var first := SendToAllPlayers(players, roster);
    var second := SendToAllPlayers(players, Message(PlayerTurn, Some(PlayerRef(players[turn].id))));
    sent := first + second;
    DeliveriesCons(Ids(players), Message(PlayerTurn, Some(PlayerRef(players[turn].id))), []);
    DeliveriesCons(Ids(players), roster, [Message(PlayerTurn, Some(PlayerRef(players[turn].id)))]);
  }

  /** The server state: the players waiting for a match, in arrival order,
      and the running matches by id. */
  class ServerState {
    var waiting: seq<Player>
    var games: map<Id, Game>

    /** ServerState::new: nobody waiting, no match. */
    constructor ()
      ensures waiting == [] && games == map[]
    {
      waiting := [];
      games := map[];
    }

    /** Every waiting player is as Player::default made them, every match
        satisfies its invariant, and no two ids share one match. */
    predicate Valid()
      reads this, games.Values
    {
      && (forall i :: 0 <= i < |waiting| ==> Fresh(waiting[i]))
      && (forall k :: k in games ==> games[k].Valid())
      && (forall a, b :: a in games && b in games && a != b ==> games[a] != games[b])
    }

    /** start_new_game for matches of `perGame` players, the new match's id
        `gameId`, its board, and the random byte `r` that picks the first
        seat. With too few players waiting nothing happens. Otherwise the
        first `perGame` waiting players, in order, form a new active match
        at turn 0 whose first seat is StartIndex(r, perGame); the rest keep
        waiting in order; the roster and the first turn are announced to
        the new match's players. */
    method StartNewGame(perGame: nat, gameId: Id, board: seq<Tile>, r: nat) returns (sent: seq<Delivery>)
      requires perGame >= 2 && r < 256
      modifies this
      ensures |old(waiting)| < perGame ==>
                waiting == old(waiting) && games == old(games) && sent == []
      ensures |old(waiting)| >= perGame ==>
                && waiting == old(waiting)[perGame..]
                && gameId in games && games == old(games)[gameId := games[gameId]]
                && fresh(games[gameId]) && games[gameId].id == gameId
                && games[gameId].View() == GameView(old(waiting)[..perGame], board, 0, StartIndex(r, perGame), true)
                && sent == Deliveries(Ids(old(waiting)[..perGame]), StartEvents(old(waiting)[..perGame], StartIndex(r, perGame)))
      ensures old(Valid()) && |board| > 0 && WellFormedBoard(board) && Unowned(board) ==> Valid()
    {
      if |waiting| < perGame {
        sent := [];
        return;
      }
      var players := waiting[..perGame];
      var game := NewMatch(gameId, players, board, r);
      if old(Valid()) && |board| > 0 && WellFormedBoard(board) && Unowned(board) {
        NewMatchValid(players, board, StartIndex(r, perGame));
      }
      Register(gameId, game, waiting[perGame..]);
      sent := AnnounceStart(players, StartIndex(r, perGame));
    }

    /** The registry after a match starts: `rest` keeps waiting and `game`
        is filed under `gameId`. A new match object that satisfies its
        invariant keeps the registry valid. */
    method Register(gameId: Id, game: Game, rest: seq<Player>)
      requires forall k :: k in games ==> games[k] != game
      modifies this
      ensures waiting == rest && games == old(games)[gameId := game]
      ensures old(Valid()) && game.Valid() && (forall i :: 0 <= i < |rest| ==> Fresh(rest[i])) ==> Valid()
    {
      waiting := rest;
      games := games[gameId := game];
    }
  }
}
