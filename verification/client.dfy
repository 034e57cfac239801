/** The client's mirror of a match: the broadcast events the server sends
    are applied to a map from player id to money, position and jail flag. */
module ClientState {
  import opened Model
  import opened Board

  /** A player as the client sees it. */
  datatype ClientPlayer = ClientPlayer(money: nat, position: nat, isInJail: bool)

  /** The entry start_game creates for every listed id. */
  const Newcomer: ClientPlayer := ClientPlayer(StartingMoney, 0, false)

  /** The fields of GamesState as one value. */
  datatype ClientView = ClientView(
    id: Id,
    players: map<Id, ClientPlayer>,
    currentTurn: nat,
    playerTurn: Id,
    board: seq<Tile>)

  // ---------------------------------------------------------------------
  // Splitting the GameStart text on a separator

  /** `str::split` on one character: the pieces between separators, empty
      pieces included, so a text with n separators has n + 1 pieces. */
  function Split(s: string, sep: char): (parts: seq<string>)
    ensures |parts| >= 1
    ensures forall i :: 0 <= i < |parts| ==> sep !in parts[i]
  {
    if s == [] then [""]
    else
      var rest := Split(s[1..], sep);
      if s[0] == sep then [""] + rest
      else [[s[0]] + rest[0]] + rest[1..]
  }

  /** The pieces put back together with the separator between them. */
  function Join(parts: seq<string>, sep: char): string
    requires |parts| >= 1
  {
    if |parts| == 1 then parts[0] else parts[0] + [sep] + Join(parts[1..], sep)
  }

  /** How many times `c` occurs in `s`. */
  function Count(s: string, c: char): nat {
    if s == [] then 0 else (if s[0] == c then 1 else 0) + Count(s[1..], c)
  }

  /** Joining the pieces gives back the text that was split. */
  lemma {:induction false} JoinSplit(s: string, sep: char)
    ensures Join(Split(s, sep), sep) == s
  {
    if s != [] {
      var rest := Split(s[1..], sep);
      JoinSplit(s[1..], sep);
      if s[0] == sep {
        assert Split(s, sep)[1..] == rest;
      } else {
        var parts := Split(s, sep);
        if |rest| == 1 {
          assert parts == [[s[0]] + rest[0]];
        } else {
          assert parts[1..] == rest[1..];
          assert Join(rest, sep) == rest[0] + [sep] + Join(rest[1..], sep);
        }
      }
    }
  }

  /** Splitting a joined list of separator-free pieces gives the pieces
      back. */
  lemma {:induction false} SplitJoin(parts: seq<string>, sep: char)
    requires |parts| >= 1 && forall i :: 0 <= i < |parts| ==> sep !in parts[i]
    ensures Split(Join(parts, sep), sep) == parts
  {
    if |parts| == 1 {
      SplitPiece(parts[0], sep);
    } else {
      SplitJoin(parts[1..], sep);
      SplitPrefix(parts[0], Join(parts[1..], sep), sep);
      assert [parts[0]] + parts[1..] == parts;
    }
  }

  /** A separator-free text splits into itself. */
  lemma {:induction false} SplitPiece(s: string, sep: char)
    requires sep !in s
    ensures Split(s, sep) == [s]
  {
    if s != [] {
      SplitPiece(s[1..], sep);
      assert [s[0]] + s[1..] == s;
    }
  }

  /** A separator-free head followed by a separator opens the first piece. */
  lemma {:induction false} SplitPrefix(head: string, tail: string, sep: char)
    requires sep !in head
    ensures Split(head + [sep] + tail, sep) == [head] + Split(tail, sep)
  {
    var s := head + [sep] + tail;
    if head == [] {
      assert s[1..] == tail;
    } else {
      assert s[1..] == head[1..] + [sep] + tail;
      SplitPrefix(head[1..], tail, sep);
      assert [head[0]] + head[1..] == head;
    }
  }

  /** A text with n separators splits into n + 1 pieces. */
  lemma {:induction false} SplitCount(s: string, sep: char)
    ensures |Split(s, sep)| == Count(s, sep) + 1
  {
    if s != [] {
      SplitCount(s[1..], sep);
    }
  }

  // ---------------------------------------------------------------------
  // start_game

  /** The players map after inserting a fresh entry for each of `ids`, in
      order. */
  function InsertAll(m: map<Id, ClientPlayer>, ids: seq<Id>): (r: map<Id, ClientPlayer>)
    ensures r.Keys == m.Keys + set i | 0 <= i < |ids| :: ids[i]
    ensures forall i :: 0 <= i < |ids| ==> r[ids[i]] == Newcomer
    ensures forall k :: k in m && k !in ids ==> r[k] == m[k]
  {
    if ids == [] then m
    else InsertAll(m, ids[..|ids| - 1])[ids[|ids| - 1] := Newcomer]
  }

  /** The players map after start_game with the roster text `text`. */
  function Started(m: map<Id, ClientPlayer>, text: string): map<Id, ClientPlayer> {
    InsertAll(m, Split(text, ','))
  }

  /** start_game lists every comma-separated id exactly as written: the map
      then holds a fresh entry for each of them and every other entry is
      unchanged. */
  lemma StartedLists(m: map<Id, ClientPlayer>, ids: seq<Id>)
    requires |ids| >= 1 && forall i :: 0 <= i < |ids| ==> ',' !in ids[i]
    ensures Started(m, Join(ids, ',')) == InsertAll(m, ids)
    ensures forall i :: 0 <= i < |ids| ==> ids[i] in Started(m, Join(ids, ',')) && Started(m, Join(ids, ','))[ids[i]] == Newcomer
  {
    SplitJoin(ids, ',');
  }

  // ---------------------------------------------------------------------
  // Total money in the mirror

  /** The money of all players in the map. */
  ghost function Total(m: map<Id, ClientPlayer>): nat
    decreases m.Keys
  {
    if m == map[] then 0
    else
      var k :| k in m;
      m[k].money + Total(m - {k})
  }

  /** The sum can start from any entry. */
  lemma {:induction false} TotalRemove(m: map<Id, ClientPlayer>, k: Id)
    requires k in m
    ensures Total(m) == m[k].money + Total(m - {k})
    decreases m.Keys
  {
    var j :| j in m && Total(m) == m[j].money + Total(m - {j});
    if j != k {
      TotalRemove(m - {j}, k);
      TotalRemove(m - {k}, j);
      assert m - {j} - {k} == m - {k} - {j};
    }
  }

  /** Replacing one entry changes the total by the difference. */
  lemma TotalUpdate(m: map<Id, ClientPlayer>, k: Id, p: ClientPlayer)
    requires k in m
    ensures Total(m[k := p]) + m[k].money == Total(m) + p.money
  {
    TotalRemove(m, k);
    TotalRemove(m[k := p], k);
    assert m[k := p] - {k} == m - {k};
  }

  // ---------------------------------------------------------------------
  // handle_message_in_game

  /** What handle_message_in_game demands of a message: the payload each
      branch unwraps has the expected shape, every player it looks up is in
      the map, no u32 debit underflows, no board index is out of range, and
      the board holds a Jail where GoToJail looks for one. */
  predicate Handles(v: ClientView, msg: Message) {
    match msg.action
    case GameStart => msg.data.Some? && msg.data.value.Text?
    case PlayerTurn => msg.data.Some? && msg.data.value.PlayerRef?
    case Identify => msg.data.Some? && msg.data.value.PlayerRef?
    case Move =>
      && msg.data.Some? && msg.data.value.NewPosition?
      && msg.data.value.position < 256
      && v.playerTurn in v.players && msg.data.value.position < |v.board|
    case PayRent =>
      && msg.data.Some? && msg.data.value.RentData?
      && msg.data.value.payer in v.players && msg.data.value.landlord in v.players
      && v.players[msg.data.value.payer].money >= msg.data.value.rent
    case AskBuyProperty => msg.data.Some? && msg.data.value.BuyData?
    case BuyProperty =>
      && msg.data.Some? && msg.data.value.BuyData?
      && msg.data.value.buyer in v.players
      && v.players[msg.data.value.buyer].position < |v.board|
      && CanPay(v.board[v.players[msg.data.value.buyer].position], v.players[msg.data.value.buyer].money)
    case GoToJail => v.playerTurn in v.players && FirstJail(v.board).Some?
    case PlayerGoTile =>
      msg.data.Some? && msg.data.value.AmountData? && msg.data.value.recipient in v.players
    case Roll => msg.data.Some? && msg.data.value.DiceRoll?
    case _ => true
  }

  /** A Property tile's first cost can be read and paid from `money`; other
      tiles cost the client nothing. */
  predicate CanPay(t: Tile, money: nat) {
    t.Property? ==> |t.costs| > 0 && money >= t.costs[0]
  }

  /** The players map with `who`'s money lowered by `amount`. */
  function Debit(m: map<Id, ClientPlayer>, who: Id, amount: nat): (r: map<Id, ClientPlayer>)
    requires who in m && m[who].money >= amount
    ensures r.Keys == m.Keys && r[who].money + amount == m[who].money
    ensures r[who].position == m[who].position && r[who].isInJail == m[who].isInJail
    ensures forall k :: k in m && k != who ==> r[k] == m[k]
  {
    m[who := m[who].(money := m[who].money - amount)]
  }

  /** The players map with `who`'s money raised by `amount`. */
  function Credit(m: map<Id, ClientPlayer>, who: Id, amount: nat): (r: map<Id, ClientPlayer>)
    requires who in m
    ensures r.Keys == m.Keys && r[who].money == m[who].money + amount
    ensures r[who].position == m[who].position && r[who].isInJail == m[who].isInJail
    ensures forall k :: k in m && k != who ==> r[k] == m[k]
  {
    m[who := m[who].(money := m[who].money + amount)]
  }

  /** Move: the turn holder stands on `position`. */
  function Moved(v: ClientView, position: nat): ClientView
    requires v.playerTurn in v.players
  {
    v.(players := v.players[v.playerTurn := v.players[v.playerTurn].(position := position)])
  }

  /** PayRent: `payer` is debited, then `landlord` credited, by `rent`. */
  function RentPaid(v: ClientView, rent: nat, landlord: Id, payer: Id): ClientView
    requires payer in v.players && landlord in v.players && v.players[payer].money >= rent
  {
    v.(players := Credit(Debit(v.players, payer, rent), landlord, rent))
  }

  /** BuyProperty: a Property under the buyer is charged at its first cost
      and handed to the buyer; any other tile changes nothing. */
  function Bought(v: ClientView, buyer: Id): ClientView
    requires buyer in v.players && v.players[buyer].position < |v.board|
    requires CanPay(v.board[v.players[buyer].position], v.players[buyer].money)
  {
    var p := v.players[buyer];
    var t := v.board[p.position];
    if t.Property? then
      v.(players := Debit(v.players, buyer, t.costs[0]), board := v.board[p.position := t.(owner := Some(buyer))])
    else v
  }

  /** GoToJail: the turn holder is on the first Jail tile, jailed. */
  function Jailed(v: ClientView): ClientView
    requires v.playerTurn in v.players && FirstJail(v.board).Some?
  {
    v.(players := v.players[v.playerTurn := v.players[v.playerTurn].(position := FirstJail(v.board).value, isInJail := true)])
  }

  /** The mirror after one message. */
  function Apply(v: ClientView, msg: Message): (w: ClientView)
    requires Handles(v, msg)
    ensures w.currentTurn == v.currentTurn
    ensures msg.action != GameStart ==> w.players.Keys == v.players.Keys
    ensures msg.action != Identify ==> w.id == v.id
    ensures msg.action != PlayerTurn ==> w.playerTurn == v.playerTurn
    ensures |w.board| == |v.board|
  {
    match msg.action
    case GameStart => v.(players := Started(v.players, msg.data.value.text))
    case PlayerTurn => v.(playerTurn := msg.data.value.player)
    case Identify => v.(id := msg.data.value.player)
    case Move => Moved(v, msg.data.value.position)
    case PayRent => RentPaid(v, msg.data.value.rent, msg.data.value.landlord, msg.data.value.payer)
    case BuyProperty => Bought(v, msg.data.value.buyer)
    case GoToJail => Jailed(v)
    case PlayerGoTile => v.(players := Credit(v.players, msg.data.value.recipient, msg.data.value.amount))
    case _ => v
  }

  /** The client's game state. */
  class GamesState {
    var id: Id
    var players: map<Id, ClientPlayer>
    var currentTurn: nat
    var playerTurn: Id
    var board: seq<Tile>

    function View(): ClientView
      reads this
    {
      ClientView(id, players, currentTurn, playerTurn, board)
    }
  }

  /** start_game without the sprite spawning: a fresh entry for every
      comma-separated id of `text`, later ids last. */
  method StartGame(state: GamesState, text: string)
    modifies state
    ensures state.View() == old(state.View()).(players := Started(old(state.players), text))
  {
    var ids := Split(text, ',');
    for i := 0 to |ids|
      invariant state.players == InsertAll(old(state.players), ids[..i])
      invariant state.id == old(state.id) && state.currentTurn == old(state.currentTurn)
      invariant state.playerTurn == old(state.playerTurn) && state.board == old(state.board)
    {
      assert ids[..i + 1][..i] == ids[..i];
      state.players := state.players[ids[i] := Newcomer];
    }
    assert ids[..|ids|] == ids;
  }

  /** The Move branch. */
  method OnMove(state: GamesState, position: nat)
    requires state.playerTurn in state.players
    modifies state
    ensures state.View() == Moved(old(state.View()), position)
  {
    var p := state.players[state.playerTurn];
    state.players := state.players[state.playerTurn := p.(position := position)];
  }

  /** The PayRent branch: the payer's debit, then the owner's credit. */
  method OnPayRent(state: GamesState, rent: nat, landlord: Id, payer: Id)
    requires payer in state.players && landlord in state.players && state.players[payer].money >= rent
    modifies state
    ensures state.View() == RentPaid(old(state.View()), rent, landlord, payer)
  {
    var tenant := state.players[payer];
    state.players := state.players[payer := tenant.(money := tenant.money - rent)];
    var owner := state.players[landlord];
    state.players := state.players[landlord := owner.(money := owner.money + rent)];
  }

  /** The BuyProperty branch. */
  method OnBuyProperty(state: GamesState, buyer: Id)
    requires buyer in state.players && state.players[buyer].position < |state.board|
    requires CanPay(state.board[state.players[buyer].position], state.players[buyer].money)
    modifies state
    ensures state.View() == Bought(old(state.View()), buyer)
  {
    var p := state.players[buyer];
    var t := state.board[p.position];
    if t.Property? {
      state.players := state.players[buyer := p.(money := p.money - t.costs[0])];
      state.board := state.board[p.position := t.(owner := Some(buyer))];
    }
  }

  /** The GoToJail branch. */
  method OnGoToJail(state: GamesState)
    requires state.playerTurn in state.players && FirstJail(state.board).Some?
    modifies state
    ensures state.View() == Jailed(old(state.View()))
  {
    var p := state.players[state.playerTurn];
    var jail := FirstJail(state.board).value;
    state.players := state.players[state.playerTurn := p.(position := jail, isInJail := true)];
  }

  /** handle_message_in_game: one decoded message applied to the mirror. */
  method HandleMessageInGame(state: GamesState, msg: Message)
    requires Handles(state.View(), msg)
    modifies state
    ensures state.View() == Apply(old(state.View()), msg)
  {
    match msg.action
    case GameStart =>
      StartGame(state, msg.data.value.text);
    case PlayerTurn =>
      state.playerTurn := msg.data.value.player;
    case Identify =>
      state.id := msg.data.value.player;
    case Move =>
      OnMove(state, msg.data.value.position);
    case PayRent =>
      OnPayRent(state, msg.data.value.rent, msg.data.value.landlord, msg.data.value.payer);
    case BuyProperty =>
      OnBuyProperty(state, msg.data.value.buyer);
    case GoToJail =>
      OnGoToJail(state);
    case PlayerGoTile =>
      var d := msg.data.value;
      var p := state.players[d.recipient];
      state.players := state.players[d.recipient := p.(money := p.money + d.amount)];
    case _ =>
  }

  // ---------------------------------------------------------------------
  // Properties of the mirror

  /** PayRent moves exactly `rent` from the payer to the owner: nobody
      else changes, and the total money in the map is unchanged. */
  lemma PayRentConserves(v: ClientView, rent: nat, landlord: Id, payer: Id)
    requires Handles(v, Message(PayRent, Some(RentData(rent, landlord, payer))))
    ensures var w := Apply(v, Message(PayRent, Some(RentData(rent, landlord, payer))));
      && Total(w.players) == Total(v.players)
      && (payer != landlord ==>
            && w.players[payer].money + rent == v.players[payer].money
            && w.players[landlord].money == v.players[landlord].money + rent)
      && (payer == landlord ==> w.players[payer] == v.players[payer])
      && (forall k :: k in v.players && k != payer && k != landlord ==> w.players[k] == v.players[k])
      && w.board == v.board
  {
    var debited := Debit(v.players, payer, rent);
    TotalUpdate(v.players, payer, debited[payer]);
    TotalUpdate(debited, landlord, Credit(debited, landlord, rent)[landlord]);
  }

  /** PlayerGoTile adds exactly `amount` to the named player and nothing
      else. */
  lemma GoTileCredits(v: ClientView, who: Id, amount: nat)
    requires Handles(v, Message(PlayerGoTile, Some(AmountData(who, amount))))
    ensures var w := Apply(v, Message(PlayerGoTile, Some(AmountData(who, amount))));
      && w.players[who].money == v.players[who].money + amount
      && Total(w.players) == Total(v.players) + amount
      && (forall k :: k in v.players && k != who ==> w.players[k] == v.players[k])
      && w.board == v.board
  {
    TotalUpdate(v.players, who, Credit(v.players, who, amount)[who]);
  }

  /** GoToJail puts the turn holder on the first Jail tile, jailed, with
      the same money; nobody else moves. */
  lemma GoToJailJails(v: ClientView, data: Option<Payload>)
    requires Handles(v, Message(Action.GoToJail, data))
    ensures var w := Apply(v, Message(Action.GoToJail, data));
      && w.players[v.playerTurn].isInJail
      && v.board[w.players[v.playerTurn].position] == Jail
      && (forall k :: 0 <= k < w.players[v.playerTurn].position ==> v.board[k] != Jail)
      && w.players[v.playerTurn].money == v.players[v.playerTurn].money
      && (forall k :: k in v.players && k != v.playerTurn ==> w.players[k] == v.players[k])
  {
  }

  /** Move sets only the turn holder's position, to the received value. */
  lemma MoveSetsPosition(v: ClientView, position: nat)
    requires Handles(v, Message(Move, Some(NewPosition(position))))
    ensures var w := Apply(v, Message(Move, Some(NewPosition(position))));
      && w.players[v.playerTurn] == v.players[v.playerTurn].(position := position)
      && (forall k :: k in v.players && k != v.playerTurn ==> w.players[k] == v.players[k])
      && w.board == v.board
  {
  }

  /** BuyProperty on a Property under the buyer charges its first cost and
      makes the buyer its owner, whoever owned it before; on any other tile
      nothing changes. */
  lemma BuyPropertyEffect(v: ClientView, position: nat, buyer: Id)
    requires Handles(v, Message(BuyProperty, Some(BuyData(position, buyer))))
    ensures var w := Apply(v, Message(BuyProperty, Some(BuyData(position, buyer))));
      var at := v.players[buyer].position;
      if v.board[at].Property? then
        && w.players[buyer].money + v.board[at].costs[0] == v.players[buyer].money
        && w.board[at] == v.board[at].(owner := Some(buyer))
        && (forall k :: 0 <= k < |v.board| && k != at ==> w.board[k] == v.board[k])
        && (forall k :: k in v.players && k != buyer ==> w.players[k] == v.players[k])
      else w == v
  {
  }

  /** Identify and PlayerTurn set one field each and nothing else. */
  lemma IdentifyAndTurn(v: ClientView, who: Id)
    ensures Apply(v, Message(Identify, Some(PlayerRef(who)))) == v.(id := who)
    ensures Apply(v, Message(PlayerTurn, Some(PlayerRef(who)))) == v.(playerTurn := who)
  {
  }

  /** Roll, AskBuyProperty and every action without a branch leave the
      mirror as it was. */
  lemma IgnoredActions(v: ClientView, msg: Message)
    requires Handles(v, msg)
    requires msg.action in {Roll, AskBuyProperty, SkipBuyProperty, PayTax, FreeFromJail, PlayerBankrupt, GameOver, BuyAll, Invalid}
    ensures Apply(v, msg) == v
  {
  }
}
