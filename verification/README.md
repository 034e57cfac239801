# Monopoly-style game server and client: turn engine model

This project models the core of a multiplayer, Monopoly-style board game in
Dafny. The core is:

- the server's turn engine (`roll_dice`, `pay_rent_or_buy`, `buy_property`,
  the rent rules for railroads and utilities);
- the server's match record, with the turn advancement that skips bankrupt
  players and ends a match when one solvent player is left;
- the registry of waiting players and running matches, and the matchmaking
  that starts a match;
- the routing of an incoming action to the matches whose turn holder sent it,
  and the broadcast of every server event to all players of a match;
- the client's mirror of a match, updated from the broadcast events;
- the client's translation of command words into protocol actions.

The model is organised as follows:

- `model.dfy`: tiles, actions, decoded payloads, messages and the server's
  player record.
- `board.dfy`: the board queries. These count the railroads or utilities an
  owner holds and derive rents from those counts; they also find the first
  Jail tile. The board invariant is that the engine never indexes out of
  range.
- `broadcast.dfy`: `send_message` and `send_to_all_players`. A broadcast
  becomes a sequence of deliveries, one per player in list order. The file
  also proves that every player listed once receives each broadcast message
  exactly once and in order.
- `game.dfy`: the match as a `class Game` whose fields are updated in place,
  and `advance_turn` with its loop. Every step of the engine is specified by
  a pure step function on a value `GameView` that returns the new view and
  the messages broadcast. Each method ensures that the new state is that
  function of the old state and that the deliveries it returns are the
  broadcast of those messages. The match invariant is `ValidView`: a match
  is active exactly while at least two players are solvent, and the turn holder is
  bankrupt exactly when the match is over.
- `actions.dfy`: `roll_dice`, `pay_rent_or_buy` and `buy_property`. Each tile
  arm and each branch is a method proved against its step function.
- `registry.dfy`: `ServerState` and `start_new_game`.
- `routing.dfy`: `handle_message_in_game` and `handle_message`. The loop over
  the map of matches walks a given order of the match ids.
- `properties.dfy`: the rules the engine promises, stated as lemmas over the
  step functions. Among them:
  - rent moves money from the tenant to the owner and creates none;
  - unaffordable rent or tax bankrupts the turn holder;
  - the jail countdown and the doubles escape;
  - the purchase;
  - the debug BuyAll;
  - turn advancement on small matches.
- `client.dfy`: the client's `GamesState` as a class. `handle_message_in_game`
  and `start_game` are proved against `Apply`, a function on the mirror's
  value. The file includes a round trip of the comma split and conservation
  of money under PayRent.
- `tools.dfy`: `ToAction`. Exactly five command words give an action, and
  each is recovered from its action.

Dice, the random byte that picks the first player, new ids and the board are
parameters. Messages are already-decoded values, and outbound channels are
the returned deliveries.

Behaviours of the code that a reader may not expect, modelled as the code
has them:

- Bankruptcy only sets the bankrupt flag. The player's money is not zeroed.
- The first seat is the random byte modulo (number of players - 1), so the
  last seat never starts (`Registry.StartIndex`).
- Turn advancement that finds one solvent player sets the match inactive and
  leaves the turn with the bankrupt player who ended it. Actions are still
  routed to inactive matches. The bankrupt turn holder of a finished match
  can still roll.
- The server's `handle_message_in_game` dispatches only Roll and BuyAll. A
  purchase, `buy_property`, is modelled and proved on its own, but no routed
  action reaches it.
- `buy_property` charges the player found by id, but for the tile under the
  turn holder.
- An affordable tile the turn holder already owns is offered for sale again,
  because `pay_rent_or_buy` only charges rent to a player other than the
  owner.
- The server announces GameStart with a roster of ids and names. The client
  splits the GameStart text on commas into ids. Both are modelled as they
  are, and the two do not meet.

## Model

| member | source | states |
|---|---|---|
| Model.DefaultPlayer | server/src/game_state.rs:24-35 | a new player holds 1500, stands on tile 0, is neither jailed nor bankrupt, has no jail turns, and keeps the given id and name |
| Model.IndexOf | server/src/action.rs:200-204 | the `find` by id: an index whose player has the id, with no earlier player having it |
| Board.RailroadsOwnedByCount | server/src/action.rs:170-174 | the railroad count the rent is read at is the number of railroad tiles whose owner is the given player, as `filter(..).count()` gives |
| Board.UtilitiesOwnedByCount | server/src/action.rs:158 | the utility count is the number of utility tiles whose owner is the given player, as `filter(..).count()` gives |
| Board.RailroadRentCounted | server/src/action.rs:168-177 | an owned railroad's rent is its rent table at the number of railroad tiles its owner holds, counted independently |
| Board.UtilityRentCounted | server/src/action.rs:156-166 | an owned utility's rent is 4 × dice sum when its owner holds one utility tile, 10 × when two, 0 otherwise, counted independently |
| Board.OwnedRailroadsBounded | server/src/action.rs:170-174 | an owner never holds more railroads than the board has, so a rent table covering that many is never indexed out of range |
| Board.HeldRailroadRent | server/src/action.rs:168-177 | the rent of a held railroad is read at an index between 1 and the number of railroads on the board |
| Board.SecondUtilityRent | server/src/action.rs:156-166 | buying a second utility raises its owner's utility rent from 4 to 10 times the dice sum |
| Board.AcquireRailroad | server/src/action.rs:272-283 | buying an unowned railroad raises the buyer's railroad count by exactly one and leaves every other owner's count unchanged |
| Board.AcquireUtility | server/src/action.rs:277-283 | buying an unowned utility raises the buyer's utility count by exactly one and leaves every other owner's count unchanged |
| Board.FirstJail | server/src/action.rs:105-109 | `position` of the first Jail tile: a Jail tile with no Jail before it, or None when the board has none |
| Board.RailroadRentDefined | server/src/action.rs:170-174 | on a well-formed board the railroad rent index is always in range |
| Board.OwnerChangeKeepsWellFormed | server/src/action.rs:251 | a purchase keeps the board well formed and moves no Jail tile |
| Broadcast.SendToAllPlayers | server/src/communication.rs:9-17 | one delivery of the same message per player, in list order |
| Broadcast.FanoutInbox | server/src/communication.rs:9-17 | a player listed once receives exactly one copy of a broadcast; an unlisted one receives none |
| Broadcast.DeliveriesInbox | server/src/communication.rs:9-17 | a player listed once receives every broadcast message exactly once, in the order broadcast |
| Broadcast.DeliveriesAppend | server/src/communication.rs:9-17 | broadcasts made one after the other deliver the concatenation of their deliveries |
| GameState.CountSolvent | server/src/game_state.rs:56 | the number of players left is at most the number of players |
| GameState.FirstSolvent | server/src/game_state.rs:58 | the winner is the first player that is not bankrupt |
| GameState.ModSucc | server/src/game_state.rs:64 | `(turn + 1) % len` is the next seat on the ring |
| GameState.NextSolventIsFirst | server/src/game_state.rs:64-67 | the turn passes to a solvent seat d places on (1 <= d <= n), and every seat skipped on the way is bankrupt |
| GameState.Advance | server/src/game_state.rs:54-74 | one solvent player left: the match goes inactive and GameOver names that player; otherwise the counter goes up by one, the turn passes to a solvent player and PlayerTurn names them; players and board never change; the match invariant is restored |
| GameState.AdvanceSkipsBankrupt | server/src/game_state.rs:63-67 | with two solvent players the turn moves to the first solvent seat after the old one, cyclically |
| GameState.Game.constructor | server/src/game_state.rs:76-85 | Game::default: no players, the given board, counters at zero, active |
| GameState.Game.AdvanceTurn | server/src/game_state.rs:54-74 | the match is updated as Advance says, and its messages are broadcast to the players |
| GameState.Game.PassTurn | server/src/game_state.rs:64-67 | the loop ends, on the next solvent seat, with nothing else changed |
| Actions.BankruptOutcome | server/src/action.rs:187-197 | declaring the turn holder bankrupt keeps the match invariant, the ids and the board |
| Actions.PayRentTo | server/src/action.rs:199-205 | the tenant pays and the first player with the owner's id is paid: only those two balances change, by the rent; the total money, solvent count and ids are unchanged |
| Actions.RentOutcome | server/src/action.rs:199-220 | the rent transfer keeps the match invariant, the ids and the board |
| Actions.RentOrOffer | server/src/action.rs:186-236 | every outcome of pay_rent_or_buy keeps the match invariant, the ids and the board |
| Actions.TaxOutcome | server/src/action.rs:125-151 | both tax outcomes keep the match invariant, the ids and the board |
| Actions.WellFormedRentDefined | server/src/action.rs:77 | on a well-formed board every ownable tile's rent can be computed |
| Actions.GoOutcome | server/src/action.rs:88-102 | the Go credit keeps the match invariant, the ids and the board |
| Actions.JailOutcome | server/src/action.rs:104-118 | the trip to jail keeps the match invariant, the ids and the board |
| Actions.UnownableOutcome | server/src/action.rs:87-152 | every arm for a tile that cannot be owned keeps the match invariant, the ids and the board |
| Actions.LandOutcome | server/src/action.rs:69-153 | every tile effect keeps the match invariant, the ids and the board |
| Actions.StepAround | server/src/action.rs:41-42 | the new position is on the board |
| Actions.DiceSum | server/src/action.rs:14-16 | two dice sum to between 2 and 12 |
| Actions.MoveBy | server/src/action.rs:41-68 | a move keeps the match invariant, the ids and the board |
| Actions.MoveOutcome | server/src/action.rs:41-68 | a roll outside jail keeps the match invariant, the ids and the board |
| Actions.EscapeOutcome | server/src/action.rs:19-28 | the doubles escape keeps the match invariant, the ids and the board |
| Actions.WaitOutcome | server/src/action.rs:29-38 | the jail countdown keeps the match invariant, the ids and the board |
| Actions.RollOutcome | server/src/action.rs:11-154 | roll_dice keeps the match invariant, the ids of the players and the board |
| Actions.Sale | server/src/action.rs:243-283 | a purchase keeps the match invariant, the ids and the turn |
| Actions.PurchaseOutcome | server/src/action.rs:239-307 | buy_property keeps the match invariant and the ids |
| Actions.DeclareBankrupt | server/src/action.rs:187-197 | the match changes as BankruptOutcome says and its messages are broadcast |
| Actions.TransferRent | server/src/action.rs:199-220 | the match changes as RentOutcome says and its messages are broadcast |
| Actions.PayRentOrBuy | server/src/action.rs:179-237 | the match changes as RentOrOffer says and its messages are broadcast |
| Actions.PayTaxOrBankrupt | server/src/action.rs:125-151 | the match changes as TaxOutcome says and its messages are broadcast |
| Actions.CreditGo | server/src/action.rs:88-102 | the match changes as GoOutcome says and its messages are broadcast |
| Actions.SendToJail | server/src/action.rs:104-118 | the match changes as JailOutcome says and its messages are broadcast |
| Actions.LandOnUnownable | server/src/action.rs:87-152 | the match changes as UnownableOutcome says and its messages are broadcast |
| Actions.LandOn | server/src/action.rs:69-153 | the match changes as LandOutcome says and its messages are broadcast |
| Actions.MoveTurnHolder | server/src/action.rs:41-68 | the match changes as MoveBy says and its messages are broadcast |
| Actions.MoveAndLand | server/src/action.rs:41-68 | the match changes as MoveOutcome says and its messages are broadcast |
| Actions.EscapeJail | server/src/action.rs:19-28 | the match changes as EscapeOutcome says and its messages are broadcast |
| Actions.WaitInJail | server/src/action.rs:29-38 | the match changes as WaitOutcome says and its messages are broadcast |
| Actions.RollDice | server/src/action.rs:11-154 | the match changes as RollOutcome says and its messages are broadcast |
| Actions.BuyProperty | server/src/action.rs:239-307 | the match changes as PurchaseOutcome says and its messages are broadcast |
| Registry.StartIndex | server/src/game_state.rs:109 | the first seat is below n - 1: the last player never starts |
| Registry.NewMatchValid | server/src/game_state.rs:101-109 | a new match of fresh players on an unowned, well-formed board satisfies the match invariant |
| Registry.NewMatch | server/src/game_state.rs:101-109 | the new match has the given players and board, counters at zero, is active, and starts at StartIndex |
| Registry.AnnounceStart | server/src/game_state.rs:117-128 | the roster, then the first turn, are broadcast to the new match's players |
| Registry.ServerState.constructor | server/src/server_state.rs:12-17 | nobody waiting and no match |
| Registry.ServerState.StartNewGame | server/src/game_state.rs:88-129 | too few waiting: nothing changes; otherwise the first perGame players form a new active match under the new id, at turn 0 and seat StartIndex, the rest keep waiting in order, the roster and first turn are announced, and the registry invariant is kept |
| Registry.ServerState.Register | server/src/game_state.rs:96-105 | the drained waiting room and the map with the new match; a valid match keeps the registry valid |
| Routing.ClaimAllRailroads | server/src/communication.rs:40-44 | BuyAll leaves the railroad count unchanged |
| Routing.ClaimAllJailFrom | server/src/communication.rs:40-44 | BuyAll does not move the Jail |
| Routing.ClaimAllKeepsValid | server/src/communication.rs:37-45 | BuyAll by a player of the match keeps the match invariant |
| Routing.Route | server/src/communication.rs:32-47 | a match changes only if the sender holds its turn and sends Roll or BuyAll; the match invariant and the ids are kept; BuyAll sends nothing and changes only the board |
| Routing.RollIsRollDice | server/src/communication.rs:34-36 | Roll from the turn holder is exactly roll_dice |
| Routing.ClaimAllProperties | server/src/communication.rs:40-44 | the loop gives the board ClaimAll and changes nothing else |
| Routing.HandleInGame | server/src/communication.rs:32-48 | one match is updated as Route says and its messages are broadcast |
| Routing.OutgoingSnoc | server/src/communication.rs:31-49 | routing one more match appends its deliveries |
| Routing.RouteAt | server/src/communication.rs:31-49 | one pass of the loop routes the i-th match and changes no other |
| Routing.RouteEach | server/src/communication.rs:31-49 | each listed match is routed once with its own dice, and the deliveries come match after match |
| Routing.HandleMessageInGame | server/src/communication.rs:28-50 | every match is routed, the registry itself is unchanged, and every match keeps its invariant |
| Routing.HandleMessage | server/src/communication.rs:52-57 | outside a match no action has an effect |
| Properties.DiceStep | server/src/action.rs:41-42 | a roll of (d1, d2) from pos ends on tile (pos + d1 + d2) mod n, a tile of the board |
| Properties.FreeRoll | server/src/action.rs:41-68 | outside jail the dice are announced and the turn holder moves by their sum |
| Properties.MoveLands | server/src/action.rs:41-69 | a move puts the turn holder on the tile so many steps on, announces it, then the tile takes effect |
| Properties.JailDoublesEscape | server/src/action.rs:17-28 | doubles free a jailed player with no turns left to wait, announce it, then play the roll as for a free player |
| Properties.JailWait | server/src/action.rs:29-38 | without doubles the countdown drops by one, the player leaves jail only at zero, nobody moves, no money changes, and the turn advances |
| Properties.RentMovesMoney | server/src/action.rs:199-220 | affordable rent: the tenant loses and the owner gains exactly the rent, nobody else changes, total money is kept, PayRent is announced, then the turn advances |
| Properties.RentBankrupts | server/src/action.rs:187-197 | unaffordable rent: only the tenant's bankrupt flag changes, no money moves, PlayerBankrupt is announced, then the turn advances |
| Properties.OfferOrPass | server/src/action.rs:221-236 | an unowned or self-owned tile is offered when affordable, with nothing else changed and the turn kept; otherwise the turn advances |
| Properties.TaxPaid | server/src/action.rs:138-151 | affordable tax is debited from the turn holder only, PayTax is announced, then the turn advances |
| Properties.TaxBankrupts | server/src/action.rs:126-136 | unaffordable tax bankrupts the turn holder and moves no money, PlayerBankrupt is announced, then the turn advances |
| Properties.GoCredits | server/src/action.rs:88-102 | the Go tile credits exactly its amount to the turn holder, announces it, then the turn advances |
| Properties.GoToJailJails | server/src/action.rs:104-118 | GoToJail puts the turn holder on the first Jail, jailed for 3 turns, with the same money; this is announced, then the turn advances |
| Properties.PurchaseEffect | server/src/action.rs:239-307 | a purchase that goes through charges exactly the price, makes the buyer the owner of the tile with its other fields kept, changes no other tile or player, is announced, then the turn advances; otherwise only the turn advances |
| Properties.BankruptcyKeepsMoney | server/src/action.rs:189 | bankruptcy moves no money and flags the turn holder |
| Properties.BuyAllClaims | server/src/communication.rs:37-45 | BuyAll hands every property to the sender, whoever owned it, and changes nothing else |
| Properties.AdvanceTwoPlayers | server/src/game_state.rs:63-67 | two solvent players alternate and the counter goes up each time |
| Properties.AdvanceSkipsMiddle | server/src/game_state.rs:63-67 | a bankrupt player between two solvent ones is skipped |
| Properties.AdvanceEndsMatch | server/src/game_state.rs:56-61 | one solvent player left: the match ends naming them, and the turn and counter stay |
| ClientState.Split | client/src/game_state.rs:133 | split yields at least one piece, and no piece contains the separator |
| ClientState.JoinSplit | client/src/game_state.rs:133 | joining the pieces gives back the text |
| ClientState.SplitJoin | client/src/game_state.rs:133 | splitting joined separator-free pieces gives the pieces back |
| ClientState.SplitCount | client/src/game_state.rs:133 | a text with n commas yields n + 1 ids |
| ClientState.InsertAll | client/src/game_state.rs:138-148 | every listed id gets a fresh entry, and every other entry is unchanged |
| ClientState.StartedLists | client/src/game_state.rs:132-148 | start_game registers each comma-separated id with 1500, tile 0 and no jail |
| ClientState.TotalUpdate | client/src/game_state.rs:59-60 | changing one entry changes the total money by the difference |
| ClientState.Debit | client/src/game_state.rs:59 | only the payer's money drops, by the amount |
| ClientState.Credit | client/src/game_state.rs:60 | only the payee's money rises, by the amount |
| ClientState.Apply | client/src/game_state.rs:33-123 | only GameStart changes who is in the map, only Identify the own id, only PlayerTurn the turn; the turn counter and board size never change |
| ClientState.StartGame | client/src/game_state.rs:126-150 | the map gains a fresh entry for each comma-separated id, and nothing else changes |
| ClientState.OnMove | client/src/game_state.rs:45-54 | the Move branch as Apply says |
| ClientState.OnPayRent | client/src/game_state.rs:55-65 | the PayRent branch as Apply says |
| ClientState.OnBuyProperty | client/src/game_state.rs:74-93 | the BuyProperty branch as Apply says |
| ClientState.OnGoToJail | client/src/game_state.rs:94-103 | the GoToJail branch as Apply says |
| ClientState.HandleMessageInGame | client/src/game_state.rs:25-124 | the mirror after a message is Apply of the old mirror |
| ClientState.PayRentConserves | client/src/game_state.rs:55-65 | PayRent moves exactly the rent from payer to owner, changes nobody else, and keeps the total money |
| ClientState.GoTileCredits | client/src/game_state.rs:104-116 | PlayerGoTile credits exactly the amount to the named player and nobody else |
| ClientState.GoToJailJails | client/src/game_state.rs:94-103 | GoToJail jails the turn holder on the first Jail with the same money; nobody else changes |
| ClientState.MoveSetsPosition | client/src/game_state.rs:45-54 | Move sets only the turn holder's position |
| ClientState.BuyPropertyEffect | client/src/game_state.rs:74-93 | on a Property under the buyer: charges its first cost and makes the buyer owner, whoever owned it; otherwise nothing changes |
| ClientState.IdentifyAndTurn | client/src/game_state.rs:37-44 | Identify and PlayerTurn set one field each |
| ClientState.IgnoredActions | client/src/game_state.rs:66-73 | Roll, AskBuyProperty and unhandled actions leave the mirror unchanged |
| Tools.ToAction | client/src/tools.rs:10-19 | every text maps to one of the five command actions or Invalid |
| Tools.CommandWord | client/src/tools.rs:11-18 | the five actions with a command word are exactly those that have one |
| Tools.ToActionWords | client/src/tools.rs:11-18 | exactly the five words give an action other than Invalid, and their action's command word is the word |
| Tools.CommandWordRoundTrip | client/src/tools.rs:11-18 | each action with a command word is reached from that word |
| Tools.ToActionExact | client/src/tools.rs:11-18 | matching is exact: empty text, other case or padding give Invalid |

## Left out

- Networking, the connection actors, JSON encoding and decoding, UUID parsing and logging are not modelled. Messages are decoded values, and channels are the returned deliveries.
- The random dice and the random start byte are parameters. The byte is bounded by 256, as a `u8` is.
- A new match id is a parameter. The shipped board (`MAP1`) and `NUMBER_PLAYERS_PER_GAME` are not part of this model; they are parameters, with the board well formed and unowned and at least two players per match.
- Money and positions are unbounded naturals. The `u32` and `u8` wrap-around of the source is not modelled.
- Registry.ServerState: the two `Mutex` locks and any concurrency between connections are not modelled. Every operation runs alone.
- Routing.RouteEach: the `HashMap` iteration order is the `order` parameter. Each match walked draws its own pair of dice from the `dice` parameter.
- Routing.Route: it is total. A match view that breaks the match invariant is left alone, a case that cannot happen for a registered match. What the source does with such a view is not modelled: depending on the view it may panic or may run on.
- ClientState.HandleMessageInGame: it requires what the source unwraps or indexes: the payload shape, players present in the map, no `u32` underflow on a debit, a Move position that fits a `u8` and lies on the board, and a Jail on the board for GoToJail. The source panics, or wraps in a release build, when these do not hold.
- ClientState.StartGame: the sprite spawning (`spawn_players`) and the Bevy commands and asset server are left out.
- The client's `despawn_screen` is Bevy UI code and is not modelled.
- The client's ids are plain strings. The server's JSON roster for GameStart is not decoded into the client's comma-separated list; the mismatch is kept as in the source.
- ClientState.GamesState keeps `current_turn`, which no branch updates.
