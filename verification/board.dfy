/** Queries over a game board: how many railroads or utilities an owner
    holds, the rents that depend on those counts, where the jail is, and what
    a board must satisfy for the turn engine never to index out of range. */
module Board {
  import opened Model

  /** Number of Railroad tiles on the board, owned or not. */
  function RailroadCount(board: seq<Tile>): (n: nat)
    ensures n <= |board|
  {
    if board == [] then 0
    else (if board[0].Railroad? then 1 else 0) + RailroadCount(board[1..])
  }

  /** Number of Railroad tiles owned by `o`. */
  function RailroadsOwnedBy(board: seq<Tile>, o: Id): (n: nat)
  {
    if board == [] then 0
    else (if board[0].Railroad? && board[0].railOwner == Some(o) then 1 else 0)
         + RailroadsOwnedBy(board[1..], o)
  }

  /** Number of Utility tiles owned by `o`. */
  function UtilitiesOwnedBy(board: seq<Tile>, o: Id): (n: nat)
  {
    if board == [] then 0
    else (if board[0].Utility? && board[0].utilityOwner == Some(o) then 1 else 0)
         + UtilitiesOwnedBy(board[1..], o)
  }

  /** The indices of the railroads `o` holds: what `filter` keeps. */
  ghost function HeldRailroads(board: seq<Tile>, o: Id): set<nat> {
    set i: nat | i < |board| && board[i].Railroad? && board[i].railOwner == Some(o)
  }

  /** The indices of the utilities `o` holds: what `filter` keeps. */
  ghost function HeldUtilities(board: seq<Tile>, o: Id): set<nat> {
    set i: nat | i < |board| && board[i].Utility? && board[i].utilityOwner == Some(o)
  }

  lemma {:induction false} RailroadsOwnedByAppend(a: seq<Tile>, b: seq<Tile>, o: Id)
    ensures RailroadsOwnedBy(a + b, o) == RailroadsOwnedBy(a, o) + RailroadsOwnedBy(b, o)
  {
    if a == [] {
      assert a + b == b;
    } else {
      assert (a + b)[1..] == a[1..] + b;
      RailroadsOwnedByAppend(a[1..], b, o);
    }
  }

  lemma {:induction false} UtilitiesOwnedByAppend(a: seq<Tile>, b: seq<Tile>, o: Id)
    ensures UtilitiesOwnedBy(a + b, o) == UtilitiesOwnedBy(a, o) + UtilitiesOwnedBy(b, o)
  {
    if a == [] {
      assert a + b == b;
    } else {
      assert (a + b)[1..] == a[1..] + b;
      UtilitiesOwnedByAppend(a[1..], b, o);
    }
  }

  /** RailroadsOwnedBy is the `filter(..).count()` of the source: the number
      of railroad tiles whose owner is `o`. */
  lemma {:induction false} RailroadsOwnedByCount(board: seq<Tile>, o: Id)
    ensures RailroadsOwnedBy(board, o) == |HeldRailroads(board, o)|
    decreases |board|
  {
    if board == [] {
      assert HeldRailroads(board, o) == {};
    } else {
      var n := |board|;
      var init := board[..n - 1];
      RailroadsOwnedByCount(init, o);
      assert board == init + [board[n - 1]];
      RailroadsOwnedByAppend(init, [board[n - 1]], o);
      if board[n - 1].Railroad? && board[n - 1].railOwner == Some(o) {
        assert HeldRailroads(board, o) == HeldRailroads(init, o) + {n - 1};
      } else {
        assert HeldRailroads(board, o) == HeldRailroads(init, o);
      }
    }
  }

  /** UtilitiesOwnedBy is the `filter(..).count()` of the source: the number
      of utility tiles whose owner is `o`. */
  lemma {:induction false} UtilitiesOwnedByCount(board: seq<Tile>, o: Id)
    ensures UtilitiesOwnedBy(board, o) == |HeldUtilities(board, o)|
    decreases |board|
  {
    if board == [] {
      assert HeldUtilities(board, o) == {};
    } else {
      var n := |board|;
      var init := board[..n - 1];
      UtilitiesOwnedByCount(init, o);
      assert board == init + [board[n - 1]];
      UtilitiesOwnedByAppend(init, [board[n - 1]], o);
      if board[n - 1].Utility? && board[n - 1].utilityOwner == Some(o) {
        assert HeldUtilities(board, o) == HeldUtilities(init, o) + {n - 1};
      } else {
        assert HeldUtilities(board, o) == HeldUtilities(init, o);
      }
    }
  }

  /** An owner never holds more railroads than the board has. */
  lemma {:induction false} OwnedRailroadsBounded(board: seq<Tile>, o: Id)
    ensures RailroadsOwnedBy(board, o) <= RailroadCount(board)
  {
    if board != [] {
      OwnedRailroadsBounded(board[1..], o);
    }
  }

  /** The holder of a railroad at index i counts that railroad. */
  lemma {:induction false} HeldRailroadCounted(board: seq<Tile>, i: nat, o: Id)
    requires i < |board| && board[i].Railroad? && board[i].railOwner == Some(o)
    ensures RailroadsOwnedBy(board, o) >= 1
  {
    if i > 0 {
      HeldRailroadCounted(board[1..], i - 1, o);
    }
  }

  /** The holder of a utility at index i counts that utility. */
  lemma {:induction false} HeldUtilityCounted(board: seq<Tile>, i: nat, o: Id)
    requires i < |board| && board[i].Utility? && board[i].utilityOwner == Some(o)
    ensures UtilitiesOwnedBy(board, o) >= 1
  {
    if i > 0 {
      HeldUtilityCounted(board[1..], i - 1, o);
    }
  }

  /** get_rent_railroad: an owned railroad's rent is read from its rent table
      at the number of railroads its owner holds; an unowned one costs 0. */
  function RailroadRent(rents: seq<nat>, owner: Option<Id>, board: seq<Tile>): (r: nat)
    requires owner.Some? ==> RailroadsOwnedBy(board, owner.value) < |rents|
    ensures owner.None? ==> r == 0
    ensures owner.Some? ==> r == rents[RailroadsOwnedBy(board, owner.value)]
  {
    if owner.Some? then rents[RailroadsOwnedBy(board, owner.value)] else 0
  }

  /** calculate_utility_cost: four times the dice sum when the owner holds
      one utility, ten times when it holds two, otherwise 0; 0 when unowned. */
  function UtilityRent(roll: nat, owner: Option<Id>, board: seq<Tile>): (r: nat)
    ensures owner.None? ==> r == 0
    ensures owner.Some? && UtilitiesOwnedBy(board, owner.value) == 1 ==> r == 4 * roll
    ensures owner.Some? && UtilitiesOwnedBy(board, owner.value) == 2 ==> r == 10 * roll
    ensures owner.Some? && UtilitiesOwnedBy(board, owner.value) !in {1, 2} ==> r == 0
  {
    if owner.Some? then
      var held := UtilitiesOwnedBy(board, owner.value);
      if held == 1 then 4 * roll else if held == 2 then 10 * roll else 0
    else 0
  }

  /** The railroad rent read against the railroads the owner holds,
      counted independently of RailroadRent: the rent table at the number
      of railroad tiles owned by `o`. */
  lemma RailroadRentCounted(rents: seq<nat>, o: Id, board: seq<Tile>)
    requires |HeldRailroads(board, o)| < |rents|
    ensures RailroadsOwnedBy(board, o) < |rents|
    ensures RailroadRent(rents, Some(o), board) == rents[|HeldRailroads(board, o)|]
  {
    RailroadsOwnedByCount(board, o);
  }

  /** The utility rent read against the utilities the owner holds, counted
      independently of UtilityRent: 4 or 10 times the dice sum for one or
      two utilities, 0 otherwise. */
  lemma UtilityRentCounted(roll: nat, o: Id, board: seq<Tile>)
    ensures var held := |HeldUtilities(board, o)|;
      UtilityRent(roll, Some(o), board) == if held == 1 then 4 * roll else if held == 2 then 10 * roll else 0
  {
    UtilitiesOwnedByCount(board, o);
  }

  /** The tile with its owner set to `o`. */
  function WithOwner(t: Tile, o: Id): (u: Tile)
    requires IsOwnable(t)
    ensures IsOwnable(u) && OwnerOf(u) == Some(o)
    ensures u.Property? == t.Property? && u.Railroad? == t.Railroad? && u.Utility? == t.Utility?
    ensures t.Property? ==> u == t.(owner := Some(o))
    ensures t.Railroad? ==> u == t.(railOwner := Some(o))
    ensures t.Utility? ==> u == t.(utilityOwner := Some(o))
  {
    match t
    case Property(n, c, r, l, _) => Property(n, c, r, l, Some(o))
    case Railroad(n, c, r, _) => Railroad(n, c, r, Some(o))
    case Utility(c, _) => Utility(c, Some(o))
  }

  /** Changing who owns one tile leaves the number of railroads alone. */
  lemma {:induction false} RailroadCountOwnerChange(board: seq<Tile>, i: nat, t: Tile)
    requires i < |board| && t.Railroad? == board[i].Railroad?
    ensures RailroadCount(board[i := t]) == RailroadCount(board)
  {
    if i > 0 {
      assert board[i := t][1..] == board[1..][i - 1 := t];
      RailroadCountOwnerChange(board[1..], i - 1, t);
    } else {
      assert board[i := t][1..] == board[1..];
    }
  }

  /** Taking over an unowned railroad raises the new owner's count by one
      and leaves every other owner's count alone. */
  lemma {:induction false} AcquireRailroad(board: seq<Tile>, i: nat, o: Id)
    requires i < |board| && board[i].Railroad? && board[i].railOwner == None
    ensures RailroadsOwnedBy(board[i := WithOwner(board[i], o)], o) == RailroadsOwnedBy(board, o) + 1
    ensures forall p :: p != o ==>
              RailroadsOwnedBy(board[i := WithOwner(board[i], o)], p) == RailroadsOwnedBy(board, p)
  {
    var t := WithOwner(board[i], o);
    if i > 0 {
      assert board[i := t][1..] == board[1..][i - 1 := t];
      AcquireRailroad(board[1..], i - 1, o);
    } else {
      assert board[i := t][1..] == board[1..];
    }
  }

  /** Taking over an unowned utility raises the new owner's count by one
      and leaves every other owner's count alone. */
  lemma {:induction false} AcquireUtility(board: seq<Tile>, i: nat, o: Id)
    requires i < |board| && board[i].Utility? && board[i].utilityOwner == None
    ensures UtilitiesOwnedBy(board[i := WithOwner(board[i], o)], o) == UtilitiesOwnedBy(board, o) + 1
    ensures forall p :: p != o ==>
              UtilitiesOwnedBy(board[i := WithOwner(board[i], o)], p) == UtilitiesOwnedBy(board, p)
  {
    var t := WithOwner(board[i], o);
    if i > 0 {
      assert board[i := t][1..] == board[1..][i - 1 := t];
      AcquireUtility(board[1..], i - 1, o);
    } else {
      assert board[i := t][1..] == board[1..];
    }
  }

  /** The rent of a held railroad is read at an index between 1 and the
      number of railroads on the board. */
  lemma HeldRailroadRent(board: seq<Tile>, i: nat, o: Id)
    requires i < |board| && board[i].Railroad? && board[i].railOwner == Some(o)
    requires RailroadCount(board) < |board[i].railRents|
    ensures 1 <= RailroadsOwnedBy(board, o) <= RailroadCount(board)
    ensures RailroadRent(board[i].railRents, Some(o), board)
            == board[i].railRents[RailroadsOwnedBy(board, o)]
  {
    HeldRailroadCounted(board, i, o);
    OwnedRailroadsBounded(board, o);
  }

  /** Buying the second utility moves its owner's utility rent from four to
      ten times the dice sum. */
  lemma SecondUtilityRent(board: seq<Tile>, j: nat, o: Id, roll: nat)
    requires UtilitiesOwnedBy(board, o) == 1
    requires j < |board| && board[j].Utility? && board[j].utilityOwner == None
    ensures UtilityRent(roll, Some(o), board) == 4 * roll
    ensures UtilityRent(roll, Some(o), board[j := WithOwner(board[j], o)]) == 10 * roll
  {
    AcquireUtility(board, j, o);
  }

  /** Index of the first Jail tile at or after `from`, if any. */
  function FirstJailFrom(board: seq<Tile>, from: nat): (r: Option<nat>)
    requires from <= |board|
    ensures r.Some? ==> from <= r.value < |board| && board[r.value] == Jail
                        && forall k :: from <= k < r.value ==> board[k] != Jail
    ensures r.None? ==> forall k :: from <= k < |board| ==> board[k] != Jail
    decreases |board| - from
  {
    if from == |board| then None
    else if board[from] == Jail then Some(from)
    else FirstJailFrom(board, from + 1)
  }

  /** The index `board.iter().position(Jail)` gives: the first Jail tile. */
  function FirstJail(board: seq<Tile>): (r: Option<nat>)
    ensures r.Some? ==> r.value < |board| && board[r.value] == Jail
                        && forall k :: 0 <= k < r.value ==> board[k] != Jail
    ensures r.None? ==> forall k :: 0 <= k < |board| ==> board[k] != Jail
  {
    FirstJailFrom(board, 0)
  }

  /** What the turn engine needs of a board so that no index it computes is
      out of range: a property's level indexes its rent table and it has a
      first purchase tier; a railroad's rent table covers every possible
      number of railroads held; a board with a GoToJail tile has a Jail. */
  predicate WellFormedBoard(board: seq<Tile>) {
    && (forall i :: 0 <= i < |board| && board[i].Property? ==>
          board[i].level < |board[i].rents| && |board[i].costs| > 0)
    && (forall i :: 0 <= i < |board| && board[i].Railroad? ==>
          RailroadCount(board) < |board[i].railRents|)
    && (forall i :: 0 <= i < |board| && board[i].GoToJail? ==> FirstJail(board).Some?)
  }

  /** On a well-formed board every owned railroad's rent index is in range. */
  lemma RailroadRentDefined(board: seq<Tile>, i: nat)
    requires WellFormedBoard(board) && i < |board| && board[i].Railroad?
    ensures board[i].railOwner.Some? ==>
              RailroadsOwnedBy(board, board[i].railOwner.value) < |board[i].railRents|
  {
    if board[i].railOwner.Some? {
      OwnedRailroadsBounded(board, board[i].railOwner.value);
    }
  }

  /** Changing the owner of one ownable tile keeps the board well formed and
      moves no Jail tile. */
  lemma OwnerChangeKeepsWellFormed(board: seq<Tile>, i: nat, o: Id)
    requires WellFormedBoard(board) && i < |board| && IsOwnable(board[i])
    ensures WellFormedBoard(board[i := WithOwner(board[i], o)])
    ensures FirstJail(board[i := WithOwner(board[i], o)]) == FirstJail(board)
  {
    var b' := board[i := WithOwner(board[i], o)];
    RailroadCountOwnerChange(board, i, WithOwner(board[i], o));
    assert forall k :: 0 <= k < |board| ==> (b'[k] == Jail <==> board[k] == Jail);
    JailUnmoved(board, b', 0);
  }

  /** Two boards whose Jail tiles stand at the same indices have the same
      first Jail. */
  lemma {:induction false} JailUnmoved(a: seq<Tile>, b: seq<Tile>, from: nat)
    requires |a| == |b| && from <= |a|
    requires forall k :: 0 <= k < |a| ==> (a[k] == Jail <==> b[k] == Jail)
    ensures FirstJailFrom(a, from) == FirstJailFrom(b, from)
    decreases |a| - from
  {
    if from < |a| {
      JailUnmoved(a, b, from + 1);
    }
  }
}
