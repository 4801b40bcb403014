/**
  * The testnet leaderboard: at most 100 (account, points) entries, sorted by points, highest
  * first. `update_leaderboard` refreshes the entry of an account already on the board, appends
  * while there is room, and otherwise lets a higher score displace a lower one, then sorts.
  */
module Leaderboard {
  import opened Frame

  /** The bound of the board (`BoundedVec<_, ConstU32<100>>` and the `board.len() < 100` check). */
  const LEADERBOARD_SIZE: nat := 100

  type Entry = (AccountId, nat)

  type Board = seq<Entry>

  /** Highest score first. */
  predicate SortedDesc(b: Board)
  {
    forall i, j :: 0 <= i < j < |b| ==> b[j].1 <= b[i].1
  }

  // ---------------------------------------------------------------------------------------
  // `sort_by(|a, b| b.1.cmp(&a.1))`: a stable sort, highest score first
  // ---------------------------------------------------------------------------------------

  /** Inserts `x` after every entry whose score is at least its own. */
  function InsertDesc(b: Board, x: Entry): (r: Board)
    ensures |r| == |b| + 1 && multiset(r) == multiset(b) + multiset{x}
    decreases |b|
  {
    if |b| == 0 then [x]
    else if x.1 <= b[|b| - 1].1 then b + [x]
    else
      var last := b[|b| - 1];
      assert b == b[..|b| - 1] + [last];
      InsertDesc(b[..|b| - 1], x) + [last]
  }

  lemma {:induction false} InsertDescSorted(b: Board, x: Entry)
    requires SortedDesc(b)
    ensures SortedDesc(InsertDesc(b, x))
    decreases |b|
  {
    if |b| > 0 && b[|b| - 1].1 < x.1 {
      var last := b[|b| - 1];
      var prefix := b[..|b| - 1];
      InsertDescSorted(prefix, x);
      var r' := InsertDesc(prefix, x);
      forall k | 0 <= k < |r'|
        ensures last.1 <= r'[k].1
      {
        assert r'[k] in multiset(prefix) + multiset{x};
        if r'[k] != x {
          assert r'[k] in prefix;
          var j :| 0 <= j < |prefix| && prefix[j] == r'[k];
          assert b[j] == r'[k];
        }
      }
    }
  }

  /** The board sorted by score, highest first; entries with equal scores keep their order. */
  function SortDesc(b: Board): (r: Board)
    ensures |r| == |b| && multiset(r) == multiset(b)
    decreases |b|
  {
    if |b| == 0 then []
    else
      assert b == b[..|b| - 1] + [b[|b| - 1]];
      InsertDesc(SortDesc(b[..|b| - 1]), b[|b| - 1])
  }

  lemma {:induction false} SortDescSorted(b: Board)
    ensures SortedDesc(SortDesc(b))
    decreases |b|
  {
    if |b| > 0 {
      SortDescSorted(b[..|b| - 1]);
      InsertDescSorted(SortDesc(b[..|b| - 1]), b[|b| - 1]);
    }
  }

  /** Sorting keeps exactly the entries that were on the board. */
  lemma SortDescSameEntries(b: Board)
    ensures forall e :: e in SortDesc(b) <==> e in b
  {
    var r := SortDesc(b);
    forall e
      ensures e in r <==> e in b
    {
      assert e in r <==> e in multiset(r);
      assert e in b <==> e in multiset(b);
    }
  }

  // ---------------------------------------------------------------------------------------
  // The two `position` searches of `update_leaderboard`
  // ---------------------------------------------------------------------------------------

  /** `board.iter().position(|(u, _)| u == &user)`. */
  function IndexOfUser(b: Board, user: AccountId): (r: Option<nat>)
    ensures r.None? <==> forall i :: 0 <= i < |b| ==> b[i].0 != user
    ensures r.Some? ==> r.value < |b| && b[r.value].0 == user && forall j :: 0 <= j < r.value ==> b[j].0 != user
  {
    if |b| == 0 then None
    else if b[0].0 == user then Some(0)
    else
      var r := IndexOfUser(b[1..], user);
      assert forall i :: 1 <= i < |b| ==> b[i] == b[1..][i - 1];
      if r.None? then None else Some(r.value + 1)
  }

  /** `board.iter().position(|(_, p)| *p < points)`: the first entry scoring below `points`. */
  function FirstBelow(b: Board, points: nat): (r: Option<nat>)
    ensures r.None? <==> forall i :: 0 <= i < |b| ==> points <= b[i].1
    ensures r.Some? ==> r.value < |b| && b[r.value].1 < points && forall j :: 0 <= j < r.value ==> points <= b[j].1
  {
    if |b| == 0 then None
    else if b[0].1 < points then Some(0)
    else
      var r := FirstBelow(b[1..], points);
      assert forall i :: 1 <= i < |b| ==> b[i] == b[1..][i - 1];
      if r.None? then None else Some(r.value + 1)
  }

  // ---------------------------------------------------------------------------------------
  // The update, as written and as intended
  // ---------------------------------------------------------------------------------------

  /**
    * The edit of `update_leaderboard` before sorting, as written: on a full board the new score
    * displaces the FIRST entry scoring below it, which on a board sorted highest first is the
    * highest of the lower entries rather than the lowest.
    */
  function EditedAsWritten(b: Board, user: AccountId, points: nat): (r: Board)
    ensures |r| == if IndexOfUser(b, user).None? && |b| < LEADERBOARD_SIZE then |b| + 1 else |b|
  {
    match IndexOfUser(b, user)
    case Some(pos) => b[pos := (user, points)]
    case None =>
      if |b| < LEADERBOARD_SIZE then b + [(user, points)]
      else
        match FirstBelow(b, points)
        case Some(i) => b[i := (user, points)]
        case None => b
  }

  function UpdatedAsWritten(b: Board, user: AccountId, points: nat): (r: Board)
    ensures multiset(r) == multiset(EditedAsWritten(b, user, points))
  {
    SortDesc(EditedAsWritten(b, user, points))
  }

  /**
    * The edit as intended ("replace lowest score if higher"): on a full board sorted highest
    * first, the new score displaces the last entry when it is higher.
    */
  function Edited(b: Board, user: AccountId, points: nat): (r: Board)
    ensures |r| == if IndexOfUser(b, user).None? && |b| < LEADERBOARD_SIZE then |b| + 1 else |b|
  {
    match IndexOfUser(b, user)
    case Some(pos) => b[pos := (user, points)]
    case None =>
      if |b| < LEADERBOARD_SIZE then b + [(user, points)]
      else if 0 < |b| && b[|b| - 1].1 < points then b[|b| - 1 := (user, points)]
      else b
  }

  /** `update_leaderboard(user, points)` with the lowest entry displaced. */
  function Updated(b: Board, user: AccountId, points: nat): (r: Board)
    ensures multiset(r) == multiset(Edited(b, user, points))
  {
    SortDesc(Edited(b, user, points))
  }

  // ---------------------------------------------------------------------------------------
  // The board holds the top scores
  // ---------------------------------------------------------------------------------------

  function PointsOf(points: map<AccountId, nat>, a: AccountId): nat
  {
    if a in points then points[a] else 0
  }

  /** Every entry carries its account's current points, and no entry appears twice. */
  ghost predicate Current(b: Board, points: map<AccountId, nat>)
  {
    && (forall e :: e in b ==> e.0 in points && points[e.0] == e.1)
    && (forall e :: multiset(b)[e] <= 1)
  }

  /**
    * Top-of-the-board, before sorting: while there is room every account with points is on
    * the board, and once it is full every account left off scores no more than any entry.
    * (Given `Current`, an account `u` is on the board exactly when `(u, points[u])` is.)
    */
  ghost predicate Dominates(b: Board, points: map<AccountId, nat>)
  {
    && (|b| < LEADERBOARD_SIZE ==> forall u :: u in points ==> (u, points[u]) in b)
    && (|b| == LEADERBOARD_SIZE ==> forall u, e :: u in points && (u, points[u]) !in b && e in b ==> points[u] <= e.1)
  }

  /** The leaderboard invariant: bounded, sorted, current and holding the top scores. */
  ghost predicate TopBoard(b: Board, points: map<AccountId, nat>)
  {
    && |b| <= LEADERBOARD_SIZE
    && SortedDesc(b)
    && Current(b, points)
    && (|b| < LEADERBOARD_SIZE ==> forall u :: u in points ==> (u, points[u]) in b)
    && (|b| == LEADERBOARD_SIZE ==> forall u :: u in points && (u, points[u]) !in b ==> points[u] <= b[|b| - 1].1)
  }

  /** On a sorted board the last entry scores no more than any entry. */
  lemma LastIsLowest(b: Board, e: Entry)
    requires SortedDesc(b) && e in b
    ensures b[|b| - 1].1 <= e.1
  {
    var k :| 0 <= k < |b| && b[k] == e;
    if k < |b| - 1 {
      assert b[|b| - 1].1 <= b[k].1;
    }
  }

  /** A top board dominates: the displaced candidates score below every entry. */
  lemma TopBoardDominates(b: Board, points: map<AccountId, nat>)
    requires TopBoard(b, points)
    ensures Dominates(b, points)
  {
    if |b| == LEADERBOARD_SIZE {
      forall u, e | u in points && (u, points[u]) !in b && e in b
        ensures points[u] <= e.1
      {
        LastIsLowest(b, e);
      }
    }
  }

  /** Sorting a current, dominating board of at most 100 entries gives a top board. */
  lemma SortedIsTop(b: Board, points: map<AccountId, nat>)
    requires |b| <= LEADERBOARD_SIZE && Current(b, points) && Dominates(b, points)
    ensures TopBoard(SortDesc(b), points)
  {
    var r := SortDesc(b);
    SortDescSorted(b);
    SortDescSameEntries(b);
    if |r| == LEADERBOARD_SIZE {
      assert r[|r| - 1] in r;
    }
  }

  /** How one entry's count changes when position `pos` is overwritten. */
  lemma CountAfterUpdate(b: Board, pos: nat, x: Entry, e: Entry)
    requires pos < |b|
    ensures multiset(b[pos := x])[e] == multiset(b)[e] - (if e == b[pos] then 1 else 0) + (if e == x then 1 else 0)
    ensures e in b[pos := x] <==> 0 < multiset(b[pos := x])[e]
    ensures e in b <==> 0 < multiset(b)[e]
  {
    assert multiset(b[pos := x]) == multiset(b) - multiset{b[pos]} + multiset{x};
  }

  /** Refreshing the entry of an account already on the board keeps the board current. */
  lemma RefreshCurrent(b: Board, points: map<AccountId, nat>, user: AccountId, p: nat, pos: nat)
    requires Current(b, points) && pos < |b| && b[pos].0 == user
    ensures Current(b[pos := (user, p)], points[user := p])
  {
    var e' := b[pos := (user, p)];
    var points' := points[user := p];
    assert b[pos] in b;
    forall e | e in e'
      ensures e.0 in points' && points'[e.0] == e.1
    {
      CountAfterUpdate(b, pos, (user, p), e);
    }
    forall e
      ensures multiset(e')[e] <= 1
    {
      CountAfterUpdate(b, pos, (user, p), e);
    }
  }

  /** Refreshing the entry of an account already on the board keeps it dominating. */
  lemma RefreshDominates(b: Board, points: map<AccountId, nat>, user: AccountId, p: nat, pos: nat)
    requires TopBoard(b, points) && pos < |b| && b[pos].0 == user && PointsOf(points, user) <= p
    ensures Dominates(b[pos := (user, p)], points[user := p])
  {
    var e' := b[pos := (user, p)];
    var points' := points[user := p];
    assert b[pos] in b;
    TopBoardDominates(b, points);
    if |e'| < LEADERBOARD_SIZE {
      forall u | u in points'
        ensures (u, points'[u]) in e'
      {
        CountAfterUpdate(b, pos, (user, p), (u, points'[u]));
      }
    } else {
      forall u, e | u in points' && (u, points'[u]) !in e' && e in e'
        ensures points'[u] <= e.1
      {
        CountAfterUpdate(b, pos, (user, p), (u, points'[u]));
        CountAfterUpdate(b, pos, (user, p), e);
        LastIsLowest(b, b[pos]);
      }
    }
  }

  /** Appending an account new to a board with room. */
  lemma EditAppend(b: Board, points: map<AccountId, nat>, user: AccountId, p: nat)
    requires TopBoard(b, points) && |b| < LEADERBOARD_SIZE && IndexOfUser(b, user).None?
    ensures Current(b + [(user, p)], points[user := p]) && Dominates(b + [(user, p)], points[user := p])
  {
    var e' := b + [(user, p)];
    var points' := points[user := p];
    assert user !in points;
    assert forall e :: e in b ==> e.0 != user;
    assert multiset(e') == multiset(b) + multiset{(user, p)};
    forall u | u in points'
      ensures (u, points'[u]) in e'
    {
      if u != user {
        assert (u, points[u]) in b;
      } else {
        assert e'[|b|] == (user, p);
      }
    }
  }

  /** On a full board, a higher newcomer displacing the last entry keeps the board current. */
  lemma DisplaceCurrent(b: Board, points: map<AccountId, nat>, user: AccountId, p: nat)
    requires Current(b, points) && 0 < |b| && IndexOfUser(b, user).None?
    ensures Current(b[|b| - 1 := (user, p)], points[user := p])
  {
    var n := |b| - 1;
    var e' := b[n := (user, p)];
    var points' := points[user := p];
    assert forall e :: e in b ==> e.0 != user;
    forall e | e in e'
      ensures e.0 in points' && points'[e.0] == e.1
    {
      CountAfterUpdate(b, n, (user, p), e);
    }
    forall e
      ensures multiset(e')[e] <= 1
    {
      CountAfterUpdate(b, n, (user, p), e);
    }
  }

  /** On a full board, a higher newcomer displacing the last entry keeps it dominating. */
  lemma DisplaceDominates(b: Board, points: map<AccountId, nat>, user: AccountId, p: nat)
    requires TopBoard(b, points) && |b| == LEADERBOARD_SIZE && IndexOfUser(b, user).None?
    requires b[|b| - 1].1 < p
    ensures Dominates(b[|b| - 1 := (user, p)], points[user := p])
  {
    var n := |b| - 1;
    var e' := b[n := (user, p)];
    var points' := points[user := p];
    assert forall e :: e in b ==> e.0 != user;
    forall u, e | u in points' && (u, points'[u]) !in e' && e in e'
      ensures points'[u] <= e.1
    {
      CountAfterUpdate(b, n, (user, p), (u, points'[u]));
      CountAfterUpdate(b, n, (user, p), e);
      if e != (user, p) {
        LastIsLowest(b, e);
      }
    }
  }

  /** On a full board, a newcomer no higher than the last entry stays off. */
  lemma EditKeep(b: Board, points: map<AccountId, nat>, user: AccountId, p: nat)
    requires TopBoard(b, points) && |b| == LEADERBOARD_SIZE && IndexOfUser(b, user).None?
    requires p <= b[|b| - 1].1
    ensures Current(b, points[user := p]) && Dominates(b, points[user := p])
  {
    assert forall e :: e in b ==> e.0 != user;
    var points' := points[user := p];
    forall u, e | u in points' && (u, points'[u]) !in b && e in b
      ensures points'[u] <= e.1
    {
      LastIsLowest(b, e);
    }
  }

  /** The edit before sorting leaves a bounded, current, dominating board. */
  lemma EditedKeepsCurrent(b: Board, points: map<AccountId, nat>, user: AccountId, p: nat)
    requires TopBoard(b, points) && PointsOf(points, user) <= p
    ensures var e' := Edited(b, user, p);
      |e'| <= LEADERBOARD_SIZE && Current(e', points[user := p]) && Dominates(e', points[user := p])
  {
    match IndexOfUser(b, user)
    case Some(pos) =>
      RefreshCurrent(b, points, user, p, pos);
      RefreshDominates(b, points, user, p, pos);
    case None =>
      if |b| < LEADERBOARD_SIZE {
        EditAppend(b, points, user, p);
      } else if b[|b| - 1].1 < p {
        DisplaceCurrent(b, points, user, p);
        DisplaceDominates(b, points, user, p);
      } else {
        EditKeep(b, points, user, p);
      }
  }

  /**
    * `update_leaderboard` keeps the board on top: after an account's points rise, the updated
    * board is again bounded, sorted, current and holds the top scores.
    */
  lemma UpdatedKeepsTop(b: Board, points: map<AccountId, nat>, user: AccountId, p: nat)
    requires TopBoard(b, points) && PointsOf(points, user) <= p
    ensures TopBoard(Updated(b, user, p), points[user := p])
  {
    EditedKeepsCurrent(b, points, user, p);
    SortedIsTop(Edited(b, user, p), points[user := p]);
  }

  // ---------------------------------------------------------------------------------------
  // The displacement as written evicts the wrong entry
  // ---------------------------------------------------------------------------------------

  /** A full board: account `User(i)` holds `100 - i` points at position `i`. */
  function Descending(): (b: Board)
    ensures |b| == LEADERBOARD_SIZE
    ensures forall i :: 0 <= i < |b| ==> b[i] == (User(i), LEADERBOARD_SIZE - i)
  {
    seq(LEADERBOARD_SIZE, i requires 0 <= i < LEADERBOARD_SIZE => (User(i), LEADERBOARD_SIZE - i))
  }

  /** `User(1000)` is not on the descending board, and its first entry below 50 is `User(51)`. */
  lemma DescendingSearches()
    ensures IndexOfUser(Descending(), User(1000)).None?
    ensures FirstBelow(Descending(), 50) == Some(51)
  {
    var b := Descending();
    assert b[51].1 < 50;
    assert forall j :: 0 <= j < 51 ==> 50 <= b[j].1;
  }

  /** Overwriting position `k` of the descending board with a newcomer leaves `User(i)` (`i != k`) in place. */
  lemma DescendingOverwrite(k: nat, i: nat)
    requires k < LEADERBOARD_SIZE && i < LEADERBOARD_SIZE && i != k
    ensures (User(i), LEADERBOARD_SIZE - i) in Descending()[k := (User(1000), 50)]
    ensures (User(k), LEADERBOARD_SIZE - k) !in Descending()[k := (User(1000), 50)]
  {
    var e' := Descending()[k := (User(1000), 50)];
    assert e'[i] == (User(i), LEADERBOARD_SIZE - i);
    forall j | 0 <= j < |e'|
      ensures e'[j] != (User(k), LEADERBOARD_SIZE - k)
    {
      if j != k {
        assert e'[j].0 == User(j);
      }
    }
  }

  /** As written, the newcomer overwrites position 51 of the descending board. */
  lemma DescendingEditAsWritten()
    ensures EditedAsWritten(Descending(), User(1000), 50) == Descending()[51 := (User(1000), 50)]
  {
    DescendingSearches();
  }

  /** As intended, the newcomer overwrites the last position of the descending board. */
  lemma DescendingEdit()
    ensures Edited(Descending(), User(1000), 50) == Descending()[99 := (User(1000), 50)]
  {
    DescendingSearches();
  }

  /**
    * A newcomer with 50 points on the full descending board: as written it evicts `User(51)`
    * with 49 points, while `User(99)` with a single point stays on the board.
    */
  lemma AsWrittenEvictsHigherEntry()
    ensures (User(51), 49) !in UpdatedAsWritten(Descending(), User(1000), 50)
    ensures (User(99), 1) in UpdatedAsWritten(Descending(), User(1000), 50)
  {
    var e' := Descending()[51 := (User(1000), 50)];
    DescendingEditAsWritten();
    DescendingOverwrite(51, 99);
    SortDescSameEntries(e');
  }

  /** The same newcomer, with the lowest entry displaced, evicts `User(99)` and keeps `User(51)`. */
  lemma CorrectedEvictsLowestEntry()
    ensures (User(51), 49) in Updated(Descending(), User(1000), 50)
    ensures (User(99), 1) !in Updated(Descending(), User(1000), 50)
  {
    var e' := Descending()[99 := (User(1000), 50)];
    DescendingEdit();
    DescendingOverwrite(99, 51);
    SortDescSameEntries(e');
  }
}
