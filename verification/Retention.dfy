/** Retention of old ClusterOperations: the two-pass sort and the truncation that spares Running
    operations (pkg/controllers/cluster/controller.go). */
module Retention {
  import opened Text
  import opened Objects

  const SCORE_ANNOTATION := "kubean.io/eliminate-score"
  const DEFAULT_LIMIT := 30
  const MAX_LIMIT := 200

  /** `GetClusterOperationsBackEndLimit`: text that is no number counts as 0, and a number out of
      range as the nearest 64-bit value, because the error is dropped. */
  function BackEndLimit(text: string): (limit: nat)
    ensures 1 <= limit <= MAX_LIMIT
    ensures var value := Atoi(text).0; 1 <= value <= MAX_LIMIT ==> limit == value
    ensures Atoi(text).0 <= 0 ==> limit == DEFAULT_LIMIT
    ensures Atoi(text).0 >= MAX_LIMIT ==> limit == MAX_LIMIT
  {
    var value := Atoi(text).0;
    if value <= 0 then DEFAULT_LIMIT
    else if value >= MAX_LIMIT then MAX_LIMIT
    else value
  }

  /** A number is configured as it is written, up to the maximum, however large it is; everything that
      is not a positive number stands for the default. */
  lemma LimitMeans(text: string, n: nat)
    ensures BackEndLimit(Dec(n)) == if n == 0 then DEFAULT_LIMIT else if n < MAX_LIMIT then n else MAX_LIMIT
    ensures BackEndLimit("-" + Dec(n)) == DEFAULT_LIMIT
    ensures text == "" || !(AllDigits(text) || (text[0] in "+-" && AllDigits(text[1..]))) ==>
      BackEndLimit(text) == DEFAULT_LIMIT
  {
    NumberDec(n);
    assert ("-" + Dec(n))[1..] == Dec(n);
    assert IsDigit(Dec(n)[0]);
  }

  /** An operation as it is listed. */
  datatype Item = Item(name: string, annotations: map<string, string>, created: int, phase: Phase)

  /** `GetEliminateScoreValue`: whatever does not parse counts as 0. */
  function Score(item: Item): int {
    var text := if SCORE_ANNOTATION in item.annotations then item.annotations[SCORE_ANNOTATION] else "";
    var (value, err) := Atoi(text);
    if err then 0 else value
  }

  /** The annotated number is the score, whatever its sign; everything else counts as 0. */
  lemma ScoreMeans(item: Item, n: nat)
    ensures SCORE_ANNOTATION !in item.annotations ==> Score(item) == 0
    ensures SCORE_ANNOTATION in item.annotations ==>
      var text := item.annotations[SCORE_ANNOTATION];
      && (text == Dec(n) ==> Score(item) == if n <= MAX_INT then n else 0)
      && (text == "-" + Dec(n) ==> Score(item) == if n <= MAX_INT + 1 then 0 - n as int else 0)
      && (!IsNumeral(text) ==> Score(item) == 0)
  {
    AtoiMeans(if SCORE_ANNOTATION in item.annotations then item.annotations[SCORE_ANNOTATION] else "", n);
  }

  // Sorting.

  datatype SortKey = Newest | ByScore

  /** Items come in the order of rising ranks. */
  function Rank(key: SortKey, item: Item): int {
    match key
    case Newest => -item.created
    case ByScore => Score(item)
  }

  predicate SortedBy(key: SortKey, s: seq<Item>) {
    forall i, j | 0 <= i < j < |s| :: Rank(key, s[i]) <= Rank(key, s[j])
  }

  /** All that `sort.Slice` promises. */
  predicate SortOf(key: SortKey, s: seq<Item>, r: seq<Item>) {
    multiset(r) == multiset(s) && SortedBy(key, r)
  }

  function Ties(key: SortKey, s: seq<Item>, rank: int): seq<Item> {
    if s == [] then []
    else
      var front := Ties(key, s[..|s| - 1], rank);
      if Rank(key, s[|s| - 1]) == rank then front + [s[|s| - 1]] else front
  }

  /** What a stable sort promises: items of one rank keep their order. */
  ghost predicate StableSortOf(key: SortKey, s: seq<Item>, r: seq<Item>) {
    SortOf(key, s, r) && forall rank :: Ties(key, r, rank) == Ties(key, s, rank)
  }

  /** `x` behind everything in sorted `r` that does not rank higher. */
  function Insert(key: SortKey, r: seq<Item>, x: Item): seq<Item> {
    if r == [] || Rank(key, r[|r| - 1]) <= Rank(key, x) then r + [x]
    else Insert(key, r[..|r| - 1], x) + [r[|r| - 1]]
  }

  function StableSort(key: SortKey, s: seq<Item>): seq<Item> {
    if s == [] then [] else Insert(key, StableSort(key, s[..|s| - 1]), s[|s| - 1])
  }

  lemma TiesAppend(key: SortKey, s: seq<Item>, x: Item, rank: int)
    ensures Ties(key, s + [x], rank) == if Rank(key, x) == rank then Ties(key, s, rank) + [x] else Ties(key, s, rank)
  {
    assert (s + [x])[..|s|] == s;
  }

  lemma SortedAppend(key: SortKey, r: seq<Item>, x: Item)
    requires SortedBy(key, r) && forall y | y in r :: Rank(key, y) <= Rank(key, x)
    ensures SortedBy(key, r + [x])
  {
  }

  lemma {:induction false} InsertPermutes(key: SortKey, r: seq<Item>, x: Item)
    ensures multiset(Insert(key, r, x)) == multiset(r + [x])
    ensures forall y | y in Insert(key, r, x) :: y in r || y == x
  {
    if r == [] || Rank(key, r[|r| - 1]) <= Rank(key, x) {
    } else {
      var front, last := r[..|r| - 1], r[|r| - 1];
      assert r == front + [last];
      InsertPermutes(key, front, x);
    }
  }

  lemma {:induction false} InsertSorts(key: SortKey, r: seq<Item>, x: Item)
    requires SortedBy(key, r)
    ensures SortedBy(key, Insert(key, r, x))
  {
    if r == [] || Rank(key, r[|r| - 1]) <= Rank(key, x) {
      SortedAppend(key, r, x);
    } else {
      var front, last := r[..|r| - 1], r[|r| - 1];
      InsertSorts(key, front, x);
      InsertPermutes(key, front, x);
      SortedAppend(key, Insert(key, front, x), last);
    }
  }

  lemma {:induction false} InsertKeepsTies(key: SortKey, r: seq<Item>, x: Item, rank: int)
    ensures Ties(key, Insert(key, r, x), rank) == Ties(key, r + [x], rank)
  {
    if r == [] || Rank(key, r[|r| - 1]) <= Rank(key, x) {
    } else {
      var front, last := r[..|r| - 1], r[|r| - 1];
      assert r == front + [last];
      InsertKeepsTies(key, front, x, rank);
      TiesAppend(key, Insert(key, front, x), last, rank);
      TiesAppend(key, front, x, rank);
      TiesAppend(key, front, last, rank);
      TiesAppend(key, r, x, rank);
    }
  }

  /** The insertion sort is a stable sort. */
  lemma {:induction false} StableSortSorts(key: SortKey, s: seq<Item>)
    ensures StableSortOf(key, s, StableSort(key, s))
  {
    if s != [] {
      var front, last := s[..|s| - 1], s[|s| - 1];
      assert s == front + [last];
      StableSortSorts(key, front);
      var r := StableSort(key, front);
      InsertSorts(key, r, last);
      InsertPermutes(key, r, last);
      forall rank: int
        ensures Ties(key, StableSort(key, s), rank) == Ties(key, s, rank)
      {
        InsertKeepsTies(key, r, last, rank);
        TiesAppend(key, r, last, rank);
        assert Ties(key, r, rank) == Ties(key, front, rank);
      }
    }
  }

  lemma {:induction false} TiesAre(key: SortKey, s: seq<Item>, rank: int, x: Item)
    ensures x in Ties(key, s, rank) <==> x in s && Rank(key, x) == rank
  {
    if s != [] {
      assert s == s[..|s| - 1] + [s[|s| - 1]];
      TiesAre(key, s[..|s| - 1], rank, x);
    }
  }

  lemma LastRanksHighest(key: SortKey, a: seq<Item>, x: Item, y: Item)
    requires SortedBy(key, a + [x]) && y in a + [x]
    ensures Rank(key, y) <= Rank(key, x)
  {
    var i :| 0 <= i < |a + [x]| && (a + [x])[i] == y;
    assert (a + [x])[|a|] == x;
  }

  /** Sequences with the same ties have the same elements. */
  lemma SameTiesSameElements(key: SortKey, a: seq<Item>, b: seq<Item>, x: Item)
    requires forall rank :: Ties(key, a, rank) == Ties(key, b, rank)
    ensures x in a <==> x in b
  {
    TiesAre(key, a, Rank(key, x), x);
    TiesAre(key, b, Rank(key, x), x);
  }

  lemma LastsRankTheSame(key: SortKey, a: seq<Item>, x: Item, b: seq<Item>, y: Item)
    requires SortedBy(key, a + [x]) && SortedBy(key, b + [y])
    requires forall rank :: Ties(key, a + [x], rank) == Ties(key, b + [y], rank)
    ensures Rank(key, x) == Rank(key, y)
  {
    SameTiesSameElements(key, a + [x], b + [y], x);
    SameTiesSameElements(key, a + [x], b + [y], y);
    LastRanksHighest(key, a, x, y);
    LastRanksHighest(key, b, y, x);
  }

  /** Sequences with the same ties whose last elements rank the same have the same last element, and
      the rest has the same ties. */
  lemma LastOfTies(key: SortKey, a: seq<Item>, x: Item, b: seq<Item>, y: Item)
    requires forall rank :: Ties(key, a + [x], rank) == Ties(key, b + [y], rank)
    requires Rank(key, x) == Rank(key, y)
    ensures x == y
    ensures forall rank :: Ties(key, a, rank) == Ties(key, b, rank)
  {
    forall rank: int
      ensures Ties(key, a, rank) == Ties(key, b, rank) && (rank == Rank(key, x) ==> x == y)
    {
      assert Ties(key, a + [x], rank) == Ties(key, b + [y], rank);
      TiesAppend(key, a, x, rank);
      TiesAppend(key, b, y, rank);
      if rank == Rank(key, x) {
        LastEqual(Ties(key, a, rank), x, Ties(key, b, rank), y);
      }
    }
    assert Ties(key, a, Rank(key, x)) == Ties(key, b, Rank(key, x));
  }

  /** There is only one stable sort: the promise determines the result. */
  lemma {:induction false} StableSortIsUnique(key: SortKey, a: seq<Item>, b: seq<Item>)
    requires SortedBy(key, a) && SortedBy(key, b)
    requires forall rank :: Ties(key, a, rank) == Ties(key, b, rank)
    ensures a == b
  {
    if a == [] {
      if b != [] {
        SameTiesSameElements(key, a, b, b[0]);
      }
    } else if b == [] {
      SameTiesSameElements(key, a, b, a[0]);
    } else {
      var frontA, x, frontB, y := a[..|a| - 1], a[|a| - 1], b[..|b| - 1], b[|b| - 1];
      assert a == frontA + [x] && b == frontB + [y];
      LastsRankTheSame(key, frontA, x, frontB, y);
      LastOfTies(key, frontA, x, frontB, y);
      StableSortIsUnique(key, frontA, frontB);
    }
  }

  lemma LastEqual<T>(a: seq<T>, x: T, b: seq<T>, y: T)
    requires a + [x] == b + [y]
    ensures a == b && x == y
  {
    assert (a + [x])[..|a|] == a && (b + [y])[..|b|] == b;
    assert (a + [x])[|a|] == x && (b + [y])[|b|] == y;
  }
  // The two passes.

  /** `x` may come before `y`: its score is lower, or it is the same and `x` is not older. */
  predicate Before(x: Item, y: Item) {
    Score(x) < Score(y) || (Score(x) == Score(y) && x.created >= y.created)
  }

  /** Scores rise, and among equal scores the newest comes first. */
  predicate ScoreThenNewest(s: seq<Item>) {
    forall i, j | 0 <= i < j < |s| :: Before(s[i], s[j])
  }

  lemma OrderedAppend(r: seq<Item>, x: Item)
    requires ScoreThenNewest(r) && forall y | y in r :: Before(y, x)
    ensures ScoreThenNewest(r + [x])
  {
  }

  lemma {:induction false} InsertKeepsOrder(r: seq<Item>, x: Item)
    requires ScoreThenNewest(r) && forall y | y in r :: y.created >= x.created
    ensures ScoreThenNewest(Insert(ByScore, r, x))
  {
    if r == [] {
    } else if Score(r[|r| - 1]) <= Score(x) {
      forall y | y in r
        ensures Before(y, x)
      {
        var i :| 0 <= i < |r| && r[i] == y;
        assert i < |r| - 1 ==> Before(y, r[|r| - 1]);
      }
      OrderedAppend(r, x);
    } else {
      var front, last := r[..|r| - 1], r[|r| - 1];
      InsertKeepsOrder(front, x);
      InsertPermutes(ByScore, front, x);
      OrderedAppend(Insert(ByScore, front, x), last);
    }
  }

  lemma {:induction false} SortOfNewestFirst(s: seq<Item>)
    requires SortedBy(Newest, s)
    ensures ScoreThenNewest(StableSort(ByScore, s))
  {
    if s != [] {
      var front, last := s[..|s| - 1], s[|s| - 1];
      SortOfNewestFirst(front);
      StableSortSorts(ByScore, front);
      forall y | y in StableSort(ByScore, front)
        ensures y.created >= last.created
      {
        assert y in multiset(front);
        var i :| 0 <= i < |front| && front[i] == y;
        assert Rank(Newest, s[i]) <= Rank(Newest, s[|s| - 1]);
      }
      InsertKeepsOrder(StableSort(ByScore, front), last);
    }
  }

  /** A stable second pass gives the order that the code promises, whatever the first pass did with
      operations of the same age. */
  lemma StableSecondPass(s: seq<Item>, byAge: seq<Item>, r: seq<Item>)
    requires SortOf(Newest, s, byAge) && StableSortOf(ByScore, byAge, r)
    ensures multiset(r) == multiset(s) && ScoreThenNewest(r)
  {
    StableSortSorts(ByScore, byAge);
    forall rank: int
      ensures Ties(ByScore, r, rank) == Ties(ByScore, StableSort(ByScore, byAge), rank)
    {
      assert Ties(ByScore, r, rank) == Ties(ByScore, byAge, rank);
    }
    StableSortIsUnique(ByScore, r, StableSort(ByScore, byAge));
    SortOfNewestFirst(byAge);
  }

  /** Operations of one score are all of one age. */
  predicate NoTies(s: seq<Item>) {
    forall x, y | x in s && y in s && Score(x) == Score(y) :: x.created == y.created
  }

  /** With a second pass that is not stable, as `sort.Slice` need not be, only the score is sure: the
      promised order comes out of every such sort exactly if no two operations of one score differ
      in age. */
  lemma UnstableSecondPass(s: seq<Item>)
    ensures (forall r: seq<Item> :: SortOf(ByScore, s, r) ==> ScoreThenNewest(r)) <==> NoTies(s)
  {
    if NoTies(s) {
      forall r: seq<Item> | SortOf(ByScore, s, r)
        ensures ScoreThenNewest(r)
      {
        forall i, j | 0 <= i < j < |r|
          ensures Before(r[i], r[j])
        {
          assert r[i] in multiset(s) && r[j] in multiset(s);
          assert Rank(ByScore, r[i]) <= Rank(ByScore, r[j]);
        }
      }
    } else {
      var x, y :| x in s && y in s && Score(x) == Score(y) && x.created > y.created;
      var bad := BadSort(s, x, y);
    }
  }

  lemma BadSort(s: seq<Item>, x: Item, y: Item) returns (r: seq<Item>)
    requires x in s && y in s && Score(x) == Score(y) && x.created > y.created
    ensures SortOf(ByScore, s, r) && !ScoreThenNewest(r)
  {
    r := StableSort(ByScore, s);
    StableSortSorts(ByScore, s);
    assert x in multiset(r) && y in multiset(r);
    var p :| 0 <= p < |r| && r[p] == x;
    var q :| 0 <= q < |r| && r[q] == y;
    if p < q {
      SwapKeepsSorted(r, p, q);
      r := r[p := y][q := x];
      assert !Before(r[p], r[q]);
    } else {
      assert !Before(r[q], r[p]);
    }
  }

  lemma SwapKeepsSorted(r: seq<Item>, p: nat, q: nat)
    requires p < q < |r| && SortedBy(ByScore, r) && Score(r[p]) == Score(r[q])
    ensures SortOf(ByScore, r, r[p := r[q]][q := r[p]])
  {
    var r' := r[p := r[q]][q := r[p]];
    forall i, j | 0 <= i < j < |r'|
      ensures Rank(ByScore, r'[i]) <= Rank(ByScore, r'[j])
    {
      assert Rank(ByScore, r'[i]) == Rank(ByScore, r[i]) && Rank(ByScore, r'[j]) == Rank(ByScore, r[j]);
    }
  }

  function SortTwice(s: seq<Item>): seq<Item> {
    StableSort(ByScore, StableSort(Newest, s))
  }

  /** `sort.Slice`; `stable` tells whether it happens to be stable. */
  method SortSlice(a: array<Item>, key: SortKey, stable: bool)
    modifies a
    ensures SortOf(key, old(a[..]), a[..])
    ensures stable ==> a[..] == StableSort(key, old(a[..]))
  {
    StableSortSorts(key, a[..]);
    var r: seq<Item> := *;
    if stable || !SortOf(key, a[..], r) {
      r := StableSort(key, a[..]);
    }
    assert |multiset(r)| == |multiset(a[..])|;
    forall i | 0 <= i < a.Length {
      a[i] := r[i];
    }
    assert a[..] == r;
  }

  method SortClusterOperationsByCreation(a: array<Item>, stableFirst: bool, stableSecond: bool)
    modifies a
    ensures SortOf(ByScore, old(a[..]), a[..])
    ensures stableSecond ==> ScoreThenNewest(a[..])
    ensures stableFirst && stableSecond ==> a[..] == SortTwice(old(a[..]))
  {
    SortSlice(a, Newest, stableFirst);
    ghost var byAge := a[..];
    SortSlice(a, ByScore, stableSecond);
    if stableSecond {
      StableSortSorts(ByScore, byAge);
      StableSecondPass(old(a[..]), byAge, a[..]);
    }
  }
  // Truncation.

  predicate UniqueNames(s: seq<Item>) {
    forall i, j | 0 <= i < j < |s| :: s[i].name != s[j].name
  }

  /** The operations that a cleanup of sorted operations deletes. */
  function Doomed(sorted: seq<Item>, limit: nat): set<string> {
    set i | limit <= i < |sorted| && sorted[i].phase != Running :: sorted[i].name
  }

  function Without(s: seq<Item>, names: set<string>): seq<Item> {
    if s == [] then []
    else
      var front := Without(s[..|s| - 1], names);
      if s[|s| - 1].name in names then front else front + [s[|s| - 1]]
  }

  function RunningOnes(s: seq<Item>): seq<Item> {
    if s == [] then []
    else
      var front := RunningOnes(s[..|s| - 1]);
      if s[|s| - 1].phase == Running then front + [s[|s| - 1]] else front
  }

  /** What a cleanup leaves: the first `limit` and the Running ones beyond. */
  function Left(sorted: seq<Item>, limit: nat): seq<Item>
    requires limit <= |sorted|
  {
    sorted[..limit] + RunningOnes(sorted[limit..])
  }

  lemma WithoutAppend(s: seq<Item>, x: Item, names: set<string>)
    ensures Without(s + [x], names) == Without(s, names) + if x.name in names then [] else [x]
  {
    assert (s + [x])[..|s|] == s;
  }

  lemma {:induction false} WithoutIs(s: seq<Item>, names: set<string>, x: Item)
    ensures x in Without(s, names) <==> x in s && x.name !in names
  {
    if s != [] {
      WithoutIs(s[..|s| - 1], names, x);
      assert s == s[..|s| - 1] + [s[|s| - 1]];
    }
  }

  lemma {:induction false} WithoutTwice(s: seq<Item>, names: set<string>, more: set<string>)
    ensures Without(Without(s, names), more) == Without(s, names + more)
  {
    if s != [] {
      var front, last := s[..|s| - 1], s[|s| - 1];
      WithoutTwice(front, names, more);
      if last.name !in names {
        WithoutAppend(Without(front, names), last, more);
      }
    }
  }

  lemma {:induction false} WithoutNone(s: seq<Item>)
    ensures Without(s, {}) == s
  {
    if s != [] {
      WithoutNone(s[..|s| - 1]);
    }
  }

  lemma NamesDiffer(s: seq<Item>, i: nat, j: nat)
    requires UniqueNames(s) && i < |s| && j < |s| && s[i].name == s[j].name
    ensures i == j
  {
  }

  lemma DoomedAt(sorted: seq<Item>, limit: nat, i: nat)
    requires UniqueNames(sorted) && i < |sorted|
    ensures sorted[i].name in Doomed(sorted, limit) <==> limit <= i && sorted[i].phase != Running
  {
    if sorted[i].name in Doomed(sorted, limit) {
      var j :| limit <= j < |sorted| && sorted[j].phase != Running && sorted[j].name == sorted[i].name;
      NamesDiffer(sorted, i, j);
    }
  }

  lemma {:induction false} WithoutConcat(a: seq<Item>, b: seq<Item>, names: set<string>)
    ensures Without(a + b, names) == Without(a, names) + Without(b, names)
  {
    if b == [] {
      assert a + b == a;
    } else {
      var front, last := b[..|b| - 1], b[|b| - 1];
      assert b == front + [last] && a + b == a + front + [last];
      WithoutConcat(a, front, names);
      WithoutAppend(a + front, last, names);
    }
  }

  lemma {:induction false} WithoutOthers(s: seq<Item>, names: set<string>)
    requires forall x | x in s :: x.name !in names
    ensures Without(s, names) == s
  {
    if s != [] {
      WithoutOthers(s[..|s| - 1], names);
    }
  }

  lemma {:induction false} WithoutIdle(s: seq<Item>, names: set<string>)
    requires forall x | x in s :: x.name in names <==> x.phase != Running
    ensures Without(s, names) == RunningOnes(s)
  {
    if s != [] {
      WithoutIdle(s[..|s| - 1], names);
    }
  }

  lemma KeptNotDoomed(sorted: seq<Item>, limit: nat, x: Item)
    requires UniqueNames(sorted) && limit <= |sorted| && x in sorted[..limit]
    ensures x.name !in Doomed(sorted, limit)
  {
    var i :| 0 <= i < limit && sorted[i] == x;
    DoomedAt(sorted, limit, i);
  }

  lemma BeyondDoomed(sorted: seq<Item>, limit: nat, x: Item)
    requires UniqueNames(sorted) && limit <= |sorted| && x in sorted[limit..]
    ensures x.name in Doomed(sorted, limit) <==> x.phase != Running
  {
    var i :| 0 <= i < |sorted[limit..]| && sorted[limit..][i] == x;
    DoomedAt(sorted, limit, limit + i);
  }

  /** The survivors are exactly the first `limit` in sorted order and the Running ones beyond. */
  lemma Survivors(sorted: seq<Item>, limit: nat)
    requires UniqueNames(sorted) && limit <= |sorted|
    ensures Without(sorted, Doomed(sorted, limit)) == Left(sorted, limit)
  {
    var kept, beyond, names := sorted[..limit], sorted[limit..], Doomed(sorted, limit);
    assert sorted == kept + beyond;
    WithoutConcat(kept, beyond, names);
    assert Without(kept, names) == kept by {
      forall x | x in kept
        ensures x.name !in names
      {
        KeptNotDoomed(sorted, limit, x);
      }
      WithoutOthers(kept, names);
    }
    assert Without(beyond, names) == RunningOnes(beyond) by {
      forall x | x in beyond
        ensures x.name in names <==> x.phase != Running
      {
        BeyondDoomed(sorted, limit, x);
      }
      WithoutIdle(beyond, names);
    }
  }

  /** No deleted operation is Running, and none has a lower score than one of the first `limit`. */
  lemma DeletedAreWorst(s: seq<Item>, sorted: seq<Item>, limit: nat, gone: Item, kept: nat)
    requires UniqueNames(sorted) && SortOf(ByScore, s, sorted) && kept < limit <= |sorted|
    requires gone in s && gone.name in Doomed(sorted, limit)
    ensures gone.phase != Running && Score(sorted[kept]) <= Score(gone)
  {
    assert gone in multiset(sorted);
    var i :| 0 <= i < |sorted| && sorted[i] == gone;
    DoomedAt(sorted, limit, i);
    assert Rank(ByScore, sorted[kept]) <= Rank(ByScore, sorted[i]);
  }

  /** The item is annotated with this number. */
  predicate Annotated(item: Item, n: nat) {
    SCORE_ANNOTATION in item.annotations && item.annotations[SCORE_ANNOTATION] == Dec(n)
  }

  /** Of two annotated operations the one with the larger number goes first: if the other one is deleted,
      this one is deleted too, unless it is Running. */
  lemma LargerGoesFirst(s: seq<Item>, sorted: seq<Item>, limit: nat, x: Item, m: nat, y: Item, n: nat)
    requires UniqueNames(sorted) && SortOf(ByScore, s, sorted) && limit <= |sorted|
    requires x in s && y in s && Annotated(x, m) && Annotated(y, n) && m < n <= MAX_INT
    ensures x.name in Doomed(sorted, limit) && y.phase != Running ==> y.name in Doomed(sorted, limit)
  {
    ScoreMeans(x, m);
    ScoreMeans(y, n);
    assert x in multiset(sorted) && y in multiset(sorted);
    var i :| 0 <= i < |sorted| && sorted[i] == x;
    var j :| 0 <= j < |sorted| && sorted[j] == y;
    assert j <= i ==> Rank(ByScore, sorted[j]) <= Rank(ByScore, sorted[i]);
    DoomedAt(sorted, limit, i);
    DoomedAt(sorted, limit, j);
  }

  // Stable sorting commutes with filtering.

  lemma InsertedLast(key: SortKey, r: seq<Item>, x: Item)
    requires forall y | y in r :: Rank(key, y) <= Rank(key, x)
    ensures Insert(key, r, x) == r + [x]
  {
  }

  lemma InsertedBefore(key: SortKey, r: seq<Item>, last: Item, x: Item)
    requires Rank(key, x) < Rank(key, last)
    ensures Insert(key, r + [last], x) == Insert(key, r, x) + [last]
  {
    assert (r + [last])[..|r|] == r;
  }

  lemma {:induction false} InsertCommutes(key: SortKey, r: seq<Item>, x: Item, names: set<string>)
    requires SortedBy(key, r)
    ensures Without(Insert(key, r, x), names)
         == if x.name in names then Without(r, names) else Insert(key, Without(r, names), x)
  {
    if r == [] || Rank(key, r[|r| - 1]) <= Rank(key, x) {
      WithoutAppend(r, x, names);
      forall y | y in Without(r, names)
        ensures Rank(key, y) <= Rank(key, x)
      {
        WithoutIs(r, names, y);
        var i :| 0 <= i < |r| && r[i] == y;
        assert i < |r| - 1 ==> Rank(key, r[i]) <= Rank(key, r[|r| - 1]);
      }
      InsertedLast(key, Without(r, names), x);
    } else {
      var front, last := r[..|r| - 1], r[|r| - 1];
      assert r == front + [last];
      InsertCommutes(key, front, x, names);
      WithoutAppend(Insert(key, front, x), last, names);
      WithoutAppend(front, last, names);
      InsertedBefore(key, Without(front, names), last, x);
    }
  }

  lemma {:induction false} StableSortCommutes(key: SortKey, s: seq<Item>, names: set<string>)
    ensures StableSort(key, Without(s, names)) == Without(StableSort(key, s), names)
  {
    if s != [] {
      var front, last := s[..|s| - 1], s[|s| - 1];
      StableSortCommutes(key, front, names);
      StableSortSorts(key, front);
      InsertCommutes(key, StableSort(key, front), last, names);
      if last.name !in names {
        assert (Without(front, names) + [last])[..|Without(front, names)|] == Without(front, names);
      }
    }
  }

  lemma SortTwiceSorts(s: seq<Item>)
    ensures SortOf(ByScore, s, SortTwice(s)) && ScoreThenNewest(SortTwice(s))
  {
    StableSortSorts(Newest, s);
    StableSortSorts(ByScore, StableSort(Newest, s));
    StableSecondPass(s, StableSort(Newest, s), SortTwice(s));
  }

  lemma PermutationKeepsNames(s: seq<Item>, r: seq<Item>)
    requires UniqueNames(s) && multiset(r) == multiset(s)
    ensures UniqueNames(r)
  {
    forall i, j | 0 <= i < j < |r|
      ensures r[i].name != r[j].name
    {
      assert r[i] in multiset(s) && r[j] in multiset(s);
      var p :| 0 <= p < |s| && s[p] == r[i];
      var q :| 0 <= q < |s| && s[q] == r[j];
      if p == q {
        TwiceIn(r, i, j);
        OnceIn(s, p);
      }
    }
  }

  lemma TwiceIn(r: seq<Item>, i: nat, j: nat)
    requires i < j < |r| && r[i] == r[j]
    ensures multiset(r)[r[i]] >= 2
  {
    assert r == r[..j] + [r[j]] + r[j + 1..];
    assert r[i] in r[..j];
    assert multiset(r) == multiset(r[..j]) + multiset{r[j]} + multiset(r[j + 1..]);
  }

  lemma OnceIn(s: seq<Item>, p: nat)
    requires UniqueNames(s) && p < |s|
    ensures multiset(s)[s[p]] == 1
  {
    assert s == s[..p] + [s[p]] + s[p + 1..];
    assert multiset(s) == multiset(s[..p]) + multiset{s[p]} + multiset(s[p + 1..]);
    assert s[p] !in s[..p] && s[p] !in s[p + 1..];
  }

  /** If sorting is stable and survivors are listed in their old order, a second cleanup of the
      survivors deletes nothing; it asks for another pass exactly if a Running operation was spared. */
  lemma SecondCleanup(s: seq<Item>, limit: nat)
    requires UniqueNames(s) && limit < |s|
    ensures |SortTwice(s)| == |s|
    ensures var sorted := SortTwice(s); var left := Without(s, Doomed(sorted, limit));
      && SortTwice(left) == Left(sorted, limit)
      && Doomed(SortTwice(left), limit) == {}
      && (|SortTwice(left)| > limit <==> exists i | limit <= i < |sorted| :: sorted[i].phase == Running)
  {
    var sorted := SortTwice(s);
    var names := Doomed(sorted, limit);
    StableSortCommutes(Newest, s, names);
    StableSortCommutes(ByScore, StableSort(Newest, s), names);
    SortTwiceSorts(s);
    PermutationKeepsNames(s, sorted);
    assert |multiset(sorted)| == |multiset(s)|;
    Survivors(sorted, limit);
    NothingMoreDoomed(sorted, limit);
  }

  lemma NothingMoreDoomed(sorted: seq<Item>, limit: nat)
    requires limit <= |sorted|
    ensures var left := Left(sorted, limit);
      && Doomed(left, limit) == {}
      && (|left| > limit <==> exists i | limit <= i < |sorted| :: sorted[i].phase == Running)
  {
    var beyond := sorted[limit..];
    RunningOnesAre(beyond);
    var left := sorted[..limit] + RunningOnes(beyond);
    forall i | limit <= i < |left|
      ensures left[i].phase == Running
    {
      assert left[i] in RunningOnes(beyond);
    }
    forall i | limit <= i < |sorted|
      ensures sorted[i] in beyond
    {
      assert beyond[i - limit] == sorted[i];
    }
  }

  /** The scores of a kept operation and of a spared one beyond the limit tie. */
  predicate TieAcross(sorted: seq<Item>, limit: nat) {
    exists i, j | 0 <= i < limit <= j < |sorted| ::
      sorted[i].phase != Running && sorted[j].phase == Running && Score(sorted[i]) == Score(sorted[j])
  }

  /** If sorting is not stable, a second cleanup of the survivors may delete more: it is sure not to
      exactly if no operation within the limit, Running ones aside, has the score of a Running one
      that was spared beyond it. */
  lemma SecondCleanupUnstable(sorted: seq<Item>, limit: nat)
    requires SortedBy(ByScore, sorted) && limit <= |sorted|
    ensures (forall r: seq<Item> :: SortOf(ByScore, Left(sorted, limit), r) ==> Doomed(r, limit) == {})
      <==> !TieAcross(sorted, limit)
  {
    if TieAcross(sorted, limit) {
      var r := DoomingSort(sorted, limit);
    } else {
      forall r: seq<Item> | SortOf(ByScore, Left(sorted, limit), r)
        ensures Doomed(r, limit) == {}
      {
        forall i | limit <= i < |r|
          ensures r[i].phase == Running
        {
          if r[i].phase != Running {
            MovedBeyondTies(sorted, limit, r, i);
          }
        }
      }
    }
  }

  lemma LeftSorted(sorted: seq<Item>, limit: nat)
    requires SortedBy(ByScore, sorted) && limit <= |sorted|
    ensures SortedBy(ByScore, Left(sorted, limit))
    ensures forall x, y | x in sorted[..limit] && y in sorted[limit..] :: Score(x) <= Score(y)
  {
    var beyond := sorted[limit..];
    forall x, y | x in sorted[..limit] && y in beyond
      ensures Score(x) <= Score(y)
    {
      var i :| 0 <= i < limit && sorted[i] == x;
      var j :| 0 <= j < |beyond| && beyond[j] == y;
      assert Rank(ByScore, sorted[i]) <= Rank(ByScore, sorted[limit + j]);
    }
    assert SortedBy(ByScore, beyond);
    RunningOnesSorted(beyond);
    RunningOnesAre(beyond);
    var left := Left(sorted, limit);
    forall i, j | 0 <= i < j < |left|
      ensures Rank(ByScore, left[i]) <= Rank(ByScore, left[j])
    {
      if i < limit <= j {
        assert left[i] in sorted[..limit] && left[j] in RunningOnes(beyond);
      }
    }
  }

  lemma {:induction false} RunningOnesSorted(s: seq<Item>)
    requires SortedBy(ByScore, s)
    ensures SortedBy(ByScore, RunningOnes(s))
  {
    if s != [] {
      var front, last := s[..|s| - 1], s[|s| - 1];
      RunningOnesSorted(front);
      RunningOnesAre(front);
      forall y | y in RunningOnes(front)
        ensures Rank(ByScore, y) <= Rank(ByScore, last)
      {
        var i :| 0 <= i < |front| && front[i] == y;
        assert Rank(ByScore, s[i]) <= Rank(ByScore, s[|s| - 1]);
      }
      SortedAppend(ByScore, RunningOnes(front), last);
    }
  }

  lemma DoomingSort(sorted: seq<Item>, limit: nat) returns (r: seq<Item>)
    requires SortedBy(ByScore, sorted) && limit <= |sorted| && TieAcross(sorted, limit)
    ensures SortOf(ByScore, Left(sorted, limit), r) && Doomed(r, limit) != {}
  {
    var i, j :| 0 <= i < limit <= j < |sorted|
      && sorted[i].phase != Running && sorted[j].phase == Running && Score(sorted[i]) == Score(sorted[j]);
    var left := Left(sorted, limit);
    LeftSorted(sorted, limit);
    var k := SparedAt(sorted, limit, j);
    SwapKeepsSorted(left, i, k);
    r := left[i := left[k]][k := left[i]];
    assert r[k].phase != Running;
    assert r[k].name in Doomed(r, limit);
  }

  lemma SparedAt(sorted: seq<Item>, limit: nat, j: nat) returns (k: nat)
    requires limit <= j < |sorted| && sorted[j].phase == Running
    ensures limit <= k < |Left(sorted, limit)| && Left(sorted, limit)[k] == sorted[j]
  {
    var beyond := sorted[limit..];
    RunningOnesAre(beyond);
    assert beyond[j - limit] == sorted[j];
    var m :| 0 <= m < |RunningOnes(beyond)| && RunningOnes(beyond)[m] == sorted[j];
    k := limit + m;
  }

  /** An operation that a sort of the survivors moves beyond the limit ties with a spared one. */
  lemma MovedBeyondTies(sorted: seq<Item>, limit: nat, r: seq<Item>, i: nat)
    requires SortedBy(ByScore, sorted) && limit <= |sorted|
    requires SortOf(ByScore, Left(sorted, limit), r) && limit <= i < |r| && r[i].phase != Running
    ensures TieAcross(sorted, limit)
  {
    var j := OneBeyond(r, i, sorted[..limit], RunningOnes(sorted[limit..]));
    var x, y := r[i], r[j];
    assert Rank(ByScore, y) <= Rank(ByScore, x);
    assert x in multiset(Left(sorted, limit));
    RunningOnesMember(sorted[limit..], x);
    RunningOnesMember(sorted[limit..], y);
    KeptScoresLower(sorted, limit, x, y);
    TieFound(sorted, limit, x, y);
  }

  lemma RunningOnesMember(s: seq<Item>, x: Item)
    ensures x in RunningOnes(s) <==> x in s && x.phase == Running
  {
    RunningOnesAre(s);
  }

  lemma KeptScoresLower(sorted: seq<Item>, limit: nat, x: Item, y: Item)
    requires SortedBy(ByScore, sorted) && limit <= |sorted| && x in sorted[..limit] && y in sorted[limit..]
    ensures Score(x) <= Score(y)
  {
    LeftSorted(sorted, limit);
  }

  lemma TieFound(sorted: seq<Item>, limit: nat, x: Item, y: Item)
    requires limit <= |sorted| && x in sorted[..limit] && y in sorted[limit..]
    requires x.phase != Running && y.phase == Running && Score(x) == Score(y)
    ensures TieAcross(sorted, limit)
  {
    var p :| 0 <= p < limit && sorted[p] == x;
    var q :| 0 <= q < |sorted[limit..]| && sorted[limit..][q] == y;
    assert sorted[limit + q] == y;
  }

  /** More elements than `kept` has cannot all come from `kept`. */
  lemma OneBeyond(r: seq<Item>, i: nat, kept: seq<Item>, spared: seq<Item>) returns (j: nat)
    requires multiset(r) == multiset(kept + spared) && |kept| <= i < |r|
    ensures j <= i && r[j] in spared
  {
    if forall j | 0 <= j <= i :: r[j] !in spared {
      AllFromKept(r, i, kept, spared);
    }
    j :| 0 <= j <= i && r[j] in spared;
  }

  lemma AllFromKept(r: seq<Item>, i: nat, kept: seq<Item>, spared: seq<Item>)
    requires multiset(r) == multiset(kept + spared) && i < |r|
    requires forall j | 0 <= j <= i :: r[j] !in spared
    ensures i < |kept|
  {
    var most := r[..i + 1];
    assert r == most + r[i + 1..];
    forall x
      ensures multiset(most)[x] <= multiset(kept)[x]
    {
      assert multiset(r)[x] == multiset(most)[x] + multiset(r[i + 1..])[x];
      assert multiset(kept + spared)[x] == multiset(kept)[x] + multiset(spared)[x];
      if x in most {
        assert x !in spared;
      }
    }
    assert multiset(kept) == multiset(most) + (multiset(kept) - multiset(most));
    assert |multiset(kept)| >= |multiset(most)|;
  }

  lemma {:induction false} RunningOnesAre(s: seq<Item>)
    ensures forall x :: x in RunningOnes(s) <==> x in s && x.phase == Running
    ensures RunningOnes(s) != [] <==> exists x :: x in s && x.phase == Running
  {
    if s != [] {
      RunningOnesAre(s[..|s| - 1]);
      assert s == s[..|s| - 1] + [s[|s| - 1]];
    }
  }
  // The cleanup.

  /** The operations of one cluster on the server, in the order in which they are listed. */
  class OpsServer {
    const reliable: bool  // calls do not fail
    var items: seq<Item>

    constructor (items: seq<Item>, reliable: bool)
      ensures this.items == items && this.reliable == reliable
    {
      this.items, this.reliable := items, reliable;
    }

    method List() returns (list: Option<seq<Item>>)
      ensures list.Some? ==> list.value == items
      ensures reliable ==> list.Some?
    {
      var broken: bool := *;
      return if broken && !reliable then None else Some(items);
    }

    method Delete(name: string) returns (ok: bool)
      modifies this
      ensures items == if ok then Without(old(items), {name}) else old(items)
      ensures reliable ==> ok
    {
      var broken: bool := *;
      if broken && !reliable {
        return false;
      }
      items := Without(items, {name});
      return true;
    }
  }

  /** The deletions; their errors are dropped. `gone` are the ones that succeeded. */
  method DeleteExcess(server: OpsServer, sorted: seq<Item>, limit: nat) returns (ghost gone: set<string>)
    requires limit <= |sorted|
    modifies server
    ensures gone <= Doomed(sorted, limit) && (server.reliable ==> gone == Doomed(sorted, limit))
    ensures server.items == Without(old(server.items), gone)
  {
    var excess := sorted[limit..];
    gone := {};
    WithoutNone(server.items);
    for i := 0 to |excess|
      invariant gone <= Doomed(sorted[..limit + i], limit)
      invariant server.reliable ==> gone == Doomed(sorted[..limit + i], limit)
      invariant server.items == Without(old(server.items), gone)
    {
      var item := excess[i];
      DoomedGrows(sorted, limit, limit + i);
      if item.phase == Running {
        continue;
      }
      WithoutTwice(old(server.items), gone, {item.name});
      var ok := server.Delete(item.name);
      if ok {
        gone := gone + {item.name};
      }
    }
    assert sorted[..limit + |excess|] == sorted;
  }

  lemma DoomedGrows(sorted: seq<Item>, limit: nat, n: nat)
    requires limit <= n < |sorted|
    ensures Doomed(sorted[..n + 1], limit)
         == Doomed(sorted[..n], limit) + if sorted[n].phase == Running then {} else {sorted[n].name}
  {
    var more, less := sorted[..n + 1], sorted[..n];
    forall name
      ensures name in Doomed(more, limit)
        <==> name in Doomed(less, limit) || (sorted[n].phase != Running && name == sorted[n].name)
    {
      if name in Doomed(less, limit) {
        var i :| limit <= i < |less| && less[i].phase != Running && less[i].name == name;
        assert more[i] == less[i];
      }
      if name in Doomed(more, limit) {
        var i :| limit <= i < |more| && more[i].phase != Running && more[i].name == name;
        assert i < n ==> less[i] == more[i];
      }
      assert more[n] == sorted[n];
    }
  }

  /** `CleanExcessClusterOps`. `sorted` is the order that the two passes came to. */
  method CleanExcessClusterOps(server: OpsServer, limit: nat, stableFirst: bool, stableSecond: bool)
    returns (again: bool, err: bool, ghost sorted: seq<Item>, ghost gone: set<string>)
    modifies server
    ensures server.reliable ==> !err
    ensures err ==> !again
    ensures !err ==> (again <==> |old(server.items)| > limit)
    ensures !again ==> server.items == old(server.items)
    ensures again ==> SortOf(ByScore, old(server.items), sorted) && |sorted| > limit
    ensures again && stableSecond ==> ScoreThenNewest(sorted)
    ensures again && stableFirst && stableSecond ==> sorted == SortTwice(old(server.items))
    ensures again ==> gone <= Doomed(sorted, limit) && server.items == Without(old(server.items), gone)
    ensures again && server.reliable ==> gone == Doomed(sorted, limit)
  {
    sorted, gone := [], {};
    var list := server.List();
    if list.None? {
      return false, true, sorted, gone;
    }
    if |list.value| <= limit {
      return false, false, sorted, gone;
    }
    var items := list.value;
    var a := new Item[|items|](i requires 0 <= i < |items| => items[i]);
    assert a[..] == items;
    SortClusterOperationsByCreation(a, stableFirst, stableSecond);
    sorted := a[..];
    gone := DeleteExcess(server, a[..], limit);
    return true, false, sorted, gone;
  }

  /** Whatever deletions failed, the Running operations and the first `limit` of the sorted ones are
      still there, so at least one is. */
  lemma CleanupKeeps(s: seq<Item>, sorted: seq<Item>, limit: nat, gone: set<string>, i: nat)
    requires UniqueNames(s) && multiset(sorted) == multiset(s) && i < |sorted|
    requires gone <= Doomed(sorted, limit) && (i < limit || sorted[i].phase == Running)
    ensures sorted[i] in Without(s, gone)
  {
    PermutationKeepsNames(s, sorted);
    DoomedAt(sorted, limit, i);
    assert sorted[i] in multiset(s);
    WithoutIs(s, gone, sorted[i]);
  }

  /** If all deletions succeed, the survivors are the first `limit` and the Running ones beyond. */
  lemma CleanupLeaves(s: seq<Item>, sorted: seq<Item>, limit: nat)
    requires UniqueNames(s) && multiset(sorted) == multiset(s) && limit <= |sorted|
    ensures multiset(Without(s, Doomed(sorted, limit))) == multiset(Left(sorted, limit))
  {
    PermutationKeepsNames(s, sorted);
    Survivors(sorted, limit);
    var names := Doomed(sorted, limit);
    forall x
      ensures multiset(Without(s, names))[x] == multiset(Without(sorted, names))[x]
    {
      WithoutCounts(s, names, x);
      WithoutCounts(sorted, names, x);
    }
  }

  lemma {:induction false} WithoutCounts(s: seq<Item>, names: set<string>, x: Item)
    ensures multiset(Without(s, names))[x] == if x.name in names then 0 else multiset(s)[x]
  {
    if s != [] {
      WithoutCounts(s[..|s| - 1], names, x);
      assert s == s[..|s| - 1] + [s[|s| - 1]];
    }
  }
}
