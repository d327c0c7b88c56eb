/**
 * The X-Fi resource managers: a bitmap of indices handed out as contiguous runs, or one by one to objects
 * that give all of them back if they cannot have enough.
 */
module Resource {

  // ---------------------------------------------------------------- free indices

  /** The indices `i .. i + n`. */
  function Span(i: nat, n: nat): (s: set<nat>)
    ensures forall k :: k in s <==> i <= k < i + n
    ensures |s| == n
  {
    if n == 0 then {} else Span(i, n - 1) + {i + n - 1}
  }

  predicate FreeRun(used: set<nat>, amount: nat, i: nat, n: nat) {
    i + n <= amount && forall k: nat :: i <= k < i + n ==> k !in used
  }

  /** The first free run of `n` indices that starts at or after `i`; `amount` if there is none. */
  function FirstRun(used: set<nat>, amount: nat, n: nat, i: nat): (r: nat)
    requires n > 0 && i <= amount
    ensures i <= r <= amount
    ensures r < amount ==> FreeRun(used, amount, r, n)
    ensures forall j: nat :: i <= j < r ==> !FreeRun(used, amount, j, n)
    decreases amount - i
  {
    if i == amount || FreeRun(used, amount, i, n) then i else FirstRun(used, amount, n, i + 1)
  }

  /** The lowest free run is what a search has found when no earlier one exists. */
  lemma FirstRunIs(used: set<nat>, amount: nat, n: nat, r: nat)
    requires n > 0 && r < amount && FreeRun(used, amount, r, n)
    requires forall j: nat :: j < r ==> !FreeRun(used, amount, j, n)
    ensures FirstRun(used, amount, n, 0) == r
  {
  }

  lemma NoRunIs(used: set<nat>, amount: nat, n: nat)
    requires n > 0 && forall j: nat :: j < amount ==> !FreeRun(used, amount, j, n)
    ensures FirstRun(used, amount, n, 0) == amount
  {
  }

  lemma SubsetSize(a: set<nat>, b: set<nat>)
    requires a <= b
    ensures |a| <= |b|
  {
    assert b == a + (b - a);
  }

  predicate Within(used: set<nat>, amount: nat) { forall k :: k in used ==> k < amount }

  lemma WithinSize(used: set<nat>, amount: nat)
    requires Within(used, amount)
    ensures |used| <= amount
  {
    assert used <= Span(0, amount);
    SubsetSize(used, Span(0, amount));
  }

  /** A free run is no longer than what is free at all. */
  lemma RunNeedsSpace(used: set<nat>, amount: nat, i: nat, n: nat)
    requires Within(used, amount) && FreeRun(used, amount, i, n)
    ensures |used + Span(i, n)| == |used| + n <= amount && Within(used + Span(i, n), amount)
  {
    assert used * Span(i, n) == {};
    WithinSize(used + Span(i, n), amount);
  }

  /** While not all indices are used, one is free. */
  lemma SomethingIsFree(used: set<nat>, amount: nat)
    requires Within(used, amount)
    ensures |used| < amount <==> FirstRun(used, amount, 1, 0) < amount
  {
    var r := FirstRun(used, amount, 1, 0);
    if r < amount {
      RunNeedsSpace(used, amount, r, 1);
    } else {
      forall k: nat | k < amount
        ensures k in used
      {
        assert !FreeRun(used, amount, k, 1);
      }
      assert used == Span(0, amount);
    }
  }

  // ---------------------------------------------------------------- bits and bytes

  function MaskOf(k: nat): (m: bv8)
    requires k < 8
  {
    if k == 0 then 1 else if k == 1 then 2 else if k == 2 then 4 else if k == 3 then 8
    else if k == 4 then 16 else if k == 5 then 32 else if k == 6 then 64 else 128
  }

  /** Each mask is one bit, and index 0 is the lowest. */
  lemma MaskIsShift(k: nat)
    requires k < 8
    ensures MaskOf(k) == (1 as bv8) << k
  {
  }

  predicate Bit(b: bv8, k: nat)
    requires k < 8
  {
    b & MaskOf(k) != 0
  }

  function WithBit(b: bv8, k: nat): (r: bv8)
    requires k < 8
  {
    b | MaskOf(k)
  }

  function WithoutBit(b: bv8, k: nat): (r: bv8)
    requires k < 8
  {
    b & !MaskOf(k)
  }

  lemma MaskSets(b: bv8, k: nat, j: nat)
    requires k < 8 && j < 8
    ensures Bit(WithBit(b, k), j) <==> j == k || Bit(b, j)
  {
    MasksDiffer(k, j);
    OrKeeps(b, MaskOf(k), MaskOf(j));
  }

  lemma OrKeeps(b: bv8, m: bv8, p: bv8)
    ensures m & p == 0 ==> (b | m) & p == b & p
    ensures m == p ==> (b | m) & p == p
  {
  }

  lemma AndKeeps(b: bv8, m: bv8, p: bv8)
    ensures m & p == 0 ==> (b & !m) & p == b & p
    ensures m == p ==> (b & !m) & p == 0
  {
  }

  lemma MaskClears(b: bv8, k: nat, j: nat)
    requires k < 8 && j < 8
    ensures Bit(WithoutBit(b, k), j) <==> j != k && Bit(b, j)
  {
    MasksDiffer(k, j);
    AndKeeps(b, MaskOf(k), MaskOf(j));
  }

  lemma MasksDiffer(k: nat, j: nat)
    requires k < 8 && j < 8
    ensures MaskOf(k) & MaskOf(j) == if k == j then MaskOf(k) else 0
    ensures MaskOf(k) != 0
  {
  }

  /** Whether index `i` is marked in the bitmap. */
  predicate Marked(rscs: seq<bv8>, i: nat)
    requires i / 8 < |rscs|
  {
    Bit(rscs[i / 8], i % 8)
  }

  /** The bitmap of `amount` indices marks exactly the used ones. */
  ghost predicate Marks(rscs: seq<bv8>, amount: nat, used: set<nat>) {
    && amount <= 8 * |rscs| && Within(used, amount)
    && forall i: nat :: i < amount ==> (i in used <==> Marked(rscs, i))
  }

  lemma MarkedIff(rscs: seq<bv8>, amount: nat, used: set<nat>, i: nat)
    requires Marks(rscs, amount, used) && i < amount
    ensures i / 8 < |rscs| && (rscs[i / 8] & MaskOf(i % 8) != 0 <==> i in used)
  {
    assert i in used <==> Marked(rscs, i);
  }

  lemma SameByte(i: nat, j: nat)
    requires i / 8 == j / 8 && i % 8 == j % 8
    ensures i == j
  {
  }

  lemma MarkedElsewhere(rscs: seq<bv8>, i: nat, j: nat, m: bv8)
    requires i / 8 < |rscs| && j / 8 < |rscs| && i / 8 != j / 8
    ensures Marked(rscs[i / 8 := m], j) == Marked(rscs, j)
  {
  }

  lemma MarkedAfterSet(rscs: seq<bv8>, i: nat, j: nat)
    requires i / 8 < |rscs| && j / 8 < |rscs|
    ensures Marked(rscs[i / 8 := WithBit(rscs[i / 8], i % 8)], j) <==> j == i || Marked(rscs, j)
  {
    hide Bit, MaskOf, WithBit, WithoutBit;
    if i / 8 == j / 8 {
      MaskSets(rscs[i / 8], i % 8, j % 8);
      if i % 8 == j % 8 {
        SameByte(i, j);
      }
    } else {
      MarkedElsewhere(rscs, i, j, WithBit(rscs[i / 8], i % 8));
    }
  }

  lemma MarkedAfterClear(rscs: seq<bv8>, i: nat, j: nat)
    requires i / 8 < |rscs| && j / 8 < |rscs|
    ensures Marked(rscs[i / 8 := WithoutBit(rscs[i / 8], i % 8)], j) <==> j != i && Marked(rscs, j)
  {
    hide Bit, MaskOf, WithBit, WithoutBit;
    if i / 8 == j / 8 {
      MaskClears(rscs[i / 8], i % 8, j % 8);
      if i % 8 == j % 8 {
        SameByte(i, j);
      }
    } else {
      MarkedElsewhere(rscs, i, j, WithoutBit(rscs[i / 8], i % 8));
    }
  }

  lemma MarkOne(rscs: seq<bv8>, amount: nat, used: set<nat>, i: nat)
    requires Marks(rscs, amount, used) && i < amount
    ensures Marks(rscs[i / 8 := WithBit(rscs[i / 8], i % 8)], amount, used + {i})
  {
    hide Bit, MaskOf, WithBit, WithoutBit, Marked;
    forall j: nat | j < amount
      ensures j in used + {i} <==> Marked(rscs[i / 8 := WithBit(rscs[i / 8], i % 8)], j)
    {
      MarkedAfterSet(rscs, i, j);
    }
  }

  lemma ClearOne(rscs: seq<bv8>, amount: nat, used: set<nat>, i: nat)
    requires Marks(rscs, amount, used) && i < amount
    ensures Marks(rscs[i / 8 := WithoutBit(rscs[i / 8], i % 8)], amount, used - {i})
  {
    hide Bit, MaskOf, WithBit, WithoutBit, Marked;
    forall j: nat | j < amount
      ensures j in used - {i} <==> Marked(rscs[i / 8 := WithoutBit(rscs[i / 8], i % 8)], j)
    {
      MarkedAfterClear(rscs, i, j);
    }
  }

  // ---------------------------------------------------------------- what the managers do

  /** The `m` lowest free indices, in ascending order. */
  function Lowest(used: set<nat>, amount: nat, m: nat): (idx: seq<nat>)
    requires Within(used, amount) && m <= amount - |used|
    ensures |idx| == m
    decreases m
  {
    if m == 0 then []
    else
      SomethingIsFree(used, amount);
      var i := FirstRun(used, amount, 1, 0);
      RunNeedsSpace(used, amount, i, 1);
      assert used + Span(i, 1) == used + {i};
      [i] + Lowest(used + {i}, amount, m - 1)
  }

  function Elements(idx: seq<nat>): (s: set<nat>) { set k | k in idx }

  lemma ElementsOfPrefix(idx: seq<nat>, n: nat)
    requires n < |idx|
    ensures Elements(idx[..n + 1]) == Elements(idx[..n]) + {idx[n]}
  {
    assert idx[..n + 1] == idx[..n] + [idx[n]];
  }

  lemma ElementsFrom(idx: seq<nat>, i: nat, n: nat)
    requires i < n <= |idx|
    ensures Elements(idx[i..n]) == Elements(idx[i + 1..n]) + {idx[i]}
  {
    assert idx[i..n] == [idx[i]] + idx[i + 1..n];
  }

  lemma ElementsOfNone(idx: seq<nat>)
    requires idx == []
    ensures Elements(idx) == {}
  {
  }

  predicate Ascending(idx: seq<nat>) { forall i, j :: 0 <= i < j < |idx| ==> idx[i] < idx[j] }

  /** They are free, in range and ascending, hence distinct; and every free index below one of them is one of them. */
  lemma {:induction false} LowestAreFree(used: set<nat>, amount: nat, m: nat)
    requires Within(used, amount) && m <= amount - |used|
    ensures var idx := Lowest(used, amount, m);
            && Ascending(idx) && (forall k :: 0 <= k < m ==> idx[k] < amount && idx[k] !in used)
            && (forall k: nat, j :: 0 <= j < m && k < idx[j] && k !in used ==> k in idx)
    decreases m
  {
    if m > 0 {
      SomethingIsFree(used, amount);
      var i := FirstRun(used, amount, 1, 0);
      RunNeedsSpace(used, amount, i, 1);
      assert used + Span(i, 1) == used + {i};
      LowestAreFree(used + {i}, amount, m - 1);
      var rest := Lowest(used + {i}, amount, m - 1);
      var idx := Lowest(used, amount, m);
      assert idx == [i] + rest;
      forall k: nat | k < i
        ensures k in used
      {
        assert !FreeRun(used, amount, k, 1);
      }
    }
  }

  lemma LowestSize(used: set<nat>, amount: nat, m: nat)
    requires Within(used, amount) && m <= amount - |used|
    ensures var s := Elements(Lowest(used, amount, m));
            |s| == m && s !! used && |used + s| == |used| + m && Within(used + s, amount)
  {
    var idx := Lowest(used, amount, m);
    LowestAreFree(used, amount, m);
    ElementsSize(idx, m);
    assert idx[..m] == idx;
    forall k | k in Elements(idx)
      ensures k !in used && k < amount
    {
      var j :| 0 <= j < m && idx[j] == k;
    }
  }

  lemma {:induction false} ElementsSize(idx: seq<nat>, n: nat)
    requires Ascending(idx) && n <= |idx|
    ensures |Elements(idx[..n])| == n
  {
    hide Elements;
    if n == 0 {
      ElementsOfNone(idx[..0]);
    } else {
      ElementsSize(idx, n - 1);
      ElementsOfPrefix(idx, n - 1);
      LastIsNew(idx, n - 1);
    }
  }

  lemma LastIsNew(idx: seq<nat>, n: nat)
    requires Ascending(idx) && n < |idx|
    ensures idx[n] !in Elements(idx[..n])
  {
  }

  // ---------------------------------------------------------------- live objects

  /** A manager with the index sets of the objects that are alive. */
  datatype Pool = Pool(amount: nat, avail: nat, used: set<nat>, live: seq<set<nat>>)

  predicate Apart(live: seq<set<nat>>) { forall a, b :: 0 <= a < b < |live| ==> live[a] !! live[b] }

  /** The live objects' indices are the used ones. */
  predicate Covers(live: seq<set<nat>>, used: set<nat>) {
    && (forall a :: 0 <= a < |live| ==> live[a] <= used)
    && (forall i :: i in used ==> exists a :: 0 <= a < |live| && i in live[a])
  }

  /** Live objects hold disjoint indices, exactly theirs are used, and the count of free ones is right. */
  predicate PoolOk(p: Pool) {
    Within(p.used, p.amount) && p.avail + |p.used| == p.amount && Apart(p.live) && Covers(p.live, p.used)
  }

  function Given(p: Pool, s: set<nat>): (p': Pool)
    requires |s| <= p.avail
  {
    Pool(p.amount, p.avail - |s|, p.used + s, p.live + [s])
  }

  /** An object that needs a contiguous run of `n` indices; it may fail to be set up after it got them. */
  function TakeRun(p: Pool, n: nat, setUp: bool): (p': Pool) {
    if n == 0 || n > p.avail || FirstRun(p.used, p.amount, n, 0) == p.amount || !setUp then p
    else Given(p, Span(FirstRun(p.used, p.amount, n, 0), n))
  }

  /** An object that needs `m` indices, wherever they are. */
  function TakeEach(p: Pool, m: nat, setUp: bool): (p': Pool)
    requires PoolOk(p)
  {
    if m > p.avail || !setUp then p
    else
      LowestSize(p.used, p.amount, m);
      Given(p, Elements(Lowest(p.used, p.amount, m)))
  }

  function GiveBack(p: Pool, k: nat): (p': Pool)
    requires k < |p.live|
  {
    Pool(p.amount, p.avail + |p.live[k]|, p.used - p.live[k], p.live[..k] + p.live[k + 1..])
  }

  lemma GivenApart(live: seq<set<nat>>, used: set<nat>, s: set<nat>)
    requires Apart(live) && Covers(live, used) && s !! used
    ensures Apart(live + [s])
  {
  }

  lemma GivenCovers(live: seq<set<nat>>, used: set<nat>, s: set<nat>)
    requires Covers(live, used)
    ensures Covers(live + [s], used + s)
  {
    forall i | i in used + s
      ensures exists a :: 0 <= a < |live + [s]| && i in (live + [s])[a]
    {
      if i in s {
        assert i in (live + [s])[|live|];
      } else {
        var a :| 0 <= a < |live| && i in live[a];
        assert i in (live + [s])[a];
      }
    }
  }

  lemma GivenKeepsOk(p: Pool, s: set<nat>)
    requires PoolOk(p) && s !! p.used && Within(s, p.amount) && |s| <= p.avail
    ensures PoolOk(Given(p, s))
  {
    hide Apart, Covers;
    GivenApart(p.live, p.used, s);
    GivenCovers(p.live, p.used, s);
  }

  /** A request that is set up fails only for lack of what it asks for: a free run, or free indices enough. */
  lemma TakesIff(p: Pool, n: nat)
    requires PoolOk(p)
    ensures TakeRun(p, n, true) != p <==> exists i: nat :: n > 0 && FreeRun(p.used, p.amount, i, n)
    ensures TakeEach(p, n, true) != p <==> n <= p.amount - |p.used|
  {
    if n > 0 {
      if i: nat :| FreeRun(p.used, p.amount, i, n) {
        RunNeedsSpace(p.used, p.amount, i, n);
      }
      if FirstRun(p.used, p.amount, n, 0) < p.amount {
        assert FreeRun(p.used, p.amount, FirstRun(p.used, p.amount, n, 0), n);
      }
    }
    hide FirstRun, Lowest, Elements, FreeRun, PoolOk, Span;
  }

  lemma TakeKeepsOk(p: Pool, n: nat, setUp: bool)
    requires PoolOk(p)
    ensures PoolOk(TakeRun(p, n, setUp)) && PoolOk(TakeEach(p, n, setUp))
  {
    hide Given;
    if TakeRun(p, n, setUp) != p {
      var r := FirstRun(p.used, p.amount, n, 0);
      RunNeedsSpace(p.used, p.amount, r, n);
      GivenKeepsOk(p, Span(r, n));
    }
    if TakeEach(p, n, setUp) != p {
      LowestSize(p.used, p.amount, n);
      GivenKeepsOk(p, Elements(Lowest(p.used, p.amount, n)));
    }
  }

  lemma BackApart(live: seq<set<nat>>, k: nat)
    requires Apart(live) && k < |live|
    ensures Apart(live[..k] + live[k + 1..])
  {
    var r := live[..k] + live[k + 1..];
    forall a, b | 0 <= a < b < |r|
      ensures r[a] !! r[b]
    {
      assert live[if a < k then a else a + 1] !! live[if b < k then b else b + 1];
    }
  }

  lemma ApartAt(live: seq<set<nat>>, a: nat, b: nat)
    requires Apart(live) && a < |live| && b < |live| && a != b
    ensures live[a] !! live[b]
  {
    assert live[if a < b then a else b] !! live[if a < b then b else a];
  }

  lemma BackCovers(live: seq<set<nat>>, used: set<nat>, k: nat)
    requires Apart(live) && Covers(live, used) && k < |live|
    ensures Covers(live[..k] + live[k + 1..], used - live[k])
  {
    hide Apart;
    var r := live[..k] + live[k + 1..];
    forall i | i in used - live[k]
      ensures exists a :: 0 <= a < |r| && i in r[a]
    {
      var a :| 0 <= a < |live| && i in live[a];
      assert i in r[if a < k then a else a - 1];
    }
    forall a | 0 <= a < |r|
      ensures r[a] <= used - live[k]
    {
      ApartAt(live, if a < k then a else a + 1, k);
    }
  }

  lemma GiveBackKeepsOk(p: Pool, k: nat)
    requires PoolOk(p) && k < |p.live|
    ensures PoolOk(GiveBack(p, k))
  {
    BackApart(p.live, k);
    BackCovers(p.live, p.used, k);
    assert p.live[k] <= p.used;
    SubsetDifference(p.used, p.live[k]);
    hide Apart, Covers;
  }

  lemma SubsetDifference(a: set<nat>, b: set<nat>)
    requires b <= a
    ensures |a - b| == |a| - |b|
  {
    assert a == b + (a - b);
  }

  /** Giving back what was just taken restores the manager exactly. */
  lemma PutUndoesGet(p: Pool, n: nat, setUp: bool)
    requires PoolOk(p)
    ensures TakeRun(p, n, setUp) != p ==> GiveBack(TakeRun(p, n, setUp), |p.live|) == p
    ensures TakeEach(p, n, setUp) != p ==> GiveBack(TakeEach(p, n, setUp), |p.live|) == p
  {
    hide Given;
    if TakeRun(p, n, setUp) != p {
      GiveBackGiven(p, Span(FirstRun(p.used, p.amount, n, 0), n));
    }
    if TakeEach(p, n, setUp) != p {
      LowestSize(p.used, p.amount, n);
      GiveBackGiven(p, Elements(Lowest(p.used, p.amount, n)));
    }
  }

  lemma GiveBackGiven(p: Pool, s: set<nat>)
    requires |s| <= p.avail && s !! p.used
    ensures GiveBack(Given(p, s), |p.live|) == p
  {
    assert Given(p, s).live[..|p.live|] == p.live;
  }

  datatype Event = Run(n: nat, setUp: bool) | Each(m: nat, setUp: bool) | Back(k: nat)

  /** Every run of takes and give-backs, the latter of live objects, keeps the pool right. */
  function Runs(p: Pool, es: seq<Event>): (p': Pool)
    requires PoolOk(p)
    ensures PoolOk(p') && p'.amount == p.amount
  {
    if es == [] then p
    else
      var q, e := Runs(p, es[..|es| - 1]), es[|es| - 1];
      match e
      case Run(n, setUp) => TakeKeepsOk(q, n, setUp); TakeRun(q, n, setUp)
      case Each(m, setUp) => TakeKeepsOk(q, m, setUp); TakeEach(q, m, setUp)
      case Back(k) => if k < |q.live| then GiveBackKeepsOk(q, k); GiveBack(q, k) else q
  }

  // ---------------------------------------------------------------- the driver's object

  lemma NoRunThrough(used: set<nat>, amount: nat, multi: nat, i: nat)
    requires i in used
    ensures forall j: nat :: j <= i < j + multi ==> !FreeRun(used, amount, j, multi)
  {
  }

  lemma NoRunEnding(used: set<nat>, amount: nat, multi: nat, i: nat, run: nat)
    requires run <= i && run + 1 < multi && (run < i ==> i - run - 1 in used)
    ensures forall j: nat :: j + multi == i + 1 ==> !FreeRun(used, amount, j, multi)
  {
  }

  /** No run ends before `i`, and the last `run` indices below `i`, but not the one in front of them, are free. */
  ghost predicate Searched(used: set<nat>, amount: nat, multi: nat, i: nat, run: nat) {
    && run <= i && (run < i ==> i - run - 1 in used)
    && (forall k: nat :: i - run <= k < i ==> k !in used)
    && (multi > 0 ==> forall j: nat :: j + multi <= i ==> !FreeRun(used, amount, j, multi))
  }

  lemma NothingSearched(used: set<nat>, amount: nat, multi: nat)
    ensures Searched(used, amount, multi, 0, 0)
  {
  }

  lemma Blocked(used: set<nat>, amount: nat, multi: nat, i: nat, run: nat)
    requires Searched(used, amount, multi, i, run) && i in used
    ensures Searched(used, amount, multi, i + 1, 0)
  {
    NoRunThrough(used, amount, multi, i);
    hide FreeRun;
  }

  lemma OneLonger(used: set<nat>, amount: nat, multi: nat, i: nat, run: nat)
    requires Searched(used, amount, multi, i, run) && i !in used && (multi > 0 ==> run + 1 < multi)
    ensures Searched(used, amount, multi, i + 1, run + 1)
  {
    if multi > 0 {
      NoRunEnding(used, amount, multi, i, run);
    }
    hide FreeRun;
  }

  lemma Found(used: set<nat>, amount: nat, multi: nat, i: nat, run: nat)
    requires multi == run + 1 && i < amount && i !in used && Searched(used, amount, multi, i, run)
    ensures run <= i && FirstRun(used, amount, multi, 0) == i - run
  {
    FirstRunIs(used, amount, multi, i - run);
  }

  lemma NotFound(used: set<nat>, amount: nat, multi: nat, run: nat)
    requires multi > 0 && Searched(used, amount, multi, amount, run)
    ensures FirstRun(used, amount, multi, 0) == amount
  {
    NoRunIs(used, amount, multi);
  }

  lemma TooMany(used: set<nat>, amount: nat, n: nat)
    requires Within(used, amount) && n > amount - |used| && n > 0
    ensures FirstRun(used, amount, n, 0) == amount
  {
    if FirstRun(used, amount, n, 0) < amount {
      RunNeedsSpace(used, amount, FirstRun(used, amount, n, 0), n);
    }
  }

  lemma FoundIsFree(used: set<nat>, amount: nat, n: nat)
    requires Within(used, amount) && n > 0 && FirstRun(used, amount, n, 0) < amount
    ensures |used + Span(FirstRun(used, amount, n, 0), n)| == |used| + n
  {
    RunNeedsSpace(used, amount, FirstRun(used, amount, n, 0), n);
  }

  /** Taking any one free index takes the first of the lowest and leaves the others. */
  lemma TakeLowest(used: set<nat>, amount: nat, m: nat)
    requires Within(used, amount) && m <= amount - |used|
    ensures FirstRun(used, amount, 1, 0) == amount <==> |used| == amount
    ensures |used| < amount ==>
      var one := FirstRun(used, amount, 1, 0);
      && Span(one, 1) == {one} && |used + {one}| == |used| + 1 && Within(used + {one}, amount)
      && (m > 0 ==> Lowest(used, amount, m) == [one] + Lowest(used + {one}, amount, m - 1))
  {
    WithinSize(used, amount);
    SomethingIsFree(used, amount);
    if |used| < amount {
      var one := FirstRun(used, amount, 1, 0);
      RunNeedsSpace(used, amount, one, 1);
      assert Span(one, 1) == {one};
    }
  }

  /** `idx` of the indices `all` that an object can get are taken, and the others are still to be had. */
  ghost predicate Taken(used: set<nat>, was: set<nat>, amount: nat, idx: seq<nat>, all: seq<nat>) {
    && Within(used, amount) && used == was + Elements(idx) && |idx| <= |all|
    && |all| - |idx| <= amount - |used|
    && idx + Lowest(used, amount, |all| - |idx|) == all
  }

  lemma TakenNone(used: set<nat>, amount: nat, m: nat)
    requires Within(used, amount) && m <= amount - |used|
    ensures Taken(used, used, amount, [], Lowest(used, amount, m))
  {
    ElementsOfNone([]);
  }

  /** Taking any one index takes the next of those that can be had. */
  lemma TakenNext(used: set<nat>, was: set<nat>, amount: nat, idx: seq<nat>, all: seq<nat>)
    requires Taken(used, was, amount, idx, all) && |idx| < |all|
    ensures var one := FirstRun(used, amount, 1, 0);
            && one < amount && one == all[|idx|] && Span(one, 1) == {one} && |used + {one}| == |used| + 1
            && Taken(used + {one}, was, amount, idx + [one], all)
  {
    hide Within, Elements, Lowest, FirstRun;
    var m := |all| - |idx|;
    TakeLowest(used, amount, m);
    var one := FirstRun(used, amount, 1, 0);
    var others := Lowest(used + {one}, amount, m - 1);
    assert all == idx + ([one] + others) == (idx + [one]) + others;
    ElementsOfPrefix(idx + [one], |idx|);
    assert (idx + [one])[..|idx|] == idx && (idx + [one])[..|idx| + 1] == idx + [one];
  }

  lemma TakenAll(used: set<nat>, was: set<nat>, amount: nat, idx: seq<nat>, all: seq<nat>)
    requires Taken(used, was, amount, idx, all) && |idx| == |all|
    ensures idx == all && used == was + Elements(all)
  {
  }

  class Manager {
    const amount: nat
    const rscs: array<bv8>
    var avail: nat
    ghost var used: set<nat>
    ghost var live: seq<set<nat>>

    ghost predicate Valid()
      reads this, rscs
    {
      Marks(rscs[..], amount, used) && avail + |used| == amount
    }

    ghost function Abs(): (p: Pool)
      reads this
    {
      Pool(amount, avail, used, live)
    }

    /** Between requests: exactly the live objects' indices are marked, and the count is right. */
    ghost predicate Right()
      reads this, rscs
    {
      Valid() && PoolOk(Abs())
    }

    constructor (amount: nat)
      ensures Right() && Abs() == Pool(amount, amount, {}, []) && fresh(rscs)
    {
      this.amount, avail, used, live := amount, amount, {}, [];
      rscs := new bv8[(amount + 7) / 8](_ => 0);
    }

    /** Sets the bit of one index. */
    method Mark(i: nat)
      requires Marks(rscs[..], amount, used) && i < amount
      modifies rscs, this`used
      ensures Marks(rscs[..], amount, used) && used == old(used) + {i}
    {
      assert i / 8 < rscs.Length;
      hide Bit, MaskOf, WithBit, WithoutBit, Marked, Marks;
      MarkOne(rscs[..], amount, used, i);
      ghost var was := rscs[..];
      rscs[i / 8] := WithBit(rscs[i / 8], i % 8);
      assert rscs[..] == was[i / 8 := WithBit(was[i / 8], i % 8)];
      used := used + {i};
    }

    /** Clears the bit of one index. */
    method Unmark(i: nat)
      requires Marks(rscs[..], amount, used) && i < amount
      modifies rscs, this`used
      ensures Marks(rscs[..], amount, used) && used == old(used) - {i}
    {
      assert i / 8 < rscs.Length;
      hide Bit, MaskOf, WithBit, WithoutBit, Marked, Marks;
      ClearOne(rscs[..], amount, used, i);
      ghost var was := rscs[..];
      rscs[i / 8] := WithoutBit(rscs[i / 8], i % 8);
      assert rscs[..] == was[i / 8 := WithoutBit(was[i / 8], i % 8)];
      used := used - {i};
    }

    /** Tests the bit of one index. */
    method IsMarked(i: nat) returns (m: bool)
      requires Marks(rscs[..], amount, used) && i < amount
      ensures m <==> i in used
    {
      MarkedIff(rscs[..], amount, used, i);
      hide Marks, MaskOf;
      m := rscs[i / 8] & MaskOf(i % 8) != 0;
    }

    /** The last index of the first free run of `multi` indices, or `amount`; none is found for no index at all. */
    method Scan(multi: nat) returns (i: nat)
      requires Marks(rscs[..], amount, used)
      ensures i <= amount
      ensures i < amount ==> 0 < multi <= i + 1 && i + 1 - multi == FirstRun(used, amount, multi, 0)
      ensures i == amount <==> multi == 0 || FirstRun(used, amount, multi, 0) == amount
    {
      hide Marks, Marked, MaskOf, FirstRun, Searched;
      i := 0;
      var n: int := multi;
      ghost var run: nat := 0;
      NothingSearched(used, amount, multi);
      while i < amount
        invariant i <= amount && (multi == 0 ==> n <= 0) && (multi > 0 ==> n == multi - run > 0)
        invariant Searched(used, amount, multi, i, run)
      {
        var taken := IsMarked(i);
        if taken {
          Blocked(used, amount, multi, i, run);
          n, run := multi, 0;
        } else {
          n := n - 1;
          if n == 0 {
            Found(used, amount, multi, i, run);
            return;
          }
          OneLonger(used, amount, multi, i, run);
          run := run + 1;
        }
        i := i + 1;
      }
      if multi > 0 {
        NotFound(used, amount, multi, run);
      }
    }

    /** Takes the first free run of `multi` indices. */
    method GetResource(multi: nat) returns (err: bool, ridx: nat)
      requires Marks(rscs[..], amount, used)
      modifies rscs, this`used
      ensures Marks(rscs[..], amount, used)
      ensures err <==> multi == 0 || FirstRun(old(used), amount, multi, 0) == amount
      ensures err ==> used == old(used)
      ensures !err ==> ridx == FirstRun(old(used), amount, multi, 0) && used == old(used) + Span(ridx, multi)
    {
      hide Marks, FirstRun, Span;
      ridx := 0;
      var i := Scan(multi);
      if i >= amount {
        return true, 0;
      }
      ridx := MarkRun(multi, i);
      return false, ridx;
    }

    lemma SpanDown(start: nat, n: nat)
      requires start > 0
      ensures Span(start - 1, n + 1) == Span(start, n) + {start - 1}
    {
    }

    /** Marks the run of `multi` indices that ends with `last`, from its end to its start. */
    method MarkRun(multi: nat, last: nat) returns (ridx: nat)
      requires Marks(rscs[..], amount, used) && multi <= last + 1 && last < amount
      modifies rscs, this`used
      ensures Marks(rscs[..], amount, used)
      ensures ridx == last + 1 - multi && used == old(used) + Span(ridx, multi)
    {
      hide Marks, Span;
      ghost var start: nat := last + 1 - multi;
      var n: nat := multi;
      var i: int := last;
      while n > 0
        modifies rscs, this`used
        invariant n <= multi && i == start + n - 1 && Marks(rscs[..], amount, used)
        invariant used == old(used) + Span(start + n, multi - n)
      {
        Mark(i);
        SpanDown(start + n, multi - n);
        n, i := n - 1, i - 1;
      }
      ridx := i + 1;
    }

    /** Gives a run of indices back. */
    method PutResource(multi: nat, idx: nat)
      requires Marks(rscs[..], amount, used) && idx + multi <= amount
      modifies rscs, this`used
      ensures Marks(rscs[..], amount, used) && used == old(used) - Span(idx, multi)
    {
      hide Marks, Span;
      var n: nat, i: nat := multi, idx;
      while n > 0
        modifies rscs, this`used
        invariant n <= multi && i == idx + multi - n && Marks(rscs[..], amount, used)
        invariant used == old(used) - Span(idx, multi - n)
      {
        Unmark(i);
        assert Span(idx, multi - n + 1) == Span(idx, multi - n) + {i};
        n, i := n - 1, i + 1;
      }
    }

    /** Takes a contiguous run, if there is one. */
    method Get(n: nat) returns (err: bool, ridx: nat)
      requires Valid()
      modifies rscs, this`used, this`avail
      ensures Valid() && (err <==> n == 0 || FirstRun(old(used), amount, n, 0) == amount)
      ensures err ==> used == old(used)
      ensures !err ==> ridx == FirstRun(old(used), amount, n, 0) && used == old(used) + Span(ridx, n)
    {
      hide FirstRun;
      if n > avail {
        TooMany(used, amount, n);
        return true, 0;
      }
      ghost var was := used;
      err, ridx := GetResource(n);
      if !err {
        FoundIsFree(was, amount, n);
        avail := avail - n;
      }
    }

    method Put(n: nat, idx: nat)
      requires Valid() && Span(idx, n) <= used && idx + n <= amount
      modifies rscs, this`used, this`avail
      ensures Valid() && used == old(used) - Span(idx, n)
    {
      SubsetDifference(used, Span(idx, n));
      PutResource(n, idx);
      avail := avail + n;
    }

    /** Takes one more index for an object that has `idx` of the indices `all` it can get. */
    method GetNext(idx: seq<nat>, ghost was: set<nat>, ghost all: seq<nat>) returns (err: bool, idx': seq<nat>)
      requires Valid() && Taken(used, was, amount, idx, all) && (|idx| < |all| || avail == 0)
      modifies rscs, this`used, this`avail
      ensures Valid() && Taken(used, was, amount, idx', all) && (err <==> |idx| == |all|)
      ensures |idx'| == |idx| + (if err then 0 else 1) && avail == old(avail) - if err then 0 else 1
    {
      hide Marks, FirstRun, FreeRun, Lowest, Elements, Within;
      ghost var before := used;
      if |idx| < |all| {
        TakenNext(used, was, amount, idx, all);
      } else {
        NothingLeft(used, amount);
      }
      var one;
      err, one := Get(1);
      if err {
        idx' := idx;
      } else {
        idx' := idx + [one];
        assert used == before + {one};
      }
    }

    lemma NothingLeft(used: set<nat>, amount: nat)
      requires |used| == amount && Within(used, amount)
      ensures FirstRun(used, amount, 1, 0) == amount
    {
      SomethingIsFree(used, amount);
    }

    /** Takes `msr` indices one by one, up to the first that is missing. */
    method GetSome(msr: nat) returns (err: bool, idx: seq<nat>)
      requires Valid()
      modifies rscs, this`used, this`avail
      ensures Valid() && (err <==> msr > old(avail)) && |idx| == if err then old(avail) else msr
      ensures Within(old(used), amount) && |idx| <= amount - |old(used)|
      ensures idx == Lowest(old(used), amount, |idx|) && used == old(used) + Elements(idx)
    {
      assert Within(used, amount);
      hide Marks, Within, Lowest, Elements, Taken;
      idx, err := [], false;
      ghost var was := used;
      ghost var all := Lowest(was, amount, if msr <= avail then msr else avail);
      TakenNone(used, amount, |all|);
      while |idx| < msr && !err
        modifies rscs, this`used, this`avail
        invariant |idx| <= |all| && Valid() && avail == old(avail) - |idx| && Taken(used, was, amount, idx, all)
        invariant err ==> |idx| == |all| < msr
        decreases msr - |idx|, !err
      {
        err, idx := GetNext(idx, was, all);
      }
      TakenAll(used, was, amount, idx, all);
    }

    /** Gives the first `n` of an object's indices back, the last one first. */
    method PutSome(idx: seq<nat>, n: nat)
      requires Valid() && n <= |idx| && Ascending(idx) && forall k :: 0 <= k < n ==> idx[k] in used
      modifies rscs, this`used, this`avail
      ensures Valid() && used == old(used) - Elements(idx[..n])
    {
      assert Within(used, amount);
      hide Marks, Elements, Span;
      assert Elements(idx[n..n]) == {} by { ElementsOfNone(idx[n..n]); }
      assert idx[0..n] == idx[..n];
      var i: nat := n;
      while i > 0
        modifies rscs, this`used, this`avail
        invariant i <= n && Valid() && used == old(used) - Elements(idx[i..n])
        invariant forall k :: 0 <= k < i ==> idx[k] in used
      {
        i := i - 1;
        PutOne(idx, i, n, old(used));
      }
    }

    /** Gives one index back. */
    method PutOne(idx: seq<nat>, i: nat, n: nat, ghost was: set<nat>)
      requires Valid() && i < n <= |idx| && Ascending(idx) && idx[i] in used
      requires used == was - Elements(idx[i + 1..n])
      modifies rscs, this`used, this`avail
      ensures Valid() && used == was - Elements(idx[i..n]) && used == old(used) - {idx[i]}
    {
      assert Within(used, amount);
      hide Marks, Elements;
      assert Span(idx[i], 1) == {idx[i]};
      hide Span;
      ElementsFrom(idx, i, n);
      Put(1, idx[i]);
    }

    /** Takes `msr` indices for an object, or none: what it got is given back if one is missing or its setup fails. */
    method GetEach(msr: nat, setUp: bool) returns (err: bool, idx: seq<nat>)
      requires Valid()
      modifies rscs, this`used, this`avail
      ensures Valid() && (err <==> msr > old(avail) || !setUp)
      ensures err ==> used == old(used) && avail == old(avail)
      ensures Within(old(used), amount) && (!err ==> msr <= amount - |old(used)|)
      ensures !err ==> idx == Lowest(old(used), amount, msr) && used == old(used) + Elements(idx)
    {
      assert Within(used, amount);
      hide Marks, Elements, Lowest;
      ghost var was := used;
      err, idx := GetSome(msr);
      LowestAreFree(was, amount, |idx|);
      LowestSize(was, amount, |idx|);
      if err || !setUp {
        ListedAreElements(idx);
        PutSome(idx, |idx|);
        assert idx[..|idx|] == idx;
        return true, idx;
      }
    }

    /** Gives an object's indices back. */
    method PutEach(idx: seq<nat>)
      requires Valid() && Ascending(idx) && forall k :: 0 <= k < |idx| ==> idx[k] in used
      modifies rscs, this`used, this`avail
      ensures Valid() && used == old(used) - Elements(idx)
    {
      assert Within(used, amount);
      hide Marks, Elements, Span;
      ElementsOfNone(idx[..0]);
      var i: nat := 0;
      while i < |idx|
        modifies rscs, this`used, this`avail
        invariant i <= |idx| && Valid() && used == old(used) - Elements(idx[..i])
        invariant forall k :: i <= k < |idx| ==> idx[k] in used
      {
        assert Span(idx[i], 1) == {idx[i]};
        ElementsOfPrefix(idx, i);
        Put(1, idx[i]);
        i := i + 1;
      }
      assert idx[..|idx|] == idx;
    }

    /** A source's request for a run of indices; it gives them back if its setup fails. */
    method GetRun(n: nat, setUp: bool) returns (err: bool, idx: nat)
      requires Right()
      modifies rscs, this
      ensures Right() && Abs() == TakeRun(old(Abs()), n, setUp) && (err <==> Abs() == old(Abs()))
      ensures !err ==> live == old(live) + [Span(idx, n)] && n > 0
    {
      hide Marks, FirstRun, FreeRun, Apart, Covers, Within;
      ghost var p := Abs();
      TakeKeepsOk(p, n, setUp);
      RunIsFree(p, n);
      hide PoolOk;
      err, idx := Get(n);
      if !err && !setUp {
        Put(n, idx);
        return true, idx;
      }
      if !err {
        live := live + [Span(idx, n)];
      }
    }

    /** A source is released. */
    method PutRun(n: nat, idx: nat, ghost k: nat)
      requires Right() && k < |live| && live[k] == Span(idx, n) && n > 0
      modifies rscs, this
      ensures Right() && Abs() == GiveBack(old(Abs()), k)
    {
      GiveBackKeepsOk(Abs(), k);
      RunInRange(Abs(), k, idx, n);
      hide Marks, Apart, Covers, Within;
      Put(n, idx);
      live := live[..k] + live[k + 1..];
    }

    /** A mixer's, summation node's or mapper's request for single indices. */
    method GetObject(msr: nat, setUp: bool) returns (err: bool, idx: seq<nat>)
      requires Right()
      modifies rscs, this
      ensures Right() && Abs() == TakeEach(old(Abs()), msr, setUp) && (err <==> Abs() == old(Abs()))
      ensures !err ==> live == old(live) + [Elements(idx)] && Ascending(idx) && |idx| == msr
    {
      hide Marks, Apart, Covers, Within, Lowest, Elements;
      ghost var p := Abs();
      TakeKeepsOk(p, msr, setUp);
      err, idx := GetEach(msr, setUp);
      if !err {
        LowestAreFree(p.used, amount, msr);
        LowestSize(p.used, amount, msr);
        live := live + [Elements(idx)];
      }
    }

    /** It is released. */
    method PutObject(idx: seq<nat>, ghost k: nat)
      requires Right() && k < |live| && live[k] == Elements(idx) && Ascending(idx)
      modifies rscs, this
      ensures Right() && Abs() == GiveBack(old(Abs()), k)
    {
      GiveBackKeepsOk(Abs(), k);
      ListedAreElements(idx);
      assert live[k] <= used;
      hide Marks, Apart, Covers, Within, Elements;
      PutEach(idx);
      live := live[..k] + live[k + 1..];
    }
  }

  /** What a request for a run takes is free, and can be given back. */
  lemma RunIsFree(p: Pool, n: nat)
    requires PoolOk(p)
    ensures var r := FirstRun(p.used, p.amount, if n > 0 then n else 1, 0);
            n > 0 && r < p.amount ==>
              && Span(r, n) !! p.used && p.used + Span(r, n) - Span(r, n) == p.used && r + n <= p.amount
              && n <= p.avail && |Span(r, n)| == n
  {
    if n > 0 {
      var r := FirstRun(p.used, p.amount, n, 0);
      if r < p.amount {
        RunNeedsSpace(p.used, p.amount, r, n);
      }
    }
  }

  lemma RunInRange(p: Pool, k: nat, idx: nat, n: nat)
    requires PoolOk(p) && k < |p.live| && p.live[k] == Span(idx, n) && n > 0
    ensures Span(idx, n) <= p.used && idx + n <= p.amount
  {
    assert idx + n - 1 in Span(idx, n);
  }

  lemma ListedAreElements(idx: seq<nat>)
    ensures forall k :: 0 <= k < |idx| ==> idx[k] in Elements(idx)
  {
  }
}
