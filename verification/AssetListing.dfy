/** Listing assets from unflushed changes and an over-fetched page of the database. */
module AssetListing {
  import opened Options
  import opened Weights
  import opened AccountTotals
  import opened Accounts
  import opened Cow
  import opened RefCounts
  import opened AccountUpdates

  datatype Locator = Locator(index: AssetIndex, creator: Address)

  // ---------------------------------------------------------------- descending order

  predicate Down(q: seq<AssetIndex>) {
    forall i, j :: 0 <= i < j < |q| ==> q[i] > q[j]
  }

  function Elems(q: seq<AssetIndex>): set<AssetIndex> { set i | i in q }

  /** q lists s from the greatest to the least. */
  predicate Lists(q: seq<AssetIndex>, s: set<AssetIndex>) { Down(q) && Elems(q) == s }

  lemma {:induction false} ListsUnique(q: seq<AssetIndex>, r: seq<AssetIndex>, s: set<AssetIndex>)
    requires Lists(q, s) && Lists(r, s)
    ensures q == r
    decreases |q|
  {
    if q == [] {
      assert forall i :: 0 <= i < |r| ==> r[i] in Elems(r);
    } else {
      assert q[0] in Elems(r);
      assert r[0] in Elems(q);
      assert q[0] == r[0];
      Tail(q, s);
      Tail(r, s);
      ListsUnique(q[1..], r[1..], s - {q[0]});
      assert q == [q[0]] + q[1..] && r == [r[0]] + r[1..];
    }
  }

  lemma {:induction false} HasGreatest(s: set<AssetIndex>)
    requires s != {}
    ensures exists x :: x in s && forall y :: y in s ==> y <= x
    decreases |s|
  {
    var x :| x in s;
    if s - {x} == {} {
      assert forall y :: y in s ==> y == x || y in s - {x};
    } else {
      HasGreatest(s - {x});
      var m :| m in s - {x} && forall y :: y in s - {x} ==> y <= m;
      var g := if x < m then m else x;
      forall y | y in s ensures y <= g { assert y == x || y in s - {x}; }
      assert g in s;
    }
  }

  /** The elements of a set from the greatest to the least. */
  ghost function Descending(s: set<AssetIndex>): (q: seq<AssetIndex>)
    ensures Lists(q, s)
    decreases |s|
  {
    if s == {} then []
    else
      HasGreatest(s);
      var x :| x in s && forall y :: y in s ==> y <= x;
      var rest := Descending(s - {x});
      Headed(x, rest, s);
      [x] + rest
  }

  lemma Headed(x: AssetIndex, q: seq<AssetIndex>, s: set<AssetIndex>)
    requires x in s && (forall y :: y in s ==> y <= x) && Lists(q, s - {x})
    ensures Lists([x] + q, s)
  {
    forall i | 0 <= i < |q| ensures q[i] < x { assert q[i] in Elems(q); }
    assert Elems([x] + q) == {x} + Elems(q);
  }

  lemma Tail(q: seq<AssetIndex>, s: set<AssetIndex>)
    requires Lists(q, s) && q != []
    ensures Lists(q[1..], s - {q[0]})
  {
    assert q == [q[0]] + q[1..];
  }

  function Take(q: seq<AssetIndex>, n: nat): seq<AssetIndex> {
    if n < |q| then q[..n] else q
  }

  /** The rows that are not deleted. */
  function Kept(q: seq<AssetIndex>, deleted: set<AssetIndex>): seq<AssetIndex> {
    if q == [] then []
    else Kept(q[..|q| - 1], deleted) + if q[|q| - 1] in deleted then [] else [q[|q| - 1]]
  }

  lemma {:induction false} KeptLists(q: seq<AssetIndex>, s: set<AssetIndex>, deleted: set<AssetIndex>)
    requires Lists(q, s)
    ensures Lists(Kept(q, deleted), s - deleted)
    decreases |q|
  {
    if q != [] {
      var head, x := q[..|q| - 1], q[|q| - 1];
      assert q == head + [x];
      KeptLists(head, Elems(head), deleted);
      var k := Kept(head, deleted);
      forall i | 0 <= i < |k| ensures k[i] > x {
        assert k[i] in Elems(k);
        var j :| 0 <= j < |head| && head[j] == k[i];
        assert q[j] > q[|q| - 1];
      }
      assert s == Elems(head) + {x};
      assert Elems(k + [x]) == Elems(k) + {x};
      if x in deleted { assert Kept(q, deleted) == k; }
    }
  }

  lemma {:induction false} KeptSplit(q: seq<AssetIndex>, r: seq<AssetIndex>, deleted: set<AssetIndex>)
    ensures Kept(q + r, deleted) == Kept(q, deleted) + Kept(r, deleted)
    decreases |r|
  {
    if r == [] {
      assert q + r == q;
    } else {
      var head := r[..|r| - 1];
      assert (q + r)[..|q + r| - 1] == q + head;
      KeptSplit(q, head, deleted);
    }
  }

  /** At most as many rows are dropped as are deleted. */
  lemma {:induction false} FewDropped(q: seq<AssetIndex>, deleted: set<AssetIndex>)
    requires Down(q)
    ensures |q| <= |Kept(q, deleted)| + |deleted|
    decreases |q|
  {
    if q != [] {
      var head, x := q[..|q| - 1], q[|q| - 1];
      if x in deleted {
        FewDropped(head, deleted - {x});
        KeptWithout(head, deleted, x);
      } else {
        FewDropped(head, deleted);
      }
    }
  }

  lemma {:induction false} KeptWithout(q: seq<AssetIndex>, deleted: set<AssetIndex>, x: AssetIndex)
    requires x !in q
    ensures Kept(q, deleted - {x}) == Kept(q, deleted)
  {
    if q != [] { KeptWithout(q[..|q| - 1], deleted, x); }
  }

  // ---------------------------------------------------------------- a page of the database

  /** What the merge gives when only the first k rows are fetched and need more are wanted. */
  function Merged(rows: seq<AssetIndex>, deleted: set<AssetIndex>, k: nat, need: nat): seq<AssetIndex> {
    Take(Kept(Take(rows, k), deleted), need)
  }

  lemma MergedWithin(rows: seq<AssetIndex>, deleted: set<AssetIndex>, k: nat, need: nat)
    ensures Elems(Merged(rows, deleted, k, need)) <= Elems(Kept(rows, deleted))
  {
    if k < |rows| {
      assert rows == rows[..k] + rows[k..];
      KeptSplit(rows[..k], rows[k..], deleted);
    }
  }

  /** A page of k rows is enough if and only if it yields as many as are needed or no
      row behind it is live. */
  lemma PageExact(rows: seq<AssetIndex>, deleted: set<AssetIndex>, k: nat, need: nat)
    ensures Merged(rows, deleted, k, need) == Take(Kept(rows, deleted), need) <==>
      k >= |rows| || |Kept(rows[..k], deleted)| >= need || Kept(rows[k..], deleted) == []
  {
    if k < |rows| {
      assert rows == rows[..k] + rows[k..];
      KeptSplit(rows[..k], rows[k..], deleted);
    }
  }

  /** Fetching one extra row for every deleted asset is always enough. */
  lemma ExtrasSuffice(rows: seq<AssetIndex>, deleted: set<AssetIndex>, need: nat)
    requires Down(rows)
    ensures Merged(rows, deleted, need + |deleted|, need) == Take(Kept(rows, deleted), need)
  {
    var k := need + |deleted|;
    if k < |rows| { FewDropped(rows[..k], deleted); }
    PageExact(rows, deleted, k, need);
  }

  // ---------------------------------------------------------------- the listing

  function UpTo(s: set<AssetIndex>, bound: AssetIndex): set<AssetIndex> {
    set i | i in s && i <= bound
  }

  function Created(cache: Cache<AssetIndex, AssetMod>): set<AssetIndex> {
    set i | i in cache && cache[i].value.created
  }

  function Deleted(cache: Cache<AssetIndex, AssetMod>): set<AssetIndex> {
    set i | i in cache && !cache[i].value.created
  }

  /** The creators of the latest round, from the cache and the database. */
  function Live(cache: Cache<AssetIndex, AssetMod>, db: Creators): Creators {
    map i | i in Created(cache) + (db.Keys - cache.Keys) :: if i in cache then cache[i].value.creator else db[i]
  }

  /** Assets created since the snapshot are newer than all in the database. */
  ghost predicate Increasing(cache: Cache<AssetIndex, AssetMod>, db: Creators) {
    forall i, j :: i in Created(cache) && j in db ==> i > j
  }

  /** The assets at or below a bound that were created since the snapshot, that the
      database has, that were deleted since, and that exist. */
  ghost function Newer(cache: Cache<AssetIndex, AssetMod>, bound: AssetIndex): seq<AssetIndex> { Descending(UpTo(Created(cache), bound)) }
  ghost function Rows(db: Creators, bound: AssetIndex): seq<AssetIndex> { Descending(UpTo(db.Keys, bound)) }
  function Gone(cache: Cache<AssetIndex, AssetMod>, bound: AssetIndex): set<AssetIndex> { UpTo(Deleted(cache), bound) }
  ghost function All(cache: Cache<AssetIndex, AssetMod>, db: Creators, bound: AssetIndex): seq<AssetIndex> { Descending(UpTo(Live(cache, db).Keys, bound)) }

  /** The unsynced assets first and then the live rows of the database list everything. */
  lemma AllListed(cache: Cache<AssetIndex, AssetMod>, db: Creators, bound: AssetIndex)
    requires Increasing(cache, db)
    ensures Newer(cache, bound) + Kept(Rows(db, bound), Gone(cache, bound)) == All(cache, db, bound)
  {
    var newer, rows, deleted := Newer(cache, bound), Rows(db, bound), Gone(cache, bound);
    KeptLists(rows, UpTo(db.Keys, bound), deleted);
    var k := Kept(rows, deleted);
    forall i | 0 <= i < |newer| ensures newer[i] in Created(cache) { assert newer[i] in Elems(newer); }
    forall j | 0 <= j < |k| ensures k[j] in db { assert k[j] in Elems(k); }
    ConcatLists(newer, k);
    forall i | i in UpTo(Created(cache), bound) + (UpTo(db.Keys, bound) - deleted) ensures i in UpTo(Live(cache, db).Keys, bound) {}
    ListsUnique(newer + k, All(cache, db, bound), UpTo(Live(cache, db).Keys, bound));
  }

  lemma ConcatLists(q: seq<AssetIndex>, r: seq<AssetIndex>)
    requires Down(q) && Down(r) && forall i, j :: 0 <= i < |q| && 0 <= j < |r| ==> q[i] > r[j]
    ensures Lists(q + r, Elems(q) + Elems(r))
  {
    var all := q + r;
    forall i, j | 0 <= i < j < |all| ensures all[i] > all[j] {
      if i < |q| <= j { assert all[i] == q[i] && all[j] == r[j - |q|]; }
    }
    assert Elems(all) == Elems(q) + Elems(r);
  }

  lemma TakeConcat(q: seq<AssetIndex>, r: seq<AssetIndex>, n: nat)
    requires |q| <= n
    ensures Take(q + r, n) == q + Take(r, n - |q|)
  {
  }

  lemma SamePrefix(q: seq<AssetIndex>, r: seq<AssetIndex>, s: seq<AssetIndex>)
    ensures q + r == q + s <==> r == s
  {
    assert r == (q + r)[|q|..] && s == (q + s)[|q|..];
  }

  /** Each entry names the creator of its asset. */
  predicate Locates(r: seq<Locator>, live: Creators) {
    forall i :: 0 <= i < |r| ==> r[i].index in live && r[i].creator == live[r[i].index]
  }

  function Indices(r: seq<Locator>): seq<AssetIndex> {
    seq(|r|, i requires 0 <= i < |r| => r[i].index)
  }

  /** The number of rows to fetch, as 64-bit arithmetic gives it: a sum of two 64-bit numbers
      wraps at most once. */
  function NumToFetch(maxResults: nat, have: nat, deleted: nat): nat
    requires have <= maxResults
  {
    var n := maxResults - have + deleted;
    if n < UINT64 then n else n - UINT64
  }

  /** What the listing returns, given the sorted unsynced assets and database rows. */
  function Listed(newer: seq<AssetIndex>, rows: seq<AssetIndex>, deleted: set<AssetIndex>, maxResults: nat): seq<AssetIndex> {
    if maxResults < |newer| then newer[..maxResults]
    else newer + Merged(rows, deleted, NumToFetch(maxResults, |newer|, |deleted|), maxResults - |newer|)
  }

  ghost function ListedFrom(cache: Cache<AssetIndex, AssetMod>, db: Creators, bound: AssetIndex, maxResults: nat): seq<AssetIndex> {
    Listed(Newer(cache, bound), Rows(db, bound), Gone(cache, bound), maxResults)
  }

  lemma UnwrappedExact(newer: seq<AssetIndex>, rows: seq<AssetIndex>, deleted: set<AssetIndex>, maxResults: nat)
    requires Down(rows) && (maxResults >= |newer| ==> maxResults - |newer| + |deleted| < UINT64)
    ensures Listed(newer, rows, deleted, maxResults) == Take(newer + Kept(rows, deleted), maxResults)
  {
    if maxResults >= |newer| {
      var need := maxResults - |newer|;
      assert NumToFetch(maxResults, |newer|, |deleted|) == need + |deleted|;
      ExtrasSuffice(rows, deleted, need);
      TakeConcat(newer, Kept(rows, deleted), maxResults);
    } else {
      TakeShort(newer, Kept(rows, deleted), maxResults);
    }
  }

  lemma TakeShort(q: seq<AssetIndex>, r: seq<AssetIndex>, n: nat)
    requires n < |q|
    ensures Take(q + r, n) == q[..n]
  {
  }

  lemma WrappedExact(newer: seq<AssetIndex>, rows: seq<AssetIndex>, deleted: set<AssetIndex>, maxResults: nat)
    requires |newer| <= maxResults < UINT64 && |deleted| < UINT64 <= maxResults - |newer| + |deleted|
    ensures Listed(newer, rows, deleted, maxResults) == Take(newer + Kept(rows, deleted), maxResults) <==>
      forall i :: maxResults - |newer| + |deleted| - UINT64 <= i < |rows| ==> rows[i] in deleted
  {
    var need, k := maxResults - |newer|, maxResults - |newer| + |deleted| - UINT64;
    ShortPage(rows, deleted, k, need);
    var kept, page := Kept(rows, deleted), Merged(rows, deleted, k, need);
    TakeConcat(newer, kept, maxResults);
    SamePrefix(newer, page, Take(kept, need));
    assert Listed(newer, rows, deleted, maxResults) == newer + page;
  }

  /** Without wrap-around the listing is the first maxResults live assets at or below the
      bound, in descending order. */
  lemma ListingExact(cache: Cache<AssetIndex, AssetMod>, db: Creators, bound: AssetIndex, maxResults: nat)
    requires Increasing(cache, db)
    requires maxResults >= |Newer(cache, bound)| ==> maxResults - |Newer(cache, bound)| + |Gone(cache, bound)| < UINT64
    ensures ListedFrom(cache, db, bound, maxResults) == Take(All(cache, db, bound), maxResults)
  {
    AllListed(cache, db, bound);
    UnwrappedExact(Newer(cache, bound), Rows(db, bound), Gone(cache, bound), maxResults);
  }

  lemma {:induction false} KeptShort(q: seq<AssetIndex>, deleted: set<AssetIndex>)
    ensures |Kept(q, deleted)| <= |q|
    ensures Kept(q, deleted) == [] <==> forall i :: 0 <= i < |q| ==> q[i] in deleted
  {
    if q != [] {
      var head := q[..|q| - 1];
      KeptShort(head, deleted);
      assert q == head + [q[|q| - 1]];
    }
  }

  /** When fewer rows are fetched than are needed, nothing that exists may lie behind them. */
  lemma ShortPage(rows: seq<AssetIndex>, deleted: set<AssetIndex>, k: nat, need: nat)
    requires k < need
    ensures Merged(rows, deleted, k, need) == Take(Kept(rows, deleted), need) <==>
      forall i :: k <= i < |rows| ==> rows[i] in deleted
  {
    PageExact(rows, deleted, k, need);
    if k < |rows| {
      KeptShort(rows[..k], deleted);
      NothingBehind(rows, k, deleted);
    }
  }

  lemma NothingBehind(rows: seq<AssetIndex>, k: nat, deleted: set<AssetIndex>)
    requires k <= |rows|
    ensures Kept(rows[k..], deleted) == [] <==> forall i :: k <= i < |rows| ==> rows[i] in deleted
  {
    var rest := rows[k..];
    KeptShort(rest, deleted);
    forall i | k <= i < |rows| ensures rows[i] == rest[i - k] {}
  }

  /** The unsynced assets suffice, the number of rows to fetch fits into 64 bits, or all
      rows behind the page that is fetched instead are deleted. */
  ghost predicate PageSuffices(cache: Cache<AssetIndex, AssetMod>, db: Creators, bound: AssetIndex, maxResults: nat) {
    var newer, rows, deleted := Newer(cache, bound), Rows(db, bound), Gone(cache, bound);
    || maxResults < |newer|
    || maxResults - |newer| + |deleted| < UINT64
    || forall i :: maxResults - |newer| + |deleted| - UINT64 <= i < |rows| ==> rows[i] in deleted
  }

  /** In general that is when the listing is right. */
  lemma ListingCondition(cache: Cache<AssetIndex, AssetMod>, db: Creators, bound: AssetIndex, maxResults: nat)
    requires Increasing(cache, db) && maxResults < UINT64 && |Gone(cache, bound)| < UINT64
    ensures ListedFrom(cache, db, bound, maxResults) == Take(All(cache, db, bound), maxResults) <==> PageSuffices(cache, db, bound, maxResults)
  {
    var newer, rows, deleted := Newer(cache, bound), Rows(db, bound), Gone(cache, bound);
    if maxResults < |newer| || maxResults - |newer| + |deleted| < UINT64 {
      ListingExact(cache, db, bound, maxResults);
    } else {
      AllListed(cache, db, bound);
      WrappedExact(newer, rows, deleted, maxResults);
    }
  }

  lemma DescendingIs(q: seq<AssetIndex>, s: set<AssetIndex>)
    requires Lists(q, s)
    ensures Descending(s) == q
  {
    ListsUnique(Descending(s), q, s);
  }

  /** With the largest bound on results and one unflushed deletion the number of rows wraps
      around to zero and a live asset is missed. */
  lemma ListingWraps()
    ensures var cache: Cache<AssetIndex, AssetMod> := map[5 := Cached(AssetMod(false, 1), 1)];
      var db: Creators := map[3 := 1];
      && Increasing(cache, db) && All(cache, db, 9) == [3]
      && ListedFrom(cache, db, 9, UINT64 - 1) == []
  {
    var cache: Cache<AssetIndex, AssetMod> := map[5 := Cached(AssetMod(false, 1), 1)];
    var db: Creators := map[3 := 1];
    assert Gone(cache, 9) == {5} && UpTo(Created(cache), 9) == {};
    assert UpTo(db.Keys, 9) == {3} && UpTo(Live(cache, db).Keys, 9) == {3};
    DescendingIs([3], {3});
    assert NumToFetch(UINT64 - 1, 0, 1) == 0;
  }

  // ---------------------------------------------------------------- the loops

  /** Put x where it belongs in a descending list. */
  method Insert(q: seq<AssetIndex>, x: AssetIndex) returns (r: seq<AssetIndex>)
    requires Down(q) && x !in q
    ensures Lists(r, Elems(q) + {x})
  {
    var i := 0;
    while i < |q| && q[i] > x
      invariant 0 <= i <= |q|
      invariant forall j :: 0 <= j < i ==> q[j] > x
    {
      i := i + 1;
    }
    r := q[..i] + [x] + q[i..];
    assert forall j :: i <= j < |q| ==> q[j] < x;
    assert q == q[..i] + q[i..];
  }

  method SortDown(s: set<AssetIndex>) returns (q: seq<AssetIndex>)
    ensures q == Descending(s)
  {
    q := [];
    var todo := s;
    while todo != {}
      invariant todo <= s && Lists(q, s - todo)
      decreases |todo|
    {
      var x :| x in todo;
      assert x !in Elems(q);
      q := Insert(q, x);
      todo := todo - {x};
      assert s - todo == s - (todo + {x}) + {x};
    }
    assert s - todo == s;
    DescendingIs(q, s);
  }

  /** The database's page: the greatest rows at or below a bound, at most limit of them. */
  method Page(db: Creators, bound: AssetIndex, limit: nat) returns (page: seq<AssetIndex>)
    ensures page == Take(Rows(db, bound), limit)
  {
    var all := SortDown(UpTo(db.Keys, bound));
    page := if limit < |all| then all[..limit] else all;
  }

  /** The merge loop over the fetched rows. */
  method Merge(page: seq<AssetIndex>, deleted: set<AssetIndex>, need: nat) returns (r: seq<AssetIndex>)
    ensures r == Take(Kept(page, deleted), need)
  {
    r := [];
    var i := 0;
    while i < |page|
      invariant 0 <= i <= |page| && r == Kept(page[..i], deleted) && |r| <= need
    {
      if |r| == need {
        assert page == page[..i] + page[i..];
        KeptSplit(page[..i], page[i..], deleted);
        return;
      }
      assert page[..i + 1][..i] == page[..i];
      if page[i] !in deleted { r := r + [page[i]]; }
      i := i + 1;
    }
    assert page[..i] == page;
  }

  method Locate(q: seq<AssetIndex>, live: Creators) returns (r: seq<Locator>)
    requires forall i :: i in q ==> i in live
    ensures Locates(r, live) && Indices(r) == q
  {
    r := [];
    var i := 0;
    while i < |q|
      invariant 0 <= i <= |q| && Locates(r, live) && Indices(r) == q[..i]
    {
      r := r + [Locator(q[i], live[q[i]])];
      i := i + 1;
    }
    assert q[..i] == q;
  }

  /** Everything that is listed exists. */
  lemma ListedLive(cache: Cache<AssetIndex, AssetMod>, db: Creators, bound: AssetIndex, maxResults: nat, x: AssetIndex)
    requires x in ListedFrom(cache, db, bound, maxResults)
    ensures x in Live(cache, db)
  {
    var newer, rows, deleted := Newer(cache, bound), Rows(db, bound), Gone(cache, bound);
    if x in newer {
      assert x in Elems(newer);
    } else {
      var rest := Merged(rows, deleted, NumToFetch(maxResults, |newer|, |deleted|), maxResults - |newer|);
      assert x in Elems(rest);
      MergedWithin(rows, deleted, NumToFetch(maxResults, |newer|, |deleted|), maxResults - |newer|);
      KeptLists(rows, UpTo(db.Keys, bound), deleted);
    }
  }

  /** List the newest assets at or below a bound. */
  method ListAssets(cache: Cache<AssetIndex, AssetMod>, db: Creators, bound: AssetIndex, maxResults: nat) returns (r: seq<Locator>)
    ensures Locates(r, Live(cache, db)) && Indices(r) == ListedFrom(cache, db, bound, maxResults)
  {
    var newer := SortDown(UpTo(Created(cache), bound));
    var deleted := UpTo(Deleted(cache), bound);
    var found;
    if maxResults < |newer| {
      found := newer[..maxResults];
    } else {
      var page := Page(db, bound, NumToFetch(maxResults, |newer|, |deleted|));
      var rest := Merge(page, deleted, maxResults - |newer|);
      found := newer + rest;
    }
    forall x | x in found ensures x in Live(cache, db) { ListedLive(cache, db, bound, maxResults, x); }
    r := Locate(found, Live(cache, db));
  }

  lemma FewDeleted(cache: Cache<AssetIndex, AssetMod>, bound: AssetIndex)
    ensures |Gone(cache, bound)| <= |cache|
  {
    SubsetSize(UpTo(Deleted(cache), bound), cache.Keys);
  }

  /** The cache over the database shows the creators of the latest round. */
  lemma LiveIsReplay(t: Tracker)
    requires Good(t)
    ensures Live(t.assets, t.creators) == ReplayCreators(t.creators, t.mods)
  {
    forall i: AssetIndex ensures CreatorIn(Live(t.assets, t.creators), i) == CreatorIn(ReplayCreators(t.creators, t.mods), i) {
      LastIsReplayCreators(t.creators, t.mods, i);
      TouchedIffChanged(t.mods, i);
      assert EntryOk(SAME, t.assets, t.mods, i);
    }
    SameCreators(Live(t.assets, t.creators), ReplayCreators(t.creators, t.mods));
  }

  lemma SameCreators(c: Creators, d: Creators)
    requires forall i: AssetIndex :: CreatorIn(c, i) == CreatorIn(d, i)
    ensures c == d
  {
    forall i: AssetIndex ensures (i in c <==> i in d) && (i in c ==> c[i] == d[i]) {
      assert CreatorIn(c, i) == CreatorIn(d, i);
    }
  }
}
