/** A cache of the latest change of each key in a series of change sets, with a count of the
    change sets that mention it. */
module RefCounts {
  import opened Options

  datatype Cached<W> = Cached(value: W, ndeltas: nat)

  type Cache<K, W> = map<K, Cached<W>>

  /** In how many change sets a key occurs. */
  function Touches<K, V>(ds: seq<map<K, V>>, k: K): nat {
    if ds == [] then 0
    else Touches(ds[..|ds| - 1], k) + if k in ds[|ds| - 1] then 1 else 0
  }

  /** The last change of a key. */
  function Last<K, V>(ds: seq<map<K, V>>, k: K): Option<V> {
    if ds == [] then None
    else if k in ds[|ds| - 1] then Some(ds[|ds| - 1][k])
    else Last(ds[..|ds| - 1], k)
  }

  lemma LastPrefix<K, V>(ds: seq<map<K, V>>, i: nat, k: K)
    requires 0 < i <= |ds|
    ensures Last(ds[..i], k) == if k in ds[i - 1] then Some(ds[i - 1][k]) else Last(ds[..i - 1], k)
  {
    assert ds[..i][..i - 1] == ds[..i - 1];
  }

  lemma {:induction false} TouchedIffChanged<K, V>(ds: seq<map<K, V>>, k: K)
    ensures Touches(ds, k) > 0 <==> Last(ds, k).Some?
  {
    if ds != [] { TouchedIffChanged(ds[..|ds| - 1], k); }
  }

  lemma {:induction false} Split<K, V>(ds: seq<map<K, V>>, n: nat, k: K)
    requires n <= |ds|
    ensures Touches(ds, k) == Touches(ds[..n], k) + Touches(ds[n..], k)
    ensures Last(ds, k) == if Last(ds[n..], k).Some? then Last(ds[n..], k) else Last(ds[..n], k)
  {
    if n == |ds| {
      assert ds[..n] == ds && ds[n..] == [];
    } else {
      var head := ds[..|ds| - 1];
      Split(head, n, k);
      assert head[..n] == ds[..n];
      assert ds[n..][..|ds[n..]| - 1] == head[n..];
    }
  }

  // ---------------------------------------------------------------- the cache

  ghost predicate EntryOk<K, V, W>(now: V -> W, cache: Cache<K, W>, ds: seq<map<K, V>>, k: K) {
    && (k in cache <==> Touches(ds, k) > 0)
    && (k in cache ==> cache[k].ndeltas == Touches(ds, k) && Last(ds, k).Some? && cache[k].value == now(Last(ds, k).value))
  }

  ghost predicate CacheOk<K(!new), V, W>(now: V -> W, cache: Cache<K, W>, ds: seq<map<K, V>>) {
    forall k: K :: EntryOk(now, cache, ds, k)
  }

  /** One more change of a key. */
  function BumpedAt<K, W>(cache: Cache<K, W>, k: K, w: W): Cached<W> {
    Cached(w, (if k in cache then cache[k].ndeltas else 0) + 1)
  }

  function Bumped<K, V, W>(now: V -> W, cache: Cache<K, W>, block: map<K, V>): Cache<K, W> {
    map k | k in cache.Keys + block.Keys :: if k in block then BumpedAt(cache, k, now(block[k])) else cache[k]
  }

  lemma BumpedOk<K(!new), V, W>(now: V -> W, cache: Cache<K, W>, ds: seq<map<K, V>>, block: map<K, V>)
    requires CacheOk(now, cache, ds)
    ensures CacheOk(now, Bumped(now, cache, block), ds + [block])
  {
    assert (ds + [block])[..|ds + [block]| - 1] == ds;
    forall k: K ensures EntryOk(now, Bumped(now, cache, block), ds + [block], k) {
      assert EntryOk(now, cache, ds, k);
    }
  }

  /** The loop over a block's changes. */
  method Bump<K, V, W>(now: V -> W, cache: Cache<K, W>, block: map<K, V>) returns (r: Cache<K, W>)
    ensures r == Bumped(now, cache, block)
  {
    r := cache;
    var todo := block.Keys;
    while todo != {}
      invariant todo <= block.Keys
      invariant forall k :: k in r <==> k in cache || (k in block && k !in todo)
      invariant forall k :: k in r ==> r[k] == if k in block && k !in todo then BumpedAt(cache, k, now(block[k])) else cache[k]
      decreases |todo|
    {
      var k :| k in todo;
      var m := BumpedAt(r, k, now(block[k]));
      assert m == BumpedAt(cache, k, now(block[k]));
      r := r[k := m];
      todo := todo - {k};
    }
    BumpedEverywhere(now, cache, block, r);
  }

  lemma BumpedEverywhere<K, V, W>(now: V -> W, cache: Cache<K, W>, block: map<K, V>, r: Cache<K, W>)
    requires forall k :: k in r <==> k in cache || k in block
    requires forall k :: k in r ==> r[k] == if k in block then BumpedAt(cache, k, now(block[k])) else cache[k]
    ensures r == Bumped(now, cache, block)
  {
  }

  // ---------------------------------------------------------------- eviction

  /** How often each key occurs in the change sets that are flushed. */
  ghost predicate Counts<K(!new), V>(counts: map<K, nat>, ds: seq<map<K, V>>) {
    forall k: K :: (k in counts <==> Touches(ds, k) > 0) && (k in counts ==> counts[k] == Touches(ds, k))
  }

  method CountBlock<K(!new), V>(counts: map<K, nat>, block: map<K, V>, ghost ds: seq<map<K, V>>) returns (r: map<K, nat>)
    requires Counts(counts, ds)
    ensures Counts(r, ds + [block])
  {
    r := counts;
    var todo := block.Keys;
    while todo != {}
      invariant todo <= block.Keys
      invariant forall k :: k in r <==> k in counts || (k in block && k !in todo)
      invariant forall k :: k in r ==> r[k] == (if k in counts then counts[k] else 0) + if k in block && k !in todo then 1 else 0
      decreases |todo|
    {
      var k :| k in todo;
      r := r[k := (if k in r then r[k] else 0) + 1];
      todo := todo - {k};
    }
    CountedBlock(counts, block, ds, r);
  }

  lemma CountedBlock<K(!new), V>(counts: map<K, nat>, block: map<K, V>, ds: seq<map<K, V>>, r: map<K, nat>)
    requires Counts(counts, ds)
    requires forall k :: k in r <==> k in counts || k in block
    requires forall k :: k in r ==> r[k] == (if k in counts then counts[k] else 0) + if k in block then 1 else 0
    ensures Counts(r, ds + [block])
  {
    assert (ds + [block])[..|ds + [block]| - 1] == ds;
    forall k: K ensures (k in r <==> Touches(ds + [block], k) > 0) && (k in r ==> r[k] == Touches(ds + [block], k)) {}
  }

  method CountAll<K(!new), V>(ds: seq<map<K, V>>) returns (counts: map<K, nat>)
    ensures Counts(counts, ds)
  {
    counts := map[];
    var i := 0;
    while i < |ds|
      invariant 0 <= i <= |ds|
      invariant Counts(counts, ds[..i])
    {
      counts := CountBlock(counts, ds[i], ds[..i]);
      assert ds[..i] + [ds[i]] == ds[..i + 1];
      i := i + 1;
    }
    assert ds[..i] == ds;
  }

  ghost predicate EvictedAt<K, W>(cache: Cache<K, W>, counts: map<K, nat>, r: Cache<K, W>, k: K) {
    if k !in counts || k !in cache then (k in r <==> k in cache) && (k in cache ==> r[k] == cache[k])
    else if cache[k].ndeltas <= counts[k] then k !in r
    else k in r && r[k] == Cached(cache[k].value, cache[k].ndeltas - counts[k])
  }

  /** Drop the flushed references; None stands for the panic on a key that is not in the
      cache or has too few references. */
  method Evict<K(!new), W>(cache: Cache<K, W>, counts: map<K, nat>) returns (r: Option<Cache<K, W>>)
    ensures r.Some? <==> forall k :: k in counts ==> k in cache && counts[k] <= cache[k].ndeltas
    ensures r.Some? ==> forall k :: EvictedAt(cache, counts, r.value, k)
  {
    var c := cache;
    var todo := counts.Keys;
    while todo != {}
      invariant todo <= counts.Keys
      invariant forall k :: k in counts && k !in todo ==> k in cache && counts[k] <= cache[k].ndeltas
      invariant forall k :: k in counts && k !in todo ==> EvictedAt(cache, counts, c, k)
      invariant forall k :: k in todo || k !in counts ==> (k in c <==> k in cache) && (k in c ==> c[k] == cache[k])
      decreases |todo|
    {
      var k :| k in todo;
      if k !in c { return None; }
      if counts[k] > c[k].ndeltas { return None; }
      var left := c[k].ndeltas - counts[k];
      if left == 0 { c := c - {k}; } else { c := c[k := c[k].(ndeltas := left)]; }
      todo := todo - {k};
    }
    return Some(c);
  }

  /** Flushing the first n change sets of a correct cache never panics. */
  lemma EvictOk<K(!new), V, W>(now: V -> W, cache: Cache<K, W>, ds: seq<map<K, V>>, n: nat, counts: map<K, nat>)
    requires n <= |ds| && CacheOk(now, cache, ds) && Counts(counts, ds[..n])
    ensures forall k :: k in counts ==> k in cache && counts[k] <= cache[k].ndeltas
  {
    forall k | k in counts ensures k in cache && counts[k] <= cache[k].ndeltas {
      Split(ds, n, k);
      assert EntryOk(now, cache, ds, k);
    }
  }

  /** It leaves a correct cache of the others. */
  lemma EvictedCache<K(!new), V, W>(now: V -> W, cache: Cache<K, W>, ds: seq<map<K, V>>, n: nat, counts: map<K, nat>, r: Cache<K, W>)
    requires n <= |ds| && CacheOk(now, cache, ds) && Counts(counts, ds[..n])
    requires forall k: K :: EvictedAt(cache, counts, r, k)
    ensures CacheOk(now, r, ds[n..])
  {
    forall k: K ensures EntryOk(now, r, ds[n..], k) {
      assert EntryOk(now, cache, ds, k);
      EvictedEntry(now, cache, ds, n, counts, r, k);
    }
  }

  lemma EvictedEntry<K(!new), V, W>(now: V -> W, cache: Cache<K, W>, ds: seq<map<K, V>>, n: nat, counts: map<K, nat>, r: Cache<K, W>, k: K)
    requires n <= |ds| && EntryOk(now, cache, ds, k) && EvictedAt(cache, counts, r, k)
    requires (k in counts <==> Touches(ds[..n], k) > 0) && (k in counts ==> counts[k] == Touches(ds[..n], k))
    ensures EntryOk(now, r, ds[n..], k)
  {
    Split(ds, n, k);
    TouchedIffChanged(ds[n..], k);
    TouchedIffChanged(ds[..n], k);
  }
}
