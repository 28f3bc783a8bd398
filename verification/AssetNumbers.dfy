/** Asset indices are taken from the transaction counter, so they only grow: what that means
    for the creator table over any series of blocks. */
module AssetNumbers {
  import opened Options
  import opened AccountTotals
  import opened Accounts
  import opened Cow
  import opened RefCounts
  import opened AccountUpdates
  import opened AssetListing

  // ---------------------------------------------------------------- one block

  /** Every asset that a block creates is numbered after all transactions before the block
      and up to its own. */
  ghost predicate Allocates(ds: Deltas, from: nat, to: nat) {
    from <= to && forall a, i :: a in ds && i in ds[a].now.created && i !in ds[a].prior.created ==> from < i <= to
  }

  ghost predicate InRange(m: AssetMods, from: nat, to: nat) {
    from <= to && forall i :: i in m && m[i].created ==> from < i <= to
  }

  lemma AllocatedMods(m: AssetMods, ds: Deltas, from: nat, to: nat)
    requires AssetsOf(m, ds) && Allocates(ds, from, to)
    ensures InRange(m, from, to)
  {
    forall i | i in m && m[i].created ensures from < i <= to { assert FromAccount(m, ds, ds.Keys, i); }
  }

  ghost predicate UpToNumber(c: Creators, n: nat) {
    forall i :: i in c ==> i <= n
  }

  /** The creator table says of each asset which account holds its parameters. */
  ghost predicate Owns(b: Balances, c: Creators) {
    forall i: AssetIndex, a: Address :: i in Of(b, a).created <==> CreatorIn(c, i) == Some(a)
  }

  /** The creator table after a block names for each asset the account that holds it. */
  lemma OwnsBlock(b: Balances, c: Creators, ds: Deltas, m: AssetMods, from: nat, to: nat)
    requires Owns(b, c) && UpToNumber(c, from) && StartsFrom(b, ds) && Exclusive(ds) && Allocates(ds, from, to) && AssetsOf(m, ds)
    ensures Owns(Applied(b, ds), CreatorsAfter(c, m))
  {
    forall i: AssetIndex, a: Address
      ensures i in Of(Applied(b, ds), a).created <==> CreatorIn(CreatorsAfter(c, m), i) == Some(a)
    {
      assert i in Of(b, a).created <==> CreatorIn(c, i) == Some(a);
      if i in m {
        assert FromAccount(m, ds, ds.Keys, i);
        OneHolder(b, c, ds, m, from, to, i, a);
      } else if a in ds {
        assert i !in AssetChanges(a, ds[a]);
      }
    }
  }

  lemma OneHolder(b: Balances, c: Creators, ds: Deltas, m: AssetMods, from: nat, to: nat, i: AssetIndex, a: Address)
    requires Owns(b, c) && UpToNumber(c, from) && StartsFrom(b, ds) && Exclusive(ds) && Allocates(ds, from, to) && AssetsOf(m, ds)
    requires i in m && FromAccount(m, ds, ds.Keys, i)
    ensures i in Of(Applied(b, ds), a).created <==> m[i].created && m[i].creator == a
  {
    var x := m[i].creator;
    assert i in Of(b, a).created <==> CreatorIn(c, i) == Some(a);
    assert i in Of(b, x).created <==> CreatorIn(c, i) == Some(x);
    if a != x && a in ds { assert i !in AssetChanges(a, ds[a]); }
  }

  // ---------------------------------------------------------------- a series of blocks

  /** The transaction counters at the snapshot and after each block. */
  ghost predicate Numbered(c: Creators, ms: seq<AssetMods>, counters: seq<nat>) {
    && |counters| == |ms| + 1 && UpToNumber(c, counters[0])
    && (forall k :: 0 <= k < |ms| ==> InRange(ms[k], counters[k], counters[k + 1]))
  }

  lemma {:induction false} CountersRise(c: Creators, ms: seq<AssetMods>, counters: seq<nat>, k: nat)
    requires Numbered(c, ms, counters) && k <= |ms|
    ensures counters[0] <= counters[k]
  {
    if k > 0 {
      CountersRise(c, ms, counters, k - 1);
      assert InRange(ms[k - 1], counters[k - 1], counters[k]);
    }
  }

  lemma {:induction false} ReplayUpTo(c: Creators, ms: seq<AssetMods>, counters: seq<nat>, k: nat)
    requires Numbered(c, ms, counters) && k <= |ms|
    ensures UpToNumber(ReplayCreators(c, ms[..k]), counters[k])
  {
    if k > 0 {
      ReplayUpTo(c, ms, counters, k - 1);
      assert ms[..k][..k - 1] == ms[..k - 1];
      assert InRange(ms[k - 1], counters[k - 1], counters[k]);
    }
  }

  lemma NumberedBlock(c: Creators, ms: seq<AssetMods>, counters: seq<nat>, m: AssetMods, to: nat)
    requires Numbered(c, ms, counters) && InRange(m, counters[|ms|], to)
    ensures Numbered(c, ms + [m], counters + [to])
  {
  }

  lemma NumberedFlush(c: Creators, ms: seq<AssetMods>, counters: seq<nat>, n: nat)
    requires Numbered(c, ms, counters) && n <= |ms|
    ensures Numbered(ReplayCreators(c, ms[..n]), ms[n..], counters[n..])
  {
    ReplayUpTo(c, ms, counters, n);
    forall k | 0 <= k < |ms[n..]| ensures InRange(ms[n..][k], counters[n..][k], counters[n..][k + 1]) {
      assert InRange(ms[n + k], counters[n + k], counters[n + k + 1]);
    }
  }

  /** No asset that is created has a row already. */
  ghost predicate Insertable(c: Creators, ms: AssetMods) {
    forall i :: i in ms && ms[i].created ==> i !in c
  }

  /** So no round inserts a creator row that exists. */
  lemma NumberedInserts(c: Creators, ms: seq<AssetMods>, counters: seq<nat>, k: nat)
    requires Numbered(c, ms, counters) && k < |ms|
    ensures Insertable(ReplayCreators(c, ms[..k]), ms[k])
  {
    ReplayUpTo(c, ms, counters, k);
    assert InRange(ms[k], counters[k], counters[k + 1]);
  }

  lemma {:induction false} LastCreated(c: Creators, ms: seq<AssetMods>, counters: seq<nat>, i: AssetIndex, k: nat)
    requires Numbered(c, ms, counters) && k <= |ms|
    requires Last(ms[..k], i).Some? && Last(ms[..k], i).value.created
    ensures i > counters[0]
  {
    assert k > 0 && ms[..k][..k - 1] == ms[..k - 1];
    if i in ms[k - 1] {
      CountersRise(c, ms, counters, k - 1);
      assert InRange(ms[k - 1], counters[k - 1], counters[k]);
    } else {
      LastCreated(c, ms, counters, i, k - 1);
    }
  }

  /** And everything created since the snapshot is newer than all that the database has. */
  lemma NumberedIncreasing(t: Tracker, counters: seq<nat>)
    requires Good(t) && Numbered(t.creators, t.mods, counters)
    ensures Increasing(t.assets, t.creators)
  {
    forall i | i in Created(t.assets) ensures i > counters[0] {
      assert EntryOk(SAME, t.assets, t.mods, i);
      assert t.mods[..|t.mods|] == t.mods;
      LastCreated(t.creators, t.mods, counters, i, |t.mods|);
    }
  }

  // ---------------------------------------------------------------- the account tracker

  /** The creators of the latest round are those that the accounts of that round name. */
  ghost predicate OwnsLatest(t: Tracker) {
    Owns(t.After(|t.deltas|), ReplayCreators(t.creators, t.mods))
  }

  lemma OwnsSame(b: Balances, b': Balances, c: Creators)
    requires Same(b, b') && Owns(b, c)
    ensures Owns(b', c)
  {
    forall i: AssetIndex, a: Address ensures i in Of(b', a).created <==> CreatorIn(c, i) == Some(a) {
      assert Of(b, a) == Of(b', a);
    }
  }

  lemma OwnsAfterBlock(t: Tracker, ds: Deltas, m: AssetMods, total: Totals, from: nat, to: nat)
    requires OwnsLatest(t) && UpToNumber(ReplayCreators(t.creators, t.mods), from)
    requires StartsFrom(t.After(|t.deltas|), ds) && Exclusive(ds) && Allocates(ds, from, to) && AssetsOf(m, ds)
    ensures OwnsLatest(WithBlock(t, ds, m, total))
  {
    OwnsBlock(t.After(|t.deltas|), ReplayCreators(t.creators, t.mods), ds, m, from, to);
    AfterNew(t, ds, m, total);
    assert (t.mods + [m])[..|t.mods + [m]| - 1] == t.mods;
  }

  lemma OwnsAfterFlush(t: Tracker, t': Tracker, n: nat)
    requires n <= |t.deltas| && |t.mods| == |t.deltas| && |t.totals| == |t.deltas| + 1 && Flushed(t, t', n)
    requires OwnsLatest(t)
    ensures OwnsLatest(t')
  {
    FlushKeepsLatest(t, t', n);
    OwnsSame(t.After(|t.deltas|), t'.After(|t'.deltas|), ReplayCreators(t.creators, t.mods));
  }

  lemma FlushKeepsLatest(t: Tracker, t': Tracker, n: nat)
    requires n <= |t.deltas| && |t.mods| == |t.deltas| && |t.totals| == |t.deltas| + 1 && Flushed(t, t', n)
    ensures Same(t.After(|t.deltas|), t'.After(|t'.deltas|)) && ReplayCreators(t'.creators, t'.mods) == ReplayCreators(t.creators, t.mods)
  {
    var j := |t.deltas| - n;
    FlushKeepsViews(t, t', n, j);
    assert t'.mods[..j] == t'.mods && t.mods[..n + j] == t.mods;
  }
}
