/** The accounts of every round from the snapshot on disk to the latest block, kept as a
    series of changes with a cache of the newest values. */
module AccountUpdates {
  import opened Options
  import opened AccountTotals
  import opened Accounts
  import opened Cow
  import opened RefCounts

  const NOW: AccountDelta -> AccountData := (d: AccountDelta) => d.now
  const SAME: AssetMod -> AssetMod := (m: AssetMod) => m

  // ---------------------------------------------------------------- replay

  /** The reference: the changes applied one after the other. */
  function Replay(db: Balances, ds: seq<Deltas>): Balances {
    if ds == [] then db else Applied(Replay(db, ds[..|ds| - 1]), ds[|ds| - 1])
  }

  function ReplayCreators(c: Creators, ms: seq<AssetMods>): Creators {
    if ms == [] then c else CreatorsAfter(ReplayCreators(c, ms[..|ms| - 1]), ms[|ms| - 1])
  }

  /** Looking for the last change is replaying. */
  lemma {:induction false} LastIsReplay(db: Balances, ds: seq<Deltas>, a: Address)
    ensures Of(Replay(db, ds), a) == if Last(ds, a).Some? then Last(ds, a).value.now else Of(db, a)
  {
    if ds != [] { LastIsReplay(db, ds[..|ds| - 1], a); }
  }

  lemma {:induction false} LastIsReplayCreators(c: Creators, ms: seq<AssetMods>, i: AssetIndex)
    ensures CreatorIn(ReplayCreators(c, ms), i) ==
      if Last(ms, i).Some? then if Last(ms, i).value.created then Some(Last(ms, i).value.creator) else None
      else CreatorIn(c, i)
  {
    if ms != [] { LastIsReplayCreators(c, ms[..|ms| - 1], i); }
  }

  lemma {:induction false} ReplaySplit(db: Balances, ds: seq<Deltas>, n: nat)
    requires n <= |ds|
    ensures Replay(db, ds) == Replay(Replay(db, ds[..n]), ds[n..])
  {
    if n == |ds| {
      assert ds[..n] == ds && ds[n..] == [];
    } else {
      var head := ds[..|ds| - 1];
      ReplaySplit(db, head, n);
      assert head[..n] == ds[..n];
      assert ds[n..][..|ds[n..]| - 1] == head[n..];
    }
  }

  lemma {:induction false} ReplayCreatorsSplit(c: Creators, ms: seq<AssetMods>, n: nat)
    requires n <= |ms|
    ensures ReplayCreators(c, ms) == ReplayCreators(ReplayCreators(c, ms[..n]), ms[n..])
  {
    if n == |ms| {
      assert ms[..n] == ms && ms[n..] == [];
    } else {
      var head := ms[..|ms| - 1];
      ReplayCreatorsSplit(c, head, n);
      assert head[..n] == ms[..n];
      assert ms[n..][..|ms[n..]| - 1] == head[n..];
    }
  }

  lemma {:induction false} ReplaySame(b: Balances, c: Balances, ds: seq<Deltas>)
    requires Same(b, c)
    ensures Same(Replay(b, ds), Replay(c, ds))
  {
    forall a: Address ensures Of(Replay(b, ds), a) == Of(Replay(c, ds), a) {
      LastIsReplay(b, ds, a);
      LastIsReplay(c, ds, a);
      assert Of(b, a) == Of(c, a);
    }
  }

  // ---------------------------------------------------------------- the assets of a block

  /** At most one account creates or deletes any one asset. */
  ghost predicate Exclusive(ds: Deltas) {
    forall a, b, i :: a in ds && b in ds && i in AssetChanges(a, ds[a]) && i in AssetChanges(b, ds[b]) ==> a == b
  }

  /** m holds the asset changes of the accounts in done. */
  ghost predicate Gathers(m: AssetMods, ds: Deltas, done: set<Address>) {
    && (forall i :: i in m ==> FromAccount(m, ds, done, i))
    && (forall a, i :: a in done && a in ds && i in AssetChanges(a, ds[a]) ==> i in m && m[i].creator == a)
  }

  predicate FromAccount(m: AssetMods, ds: Deltas, done: set<Address>, i: AssetIndex)
    requires i in m
  {
    var a := m[i].creator;
    a in done && a in ds && i in AssetChanges(a, ds[a]) && m[i] == AssetChanges(a, ds[a])[i]
  }

  /** m holds all asset changes of a block. */
  ghost predicate AssetsOf(m: AssetMods, ds: Deltas) { Gathers(m, ds, ds.Keys) }

  lemma BumpTwice(cache: Cache<AssetIndex, AssetMod>, m: AssetMods, n: AssetMods)
    requires m.Keys !! n.Keys
    ensures Bumped(SAME, Bumped(SAME, cache, m), n) == Bumped(SAME, cache, m + n)
  {
  }

  lemma GatherOne(m: AssetMods, ds: Deltas, done: set<Address>, a: Address)
    requires Exclusive(ds) && Gathers(m, ds, done) && a in ds && a !in done
    ensures m.Keys !! AssetChanges(a, ds[a]).Keys
    ensures Gathers(m + AssetChanges(a, ds[a]), ds, done + {a})
  {
    var ch := AssetChanges(a, ds[a]);
    forall i | i in m ensures i !in ch { assert FromAccount(m, ds, done, i); }
    var m' := m + ch;
    forall i | i in m' ensures FromAccount(m', ds, done + {a}, i) {
      if i !in ch { assert FromAccount(m, ds, done, i); }
    }
  }

  lemma GatherStep(cache: Cache<AssetIndex, AssetMod>, m: AssetMods, ds: Deltas, done: set<Address>, a: Address)
    requires Exclusive(ds) && Gathers(m, ds, done) && a in ds && a !in done
    ensures var ch := AssetChanges(a, ds[a]);
      && Gathers(m + ch, ds, done + {a})
      && Bumped(SAME, Bumped(SAME, cache, m), ch) == Bumped(SAME, cache, m + ch)
  {
    GatherOne(m, ds, done, a);
    BumpTwice(cache, m, AssetChanges(a, ds[a]));
  }

  /** The inner loop over the asset changes of each changed account. */
  method GatherAssets(cache: Cache<AssetIndex, AssetMod>, ds: Deltas) returns (r: Cache<AssetIndex, AssetMod>, m: AssetMods)
    ensures Exclusive(ds) ==> AssetsOf(m, ds) && r == Bumped(SAME, cache, m)
  {
    r, m := cache, map[];
    var todo := ds.Keys;
    ghost var done: set<Address> := {};
    assert Bumped(SAME, cache, m) == cache;
    while todo != {}
      invariant forall a :: a in todo <==> a in ds && a !in done
      invariant done <= ds.Keys
      invariant Exclusive(ds) ==> Gathers(m, ds, done) && r == Bumped(SAME, cache, m)
      decreases |todo|
    {
      var a :| a in todo;
      var ch := AssetChanges(a, ds[a]);
      if Exclusive(ds) { GatherStep(cache, m, ds, done, a); }
      r := Bump(SAME, r, ch);
      m := m + ch;
      todo := todo - {a};
      done := done + {a};
    }
    assert done == ds.Keys;
  }

  // ---------------------------------------------------------------- the state

  datatype Tracker = Tracker(
    dbRound: Round,
    db: Balances,
    creators: Creators,
    dbTotals: Totals,
    deltas: seq<Deltas>,
    mods: seq<AssetMods>,
    accounts: Cache<Address, AccountData>,
    assets: Cache<AssetIndex, AssetMod>,
    totals: seq<Totals>)
  {
    function Latest(): Round { dbRound + |deltas| }

    /** The accounts n rounds after the snapshot. */
    function After(n: nat): Balances
      requires n <= |deltas|
    {
      Replay(db, deltas[..n])
    }
  }

  ghost function TotalsAt(b: Balances, level: nat): Totals { TotalsOf(BookAt(b, level), level) }

  /** Both sides of a block fit into 64 bits together. */
  ghost predicate Fits(b: Balances, ds: Deltas, level: nat) {
    Supply(BookAt(b, level)) + Supply(BookAt(Applied(b, ds), level)) < UINT64
  }

  /** What evaluation guarantees of a block's changes to the accounts b. */
  ghost predicate BlockOk(b: Balances, before: nat, ds: Deltas, level: nat) {
    && StartsFrom(b, ds) && Exclusive(ds) && before <= level && Fits(b, ds, level)
    && Settled(Applied(b, ds), level)
    && TotalsAt(Applied(b, ds), level).All() == TotalsAt(b, before).All()
  }

  ghost predicate Linked(t: Tracker, i: nat)
    requires i < |t.deltas| == |t.mods| && |t.totals| == |t.deltas| + 1
  {
    BlockOk(t.After(i), t.totals[i].level, t.deltas[i], t.totals[i + 1].level) && AssetsOf(t.mods[i], t.deltas[i])
  }

  ghost predicate Summed(t: Tracker, i: nat)
    requires i <= |t.deltas| && |t.totals| == |t.deltas| + 1
  {
    t.totals[i] == TotalsAt(t.After(i), t.totals[i].level) && Settled(t.After(i), t.totals[i].level)
  }

  ghost predicate Good(t: Tracker) {
    && |t.mods| == |t.deltas| && |t.totals| == |t.deltas| + 1
    && t.dbTotals == t.totals[0]
    && CacheOk(NOW, t.accounts, t.deltas) && CacheOk(SAME, t.assets, t.mods)
    && (forall i :: 0 <= i < |t.deltas| ==> Linked(t, i))
    && (forall i :: 0 <= i <= |t.deltas| ==> Summed(t, i))
  }

  // ---------------------------------------------------------------- a new block

  function WithBlock(t: Tracker, ds: Deltas, m: AssetMods, total: Totals): Tracker {
    t.(deltas := t.deltas + [ds], mods := t.mods + [m], totals := t.totals + [total],
       accounts := Bumped(NOW, t.accounts, ds), assets := Bumped(SAME, t.assets, m))
  }

  lemma AfterUnchanged(t: Tracker, ds: Deltas, m: AssetMods, total: Totals, n: nat)
    requires n <= |t.deltas|
    ensures WithBlock(t, ds, m, total).After(n) == t.After(n)
  {
    assert (t.deltas + [ds])[..n] == t.deltas[..n];
  }

  lemma AfterNew(t: Tracker, ds: Deltas, m: AssetMods, total: Totals)
    ensures WithBlock(t, ds, m, total).After(|t.deltas| + 1) == Applied(t.After(|t.deltas|), ds)
  {
    var all := t.deltas + [ds];
    assert all[..|t.deltas| + 1] == all;
    assert all[..|all| - 1] == t.deltas && t.deltas[..|t.deltas|] == t.deltas;
  }

  lemma BlockLinked(t: Tracker, ds: Deltas, m: AssetMods, total: Totals, i: nat)
    requires Good(t) && i <= |t.deltas| && AssetsOf(m, ds)
    requires BlockOk(t.After(|t.deltas|), t.totals[|t.deltas|].level, ds, total.level)
    ensures |(t.mods + [m])| == |t.deltas| + 1 && |t.totals + [total]| == |t.deltas| + 2 && Linked(WithBlock(t, ds, m, total), i)
  {
    AfterUnchanged(t, ds, m, total, i);
    if i < |t.deltas| { assert Linked(t, i); }
  }

  lemma BlockSummed(t: Tracker, ds: Deltas, m: AssetMods, level: nat, i: nat)
    requires Good(t) && i <= |t.deltas| + 1 && Settled(Applied(t.After(|t.deltas|), ds), level)
    ensures Summed(WithBlock(t, ds, m, TotalsAt(Applied(t.After(|t.deltas|), ds), level)), i)
  {
    var total := TotalsAt(Applied(t.After(|t.deltas|), ds), level);
    if i <= |t.deltas| {
      AfterUnchanged(t, ds, m, total, i);
      assert Summed(t, i);
    } else {
      AfterNew(t, ds, m, total);
    }
  }

  /** A block keeps everything that was said about earlier rounds and says the same of the new one. */
  lemma BlockGood(t: Tracker, ds: Deltas, m: AssetMods, level: nat)
    requires Good(t) && BlockOk(t.After(|t.deltas|), t.totals[|t.deltas|].level, ds, level) && AssetsOf(m, ds)
    ensures Good(WithBlock(t, ds, m, TotalsAt(Applied(t.After(|t.deltas|), ds), level)))
  {
    var total := TotalsAt(Applied(t.After(|t.deltas|), ds), level);
    var t' := WithBlock(t, ds, m, total);
    BumpedOk(NOW, t.accounts, t.deltas, ds);
    BumpedOk(SAME, t.assets, t.mods, m);
    forall i | 0 <= i < |t'.deltas| ensures Linked(t', i) { BlockLinked(t, ds, m, total, i); }
    forall i | 0 <= i <= |t'.deltas| ensures Summed(t', i) { BlockSummed(t, ds, m, level, i); }
  }

  // ---------------------------------------------------------------- a flush

  lemma SettledSame(b: Balances, c: Balances, level: nat)
    requires Same(b, c) && Settled(b, level)
    ensures Settled(c, level)
  {
    forall a | a in c && !c[a].status.NotParticipating? ensures c[a].rewardsBase <= level {
      assert Of(b, a) == Of(c, a);
    }
  }

  lemma AppliedSame(b: Balances, c: Balances, ds: Deltas)
    requires Same(b, c)
    ensures Same(Applied(b, ds), Applied(c, ds))
  {
    forall a: Address ensures Of(Applied(b, ds), a) == Of(Applied(c, ds), a) { assert Of(b, a) == Of(c, a); }
  }

  lemma FitsSame(b: Balances, c: Balances, ds: Deltas, level: nat)
    requires Same(b, c) && Fits(b, ds, level)
    ensures Fits(c, ds, level)
  {
    AppliedSame(b, c, ds);
    SameBooks(b, c, level);
    SameBooks(Applied(b, ds), Applied(c, ds), level);
  }

  lemma TotalsSame(b: Balances, c: Balances, level: nat)
    requires Same(b, c)
    ensures TotalsAt(b, level) == TotalsAt(c, level)
  {
    SameBooks(b, c, level);
  }

  lemma StartsFromSame(b: Balances, c: Balances, ds: Deltas)
    requires Same(b, c) && StartsFrom(b, ds)
    ensures StartsFrom(c, ds)
  {
    forall a | a in ds ensures ds[a].prior == Of(c, a) { assert Of(b, a) == Of(c, a); }
  }

  lemma BlockOkSame(b: Balances, c: Balances, before: nat, ds: Deltas, level: nat)
    requires Same(b, c) && BlockOk(b, before, ds, level)
    ensures BlockOk(c, before, ds, level)
  {
    StartsFromSame(b, c, ds);
    FitsSame(b, c, ds, level);
    AppliedSame(b, c, ds);
    SettledSame(Applied(b, ds), Applied(c, ds), level);
    TotalsSame(b, c, before);
    TotalsSame(Applied(b, ds), Applied(c, ds), level);
  }

  /** t' is t after its first n rounds went to disk. */
  ghost predicate Flushed(t: Tracker, t': Tracker, n: nat)
    requires n <= |t.deltas| && |t.mods| == |t.deltas| && |t.totals| == |t.deltas| + 1
  {
    && t'.dbRound == t.dbRound + n
    && Same(t'.db, t.After(n))
    && t'.creators == ReplayCreators(t.creators, t.mods[..n])
    && t'.dbTotals == t.totals[n]
    && t'.deltas == t.deltas[n..] && t'.mods == t.mods[n..] && t'.totals == t.totals[n..]
    && CacheOk(NOW, t'.accounts, t.deltas[n..]) && CacheOk(SAME, t'.assets, t.mods[n..])
  }

  /** A flush changes no account of any round that can still be asked for. */
  lemma FlushKeepsViews(t: Tracker, t': Tracker, n: nat, j: nat)
    requires n + j <= |t.deltas| && |t.mods| == |t.deltas| && |t.totals| == |t.deltas| + 1 && Flushed(t, t', n)
    ensures Same(t'.After(j), t.After(n + j))
    ensures ReplayCreators(t'.creators, t'.mods[..j]) == ReplayCreators(t.creators, t.mods[..n + j])
  {
    var ds := t.deltas[..n + j];
    ReplaySplit(t.db, ds, n);
    assert ds[..n] == t.deltas[..n] && ds[n..] == t'.deltas[..j];
    ReplaySame(t'.db, t.After(n), t'.deltas[..j]);
    var ms := t.mods[..n + j];
    ReplayCreatorsSplit(t.creators, ms, n);
    assert ms[..n] == t.mods[..n] && ms[n..] == t'.mods[..j];
  }

  lemma FlushLinked(t: Tracker, t': Tracker, n: nat, i: nat)
    requires Good(t) && n + i < |t.deltas| && Flushed(t, t', n)
    ensures Linked(t', i)
  {
    assert Linked(t, n + i);
    FlushKeepsViews(t, t', n, i);
    BlockOkSame(t.After(n + i), t'.After(i), t.totals[n + i].level, t.deltas[n + i], t.totals[n + i + 1].level);
  }

  lemma FlushSummed(t: Tracker, t': Tracker, n: nat, i: nat)
    requires Good(t) && n + i <= |t.deltas| && Flushed(t, t', n)
    ensures Summed(t', i)
  {
    assert Summed(t, n + i);
    FlushKeepsViews(t, t', n, i);
    SameBooks(t'.After(i), t.After(n + i), t.totals[n + i].level);
    SettledSame(t.After(n + i), t'.After(i), t.totals[n + i].level);
  }

  lemma FlushGood(t: Tracker, t': Tracker, n: nat)
    requires Good(t) && n <= |t.deltas| && Flushed(t, t', n)
    ensures Good(t')
  {
    forall i | 0 <= i < |t'.deltas| ensures Linked(t', i) { FlushLinked(t, t', n, i); }
    forall i | 0 <= i <= |t'.deltas| ensures Summed(t', i) { FlushSummed(t, t', n, i); }
  }
}
