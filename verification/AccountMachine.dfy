/** The account tracker as an object, and the transaction that moves a round to disk. */
module AccountMachine {
  import opened Options
  import opened AccountTotals
  import opened Accounts
  import opened Cow
  import opened RefCounts
  import opened AccountUpdates
  import opened AssetListing
  import opened AssetNumbers

  // ---------------------------------------------------------------- the database transaction

  /** Insert and delete rows of the creator table; None when an insert finds a row. */
  method StoreAssets(c: Creators, ms: AssetMods) returns (r: Option<Creators>)
    ensures r.Some? <==> Insertable(c, ms)
    ensures r.Some? ==> r.value == CreatorsAfter(c, ms)
  {
    var d := c;
    var todo := ms.Keys;
    while todo != {}
      invariant todo <= ms.Keys
      invariant forall i :: i in todo || i !in ms ==> (i in d <==> i in c) && (i in c ==> d[i] == c[i])
      invariant forall i :: i in ms && i !in todo ==> (i in d <==> ms[i].created) && (i in d ==> d[i] == ms[i].creator)
      invariant forall i :: i in ms && i !in todo && ms[i].created ==> i !in c
      decreases |todo|
    {
      var i :| i in todo;
      if ms[i].created {
        if i in d { return None; }
        d := d[i := ms[i].creator];
      } else {
        d := d - {i};
      }
      todo := todo - {i};
    }
    AllStored(c, ms, d);
    return Some(d);
  }

  lemma AllStored(c: Creators, ms: AssetMods, d: Creators)
    requires forall i :: i !in ms ==> (i in d <==> i in c) && (i in c ==> d[i] == c[i])
    requires forall i :: i in ms ==> (i in d <==> ms[i].created) && (i in d ==> d[i] == ms[i].creator)
    ensures d == CreatorsAfter(c, ms)
  {
  }

  lemma StoreStep(c: Creators, m: AssetMods, ds: Deltas, done: set<Address>, a: Address)
    requires Exclusive(ds) && Gathers(m, ds, done) && a in ds && a !in done
    ensures var ch := AssetChanges(a, ds[a]);
      && Gathers(m + ch, ds, done + {a}) && CreatorsAfter(CreatorsAfter(c, m), ch) == CreatorsAfter(c, m + ch)
      && (Insertable(CreatorsAfter(c, m), ch) <==> Insertable(c, ch))
  {
    GatherOne(m, ds, done, a);
    CreatorsTwice(c, m, AssetChanges(a, ds[a]));
    InsertableApart(c, m, AssetChanges(a, ds[a]));
  }

  /** Changes of other assets do not get in the way. */
  lemma InsertableApart(c: Creators, m: AssetMods, n: AssetMods)
    requires m.Keys !! n.Keys
    ensures Insertable(CreatorsAfter(c, m), n) <==> Insertable(c, n)
  {
    forall i | i in n ensures i in CreatorsAfter(c, m) <==> i in c {
      assert i !in m.Keys;
    }
  }

  /** A block can be inserted when what each of its accounts creates can be. */
  lemma InsertableBlock(c: Creators, m: AssetMods, ds: Deltas)
    requires AssetsOf(m, ds)
    ensures Insertable(c, m) <==> forall a :: a in ds ==> Insertable(c, AssetChanges(a, ds[a]))
  {
    if Insertable(c, m) {
      forall a, i | a in ds && i in AssetChanges(a, ds[a]) && AssetChanges(a, ds[a])[i].created ensures i !in c {
        assert i in m && FromAccount(m, ds, ds.Keys, i);
      }
    }
    if forall a :: a in ds ==> Insertable(c, AssetChanges(a, ds[a])) {
      forall i | i in m && m[i].created ensures i !in c {
        assert FromAccount(m, ds, ds.Keys, i);
      }
    }
  }

  /** The accounts with a row, after the changes at all but the addresses in todo. */
  ghost predicate Stored(db: Balances, ds: Deltas, todo: set<Address>, r: Balances) {
    forall a: Address :: Of(r, a) == if a in ds && a !in todo then ds[a].now else Of(db, a)
  }

  /** One row: an empty account is deleted. */
  function Row(db: Balances, a: Address, d: AccountData): Balances {
    if d == ZERO then db - {a} else db[a := d]
  }

  lemma StoredStep(db: Balances, ds: Deltas, todo: set<Address>, r: Balances, a: Address)
    requires Stored(db, ds, todo, r) && a in ds
    ensures Stored(db, ds, todo - {a}, Row(r, a, ds[a].now))
  {
    forall x: Address ensures Of(Row(r, a, ds[a].now), x) == if x in ds && x !in todo - {a} then ds[x].now else Of(db, x) {
      if x != a { assert Of(Row(r, a, ds[a].now), x) == Of(r, x); }
    }
  }

  /** Write the accounts and assets of one round. */
  method StoreRound(db: Balances, c: Creators, ds: Deltas) returns (db': Balances, c': Creators, ok: bool, ghost m: AssetMods)
    requires Exclusive(ds)
    ensures ok <==> forall a :: a in ds ==> Insertable(c, AssetChanges(a, ds[a]))
    ensures ok ==> Stored(db, ds, {}, db') && AssetsOf(m, ds) && c' == CreatorsAfter(c, m)
  {
    db', c', ok, m := db, c, true, map[];
    var todo := ds.Keys;
    ghost var done: set<Address> := {};
    assert CreatorsAfter(c, m) == c;
    while todo != {}
      invariant forall a :: a in todo <==> a in ds && a !in done
      invariant done <= ds.Keys && Stored(db, ds, todo, db') && Gathers(m, ds, done)
      invariant c' == CreatorsAfter(c, m)
      invariant forall a :: a in done ==> Insertable(c, AssetChanges(a, ds[a]))
      decreases |todo|
    {
      var a :| a in todo;
      var ch := AssetChanges(a, ds[a]);
      StoreStep(c, m, ds, done, a);
      var r := StoreAssets(c', ch);
      if r.None? { return db', c', false, m; }
      StoredStep(db, ds, todo, db', a);
      db' := Row(db', a, ds[a].now);
      c', m := r.value, m + ch;
      todo := todo - {a};
      done := done + {a};
    }
    assert done == ds.Keys;
  }

  lemma StoredIsApplied(db: Balances, ds: Deltas, r: Balances)
    requires Stored(db, ds, {}, r)
    ensures Same(r, Applied(db, ds))
  {
  }

  /** The asset changes of a block are determined by it. */
  lemma AssetsUnique(m: AssetMods, n: AssetMods, ds: Deltas)
    requires AssetsOf(m, ds) && AssetsOf(n, ds)
    ensures m == n
  {
    forall i | i in m ensures i in n && n[i] == m[i] {
      assert FromAccount(m, ds, ds.Keys, i);
      assert FromAccount(n, ds, ds.Keys, i);
    }
    forall i | i in n ensures i in m { assert FromAccount(n, ds, ds.Keys, i); }
  }

  // ---------------------------------------------------------------- the object

  /** What a block leads to. */
  datatype Prepared = Prepared(accounts: Cache<Address, AccountData>, assets: Cache<AssetIndex, AssetMod>, mods: AssetMods, total: Totals)

  datatype Outcome = Ignored | Appended(block: Prepared) | Panicked

  function Extended(t: Tracker, ds: Deltas, p: Prepared): Tracker {
    t.(deltas := t.deltas + [ds], mods := t.mods + [p.mods], totals := t.totals + [p.total], accounts := p.accounts, assets := p.assets)
  }

  ghost predicate Sound(t: Tracker, counters: seq<nat>) {
    Good(t) && Numbered(t.creators, t.mods, counters) && OwnsLatest(t)
  }

  /** What the evaluation of a block guarantees. */
  ghost predicate Vouched(t: Tracker, counters: seq<nat>, ds: Deltas, level: nat, counter: nat)
    requires |t.totals| == |t.deltas| + 1 == |counters|
  {
    BlockOk(t.After(|t.deltas|), t.totals[|t.deltas|].level, ds, level) && Allocates(ds, counters[|t.deltas|], counter)
  }

  /** In some order of the changed accounts the totals overflow or the sum of money changes. */
  ghost predicate Refused(t: Tracker, ds: Deltas, level: nat, order: seq<Address>)
    requires |t.totals| == |t.deltas| + 1
  {
    && Distinct(order) && Taken(order) == MovesAt(ds, level).Keys
    && var last := t.totals[|t.deltas|];
    var tally := ShiftedAll(Rewarded(Tally(last, false), level), MovesAt(ds, level), order);
    tally.overflowed || tally.totals.All() != last.All()
  }

  /** The block's totals and asset changes are those of its accounts, and all is well with
      the tracker it leads to. */
  ghost predicate Extends(t: Tracker, counters: seq<nat>, ds: Deltas, level: nat, counter: nat, p: Prepared) {
    && p.total == TotalsAt(Applied(t.After(|t.deltas|), ds), level) && AssetsOf(p.mods, ds)
    && Sound(Extended(t, ds, p), counters + [counter])
  }

  datatype Snapshot = Snapshot(accounts: Balances, creators: Creators, totals: Totals)

  datatype Caches = Caches(accounts: Cache<Address, AccountData>, assets: Cache<AssetIndex, AssetMod>)

  function Rebased(t: Tracker, n: nat, s: Snapshot, kept: Caches): Tracker
    requires n <= |t.deltas| == |t.mods| && |t.totals| == |t.deltas| + 1
  {
    Tracker(t.dbRound + n, s.accounts, s.creators, s.totals, t.deltas[n..], t.mods[n..], kept.accounts, kept.assets, t.totals[n..])
  }

  /** A snapshot of the state after the first n rounds. */
  ghost predicate Holds(t: Tracker, n: nat, s: Snapshot)
    requires n <= |t.deltas| == |t.mods| && |t.totals| == |t.deltas| + 1
  {
    Same(s.accounts, t.After(n)) && s.creators == ReplayCreators(t.creators, t.mods[..n]) && s.totals == t.totals[n]
  }

  class AccountTracker {
    var dbRound: Round
    var db: Balances
    var creators: Creators
    var dbTotals: Totals
    var deltas: seq<Deltas>
    var mods: seq<AssetMods>
    var accounts: Cache<Address, AccountData>
    var assets: Cache<AssetIndex, AssetMod>
    var totals: seq<Totals>
    /** The transaction counters of the block headers from the snapshot on. */
    ghost var counters: seq<nat>

    function Model(): Tracker
      reads this
    {
      Tracker(dbRound, db, creators, dbTotals, deltas, mods, accounts, assets, totals)
    }

    ghost predicate Valid()
      reads this
    {
      Sound(Model(), counters)
    }

    /** A genesis snapshot. */
    constructor (b: Balances, c: Creators, t: Totals, ghost counter: nat)
      requires t == TotalsAt(b, t.level) && Settled(b, t.level) && Owns(b, c) && UpToNumber(c, counter)
      ensures Valid() && dbRound == 0 && Model().Latest() == 0 && Model().After(0) == b && counters == [counter]
    {
      dbRound, db, creators, dbTotals := 0, b, c, t;
      deltas, mods, accounts, assets, totals := [], [], map[], map[], [t];
      counters := [counter];
    }

    /** How many rounds after the snapshot a round is; None when it is out of range. */
    function Offset(rnd: Round): Option<nat>
      reads this
    {
      if rnd < dbRound || rnd - dbRound > |deltas| then None else Some(rnd - dbRound)
    }

    /** The account of an address in a round, with or without the rewards due then. */
    method Lookup(rnd: Round, a: Address, withRewards: bool) returns (d: Option<AccountData>)
      requires Valid()
      ensures d.Some? <==> dbRound <= rnd <= Model().Latest()
      ensures d.Some? ==>
        var raw := Of(Model().After(rnd - dbRound), a);
        d.value == if withRewards then raw.WithRewards(totals[rnd - dbRound].level) else raw
    {
      match Offset(rnd)
      case None => return None;
      case Some(offset) =>
        var raw := LookupRaw(offset, a);
        return Some(if withRewards then raw.WithRewards(totals[offset].level) else raw);
    }

    method LookupRaw(offset: nat, a: Address) returns (raw: AccountData)
      requires Valid() && offset <= |deltas|
      ensures raw == Of(Model().After(offset), a)
    {
      LastIsReplay(db, deltas[..offset], a);
      if offset == |deltas| {
        assert deltas[..offset] == deltas;
        assert EntryOk(NOW, accounts, deltas, a);
        if a in accounts { return accounts[a].value; }
        TouchedIffChanged(deltas, a);
      } else {
        var i := offset;
        while i > 0
          invariant 0 <= i <= offset
          invariant Last(deltas[..i], a) == Last(deltas[..offset], a)
        {
          LastPrefix(deltas, i, a);
          i := i - 1;
          if a in deltas[i] { return deltas[i][a].now; }
        }
      }
      return Of(db, a);
    }

    method GetAssetCreatorForRound(rnd: Round, aidx: AssetIndex) returns (c: Option<Option<Address>>)
      requires Valid()
      ensures c.Some? <==> dbRound <= rnd <= Model().Latest()
      ensures c.Some? ==> c.value == CreatorIn(ReplayCreators(creators, mods[..rnd - dbRound]), aidx)
    {
      match Offset(rnd)
      case None => return None;
      case Some(offset) =>
        var r := CreatorRaw(offset, aidx);
        return Some(r);
    }

    method CreatorRaw(offset: nat, aidx: AssetIndex) returns (c: Option<Address>)
      requires Valid() && offset <= |deltas|
      ensures c == CreatorIn(ReplayCreators(creators, mods[..offset]), aidx)
    {
      LastIsReplayCreators(creators, mods[..offset], aidx);
      if offset == |deltas| {
        assert mods[..offset] == mods;
        assert EntryOk(SAME, assets, mods, aidx);
        if aidx in assets {
          return if assets[aidx].value.created then Some(assets[aidx].value.creator) else None;
        }
        TouchedIffChanged(mods, aidx);
      } else {
        var i := offset;
        while i > 0
          invariant 0 <= i <= offset
          invariant Last(mods[..i], aidx) == Last(mods[..offset], aidx)
        {
          LastPrefix(mods, i, aidx);
          i := i - 1;
          if aidx in mods[i] { return if mods[i][aidx].created then Some(mods[i][aidx].creator) else None; }
        }
      }
      return CreatorIn(creators, aidx);
    }

    /** All accounts of a round. */
    method AllBalances(rnd: Round) returns (bals: Option<Balances>)
      requires Valid()
      ensures bals.Some? <==> dbRound <= rnd <= Model().Latest()
      ensures bals.Some? ==> bals.value == Model().After(rnd - dbRound)
    {
      match Offset(rnd)
      case None => return None;
      case Some(limit) =>
        var b := db;
        var i := 0;
        while i < limit
          invariant 0 <= i <= limit && b == Replay(db, deltas[..i])
        {
          assert deltas[..i + 1][..i] == deltas[..i];
          b := Overwrite(b, deltas[i]);
          i := i + 1;
        }
        return Some(b);
    }

    /** The first maxResults assets of the latest round at or below a bound, newest first,
        when indices grow and the sum of results and deletions stays in 64 bits. */
    method ListAssets(bound: AssetIndex, maxResults: nat) returns (r: seq<Locator>)
      requires Valid()
      ensures var live := ReplayCreators(creators, mods);
        && Locates(r, live)
        && (maxResults + |assets| < UINT64 ==> Indices(r) == Take(Descending(UpTo(live.Keys, bound)), maxResults))
        && (maxResults < UINT64 && |assets| < UINT64 ==>
              (Indices(r) == Take(Descending(UpTo(live.Keys, bound)), maxResults) <==> PageSuffices(assets, creators, bound, maxResults)))
    {
      LiveIsReplay(Model());
      FewDeleted(assets, bound);
      NumberedIncreasing(Model(), counters);
      r := AssetListing.ListAssets(assets, creators, bound, maxResults);
      if maxResults < UINT64 && |assets| < UINT64 { ListingCondition(assets, creators, bound, maxResults); }
      if maxResults + |assets| < UINT64 { ListingExact(assets, creators, bound, maxResults); }
    }

    /** The new caches, asset changes and totals that a block leads to; None for a panic. */
    method Prepare(ds: Deltas, level: nat, ghost counter: nat) returns (r: Option<Prepared>)
      requires Valid()
      ensures r.Some? ==> r.value.total.All() == totals[|deltas|].All()
      ensures r.None? ==> exists order :: Refused(Model(), ds, level, order)
      ensures Vouched(Model(), counters, ds, level, counter) ==> r.Some? && Extends(Model(), counters, ds, level, counter, r.value)
    {
      var last := totals[|totals| - 1];
      var tally, order := NewTotals(last, ds, level);
      if Vouched(Model(), counters, ds, level, counter) { VouchedTotals(Model(), ds, level, order); }
      if tally.overflowed || last.All() != tally.totals.All() {
        assert Refused(Model(), ds, level, order);
        return None;
      }
      var newAccounts := Bump(NOW, accounts, ds);
      var newAssets, m := GatherAssets(assets, ds);
      if Vouched(Model(), counters, ds, level, counter) { VouchedBlock(Model(), counters, ds, m, level, counter); }
      return Some(Prepared(newAccounts, newAssets, m, tally.totals));
    }

    /** Add a block. One that evaluation vouches for never panics and keeps all that is said
        here; no block at all is added if it changes the sum of money. */
    method NewBlock(rnd: Round, ds: Deltas, level: nat, ghost counter: nat) returns (outcome: Outcome)
      requires Valid()
      modifies this
      ensures rnd <= old(Model().Latest()) ==> outcome == Ignored
      ensures rnd > old(Model().Latest()) + 1 ==> outcome == Panicked
      ensures rnd == old(Model().Latest()) + 1 ==> outcome.Appended? || outcome == Panicked
      ensures rnd == old(Model().Latest()) + 1 && outcome == Panicked ==> exists order :: Refused(old(Model()), ds, level, order)
      ensures !outcome.Appended? ==> Model() == old(Model()) && counters == old(counters)
      ensures outcome.Appended? ==>
        && Model() == Extended(old(Model()), ds, outcome.block) && counters == old(counters) + [counter]
        && outcome.block.total.All() == old(totals[|deltas|]).All()
      ensures rnd == old(Model().Latest()) + 1 && Vouched(old(Model()), old(counters), ds, level, counter) ==>
        outcome.Appended? && Valid() && Extends(old(Model()), old(counters), ds, level, counter, outcome.block)
    {
      if rnd <= dbRound + |deltas| { return Ignored; }
      if rnd != dbRound + |deltas| + 1 { return Panicked; }
      var r := Prepare(ds, level, counter);
      if r.None? { return Panicked; }
      Install(ds, r.value, counter);
      return Appended(r.value);
    }

    method Install(ds: Deltas, p: Prepared, ghost counter: nat)
      modifies this
      ensures Model() == Extended(old(Model()), ds, p) && counters == old(counters) + [counter]
    {
      deltas, mods, totals := deltas + [ds], mods + [p.mods], totals + [p.total];
      accounts, assets := p.accounts, p.assets;
      counters := counters + [counter];
    }

    /** Write one more round on top of the first i; no insert finds a row. */
    method FlushOne(i: nat, s: Snapshot) returns (r: Option<Snapshot>)
      requires Valid() && i < |deltas| && Holds(Model(), i, s)
      ensures r.Some? && Holds(Model(), i + 1, r.value)
    {
      var tally, order := NewTotals(s.totals, deltas[i], totals[i + 1].level);
      TotalsStored(Model(), i, order);
      if tally.overflowed { return None; }
      assert Linked(Model(), i);
      var b', c', ok, m := StoreRound(s.accounts, s.creators, deltas[i]);
      NumberedInserts(creators, mods, counters, i);
      InsertableBlock(s.creators, mods[i], deltas[i]);
      if !ok { return None; }
      AccountsStored(Model(), i, s.accounts, b');
      CreatorsStored(Model(), i, m);
      return Some(Snapshot(b', c', tally.totals));
    }

    /** Write the first n rounds in one transaction; None when it is rolled back. */
    method FlushRounds(n: nat, dbFails: bool) returns (r: Option<Snapshot>)
      requires Valid() && n <= |deltas|
      ensures r.Some? <==> !dbFails
      ensures r.Some? ==> Holds(Model(), n, r.value)
    {
      if dbFails { return None; }
      var s := Snapshot(db, creators, dbTotals);
      var i := 0;
      while i < n
        invariant 0 <= i <= n && Holds(Model(), i, s)
      {
        var stored := FlushOne(i, s);
        if stored.None? { return None; }
        s := stored.value;
        i := i + 1;
      }
      return Some(s);
    }

    /** Drop the references of the first n rounds; no count is ever missing or too small. */
    method Release(n: nat) returns (r: Option<Caches>)
      requires Valid() && n <= |deltas|
      ensures r.Some? && CacheOk(NOW, r.value.accounts, deltas[n..]) && CacheOk(SAME, r.value.assets, mods[n..])
    {
      var counts := CountAll(deltas[..n]);
      var assetCounts := CountAll(mods[..n]);
      var newAccounts := Evict(accounts, counts);
      var newAssets := Evict(assets, assetCounts);
      EvictOk(NOW, accounts, deltas, n, counts);
      EvictOk(SAME, assets, mods, n, assetCounts);
      if newAccounts.None? || newAssets.None? { return None; }
      EvictedCache(NOW, accounts, deltas, n, counts, newAccounts.value);
      EvictedCache(SAME, assets, mods, n, assetCounts, newAssets.value);
      return Some(Caches(newAccounts.value, newAssets.value));
    }

    /** Start from a new snapshot. */
    method Rebase(n: nat, stored: Snapshot, kept: Caches)
      requires n <= |deltas| == |mods| && |totals| == |deltas| + 1 == |counters|
      modifies this
      ensures Model() == Rebased(old(Model()), n, stored, kept) && counters == old(counters)[n..]
    {
      db, creators, dbTotals := stored.accounts, stored.creators, stored.totals;
      accounts, assets := kept.accounts, kept.assets;
      deltas, mods, totals, dbRound := deltas[n..], mods[n..], totals[n..], dbRound + n;
      counters := counters[n..];
    }

    /** The ledger has committed up to a round: flush what is older than the lookback. The
        result is the oldest round that is still needed, or None for a panic. */
    method CommittedUpTo(rnd: Round, lookback: nat, recentlyFlushed: bool, dbFails: bool) returns (r: Option<Round>)
      requires Valid()
      modifies this
      ensures Valid()
      ensures r.None? <==> rnd > old(Model().Latest()) + lookback
      ensures r.Some? ==> r.value == if rnd < lookback then 0 else dbRound
      ensures Model().Latest() == old(Model().Latest()) && old(dbRound) <= dbRound
      ensures dbRound == old(dbRound) ==> Model() == old(Model())
      ensures dbRound > old(dbRound) <==>
        !recentlyFlushed && !dbFails && lookback <= rnd && old(dbRound) < rnd - lookback <= old(Model().Latest())
      ensures dbRound > old(dbRound) ==> dbRound == rnd - lookback
      ensures Flushed(old(Model()), Model(), dbRound - old(dbRound)) || Model() == old(Model())
    {
      if rnd < lookback { return Some(0); }
      var newBase := rnd - lookback;
      if newBase <= dbRound { return Some(dbRound); }
      if newBase > dbRound + |deltas| { return None; }
      if recentlyFlushed { return Some(dbRound); }
      var n := newBase - dbRound;
      var stored := FlushRounds(n, dbFails);
      if stored.None? { return Some(dbRound); }
      var kept := Release(n);
      if kept.None? { return None; }
      RebasedSound(Model(), counters, n, stored.value, kept.value);
      Rebase(n, stored.value, kept.value);
      return Some(dbRound);
    }
  }

  /** The totals of a block that evaluation vouches for: exact, and the same sum of money. */
  lemma VouchedTotals(t: Tracker, ds: Deltas, level: nat, order: seq<Address>)
    requires Good(t) && BlockOk(t.After(|t.deltas|), t.totals[|t.deltas|].level, ds, level)
    requires Distinct(order) && Taken(order) == MovesAt(ds, level).Keys
    ensures var total := TotalsAt(Applied(t.After(|t.deltas|), ds), level);
      && ShiftedAll(Rewarded(Tally(t.totals[|t.deltas|], false), level), MovesAt(ds, level), order) == Tally(total, false)
      && total.All() == t.totals[|t.deltas|].All()
  {
    assert Summed(t, |t.deltas|);
    NewTotalsExact(t.After(|t.deltas|), t.totals[|t.deltas|].level, ds, level, order);
  }

  lemma VouchedBlock(t: Tracker, counters: seq<nat>, ds: Deltas, m: AssetMods, level: nat, counter: nat)
    requires Sound(t, counters) && Vouched(t, counters, ds, level, counter) && AssetsOf(m, ds)
    ensures Sound(WithBlock(t, ds, m, TotalsAt(Applied(t.After(|t.deltas|), ds), level)), counters + [counter])
  {
    BlockGood(t, ds, m, level);
    AllocatedMods(m, ds, counters[|t.deltas|], counter);
    NumberedBlock(t.creators, t.mods, counters, m, counter);
    ReplayUpTo(t.creators, t.mods, counters, |t.mods|);
    assert t.mods[..|t.mods|] == t.mods;
    OwnsAfterBlock(t, ds, m, TotalsAt(Applied(t.After(|t.deltas|), ds), level), counters[|t.deltas|], counter);
  }

  lemma RebasedSound(t: Tracker, counters: seq<nat>, n: nat, s: Snapshot, kept: Caches)
    requires Sound(t, counters) && n <= |t.deltas| && Holds(t, n, s)
    requires CacheOk(NOW, kept.accounts, t.deltas[n..]) && CacheOk(SAME, kept.assets, t.mods[n..])
    ensures Flushed(t, Rebased(t, n, s, kept), n) && Sound(Rebased(t, n, s, kept), counters[n..])
  {
    var t' := Rebased(t, n, s, kept);
    assert Flushed(t, t', n);
    FlushGood(t, t', n);
    NumberedFlush(t.creators, t.mods, counters, n);
    OwnsAfterFlush(t, t', n);
  }

  lemma AccountsStored(t: Tracker, i: nat, b: Balances, b': Balances)
    requires i < |t.deltas| && Same(b, t.After(i)) && Stored(b, t.deltas[i], {}, b')
    ensures Same(b', t.After(i + 1))
  {
    StoredIsApplied(b, t.deltas[i], b');
    AppliedSame(b, t.After(i), t.deltas[i]);
    assert t.deltas[..i + 1][..i] == t.deltas[..i];
  }

  lemma CreatorsStored(t: Tracker, i: nat, m: AssetMods)
    requires i < |t.deltas| == |t.mods| && AssetsOf(m, t.deltas[i]) && AssetsOf(t.mods[i], t.deltas[i])
    ensures CreatorsAfter(ReplayCreators(t.creators, t.mods[..i]), m) == ReplayCreators(t.creators, t.mods[..i + 1])
  {
    assert t.mods[..i + 1][..i] == t.mods[..i];
    AssetsUnique(m, t.mods[i], t.deltas[i]);
  }

  /** A flush computes the totals of each round again, and they are the same. */
  lemma TotalsStored(t: Tracker, i: nat, order: seq<Address>)
    requires Good(t) && i < |t.deltas|
    requires Distinct(order) && Taken(order) == MovesAt(t.deltas[i], t.totals[i + 1].level).Keys
    ensures ShiftedAll(Rewarded(Tally(t.totals[i], false), t.totals[i + 1].level), MovesAt(t.deltas[i], t.totals[i + 1].level), order)
         == Tally(t.totals[i + 1], false)
  {
    assert t.deltas[..i + 1][..i] == t.deltas[..i];
    assert Linked(t, i) && Summed(t, i) && Summed(t, i + 1);
    NewTotalsExact(t.After(i), t.totals[i].level, t.deltas[i], t.totals[i + 1].level, order);
  }

  lemma Overwritten(b: Balances, ds: Deltas, r: Balances)
    requires forall a :: a in r <==> a in b || a in ds
    requires forall a :: a in r ==> r[a] == if a in ds then ds[a].now else b[a]
    ensures r == Applied(b, ds)
  {
  }

  /** The inner loop of reading all balances. */
  method Overwrite(b: Balances, ds: Deltas) returns (r: Balances)
    ensures r == Applied(b, ds)
  {
    r := b;
    var todo := ds.Keys;
    while todo != {}
      invariant todo <= ds.Keys
      invariant forall a :: a in r <==> a in b || (a in ds && a !in todo)
      invariant forall a :: a in r ==> r[a] == if a in ds && a !in todo then ds[a].now else b[a]
      decreases |todo|
    {
      var a :| a in todo;
      r := r[a := ds[a].now];
      todo := todo - {a};
    }
    Overwritten(b, ds, r);
  }
}
