/** Every block that the evaluator produces is one that the account tracker takes. */
module EvalAccepted {
  import opened Options
  import opened AccountTotals
  import opened Accounts
  import opened Cow
  import opened Eval
  import opened EvalMoney
  import opened AccountUpdates
  import opened AssetNumbers
  import opened AccountMachine

  // ---------------------------------------------------------------- asset numbers inside a block

  /** The creators are those that the accounts name, none is numbered beyond the counter, and
      those up to the counter of the block before are as they were. */
  ghost predicate Tidy(base: Base, t: Table) {
    && Owns(t.balances, t.creators) && UpToNumber(t.creators, t.Counter()) && t.txns == base.txns
    && (forall i :: i in t.creators && i <= base.txns ==> i in base.creators && base.creators[i] == t.creators[i])
  }

  lemma SameAssetsOwn(b: Balances, c: Creators, a: Address, d: AccountData)
    requires Owns(b, c) && d.created == Of(b, a).created
    ensures Owns(b[a := d], c)
  {
    forall i: AssetIndex, x: Address ensures i in Of(b[a := d], x).created <==> CreatorIn(c, i) == Some(x) {
      assert i in Of(b, x).created <==> CreatorIn(c, i) == Some(x);
    }
  }

  lemma PaidOwns(b: Balances, c: Creators, m: Task, level: nat)
    requires m.Transfer? && Owns(b, c) && Paid(b, m, level).Some?
    ensures Owns(Paid(b, m, level).value, c)
  {
    var out := -(m.amount as int);
    SameAssetsOwn(b, c, m.from, Adjusted(Of(b, m.from), level, out));
    var b1 := Pay(b, m.from, level, out);
    SameAssetsOwn(b1, c, m.to, Adjusted(Of(b1, m.to), level, m.amount));
  }

  lemma AllocatedOwns(b: Balances, c: Creators, a: Address, n: nat)
    requires Owns(b, c) && n !in c
    ensures Owns(b[a := Of(b, a).(created := Of(b, a).created + {n})], c[n := a])
  {
    var b' := b[a := Of(b, a).(created := Of(b, a).created + {n})];
    forall i: AssetIndex, x: Address ensures i in Of(b', x).created <==> CreatorIn(c[n := a], i) == Some(x) {
      assert i in Of(b, x).created <==> CreatorIn(c, i) == Some(x);
    }
  }

  lemma DestroyedOwns(b: Balances, c: Creators, i: AssetIndex)
    requires Owns(b, c) && i in c
    ensures Owns(b[c[i] := Of(b, c[i]).(created := Of(b, c[i]).created - {i})], c - {i})
  {
    var b' := b[c[i] := Of(b, c[i]).(created := Of(b, c[i]).created - {i})];
    forall j: AssetIndex, x: Address ensures j in Of(b', x).created <==> CreatorIn(c - {i}, j) == Some(x) {
      assert j in Of(b, x).created <==> CreatorIn(c, j) == Some(x);
    }
  }

  lemma EnteredTidy(base: Base, t: Table, p: Task, level: nat)
    requires Tidy(base, t) && Entered(t, p, level).Some?
    ensures Tidy(base, Entered(t, p, level).value)
  {
    match p
    case Transfer(_, _, _) => PaidOwns(t.balances, t.creators, p, level);
    case Finish(op, id, _) =>
      match op
      case NoAsset => Counted(t.ids, id);
      case Allocate(a) => AllocateTidy(base, t, p, a);
      case Destroy(i) => DestroyTidy(base, t, p, i);
  }

  lemma Counted(ids: set<Txid>, id: Txid)
    requires id !in ids
    ensures |ids + {id}| == |ids| + 1
  {
  }

  lemma AllocateTidy(base: Base, t: Table, f: Task, a: Address)
    requires Tidy(base, t) && f.Finish? && f.op == Allocate(a) && f.id !in t.ids && Ended(t, f, a).Some?
    ensures Tidy(base, Ended(t, f, a).value)
  {
    Counted(t.ids, f.id);
    AllocatedOwns(t.balances, t.creators, a, t.Counter() + 1);
  }

  lemma DestroyTidy(base: Base, t: Table, f: Task, i: AssetIndex)
    requires Tidy(base, t) && f.Finish? && f.op == Destroy(i) && f.id !in t.ids && i in t.creators && Ended(t, f, t.creators[i]).Some?
    ensures Tidy(base, Ended(t, f, t.creators[i]).value)
  {
    Counted(t.ids, f.id);
    DestroyedOwns(t.balances, t.creators, i);
  }

  /** The number after the counter is never taken: a new asset is refused only if its
      transaction was seen before. */
  lemma AllocationSucceeds(base: Base, t: Table, f: Task, level: nat)
    requires Tidy(base, t) && f.Finish? && f.op.Allocate?
    ensures Entered(t, f, level).Some? <==> f.id !in t.ids
  {
    var a, n := f.op.a, t.Counter() + 1;
    assert n in Of(t.balances, a).created <==> CreatorIn(t.creators, n) == Some(a);
  }

  lemma {:induction false} AllTidy(base: Base, t: Table, ps: seq<Task>, level: nat)
    requires Tidy(base, t) && EnteredAll(t, ps, level).Some?
    ensures Tidy(base, EnteredAll(t, ps, level).value)
  {
    if ps != [] {
      AllTidy(base, t, ps[..|ps| - 1], level);
      EnteredTidy(base, EnteredAll(t, ps[..|ps| - 1], level).value, ps[|ps| - 1], level);
    }
  }

  lemma {:induction false} GroupsTidy(base: Base, t: Table, groups: seq<seq<Task>>, level: nat)
    requires Tidy(base, t)
    ensures Tidy(base, EnteredGroups(t, groups, level))
  {
    if groups != [] {
      GroupsTidy(base, t, groups[..|groups| - 1], level);
      var u := EnteredGroups(t, groups[..|groups| - 1], level);
      if EnteredAll(u, groups[|groups| - 1], level).Some? { AllTidy(base, u, groups[|groups| - 1], level); }
    }
  }

  /** Accounts and creators that a block may start from. */
  ghost predicate Ready(base: Base) { Owns(base.balances, base.creators) && UpToNumber(base.creators, base.txns) }

  lemma OpeningTidy(base: Base, pool: Address, level: nat, due: nat)
    requires Ready(base) && Payable(Of(base.balances, pool), level, -(due as int))
    ensures Tidy(base, Opening(base, pool, level, due))
  {
    SameAssetsOwn(base.balances, base.creators, pool, Adjusted(Of(base.balances, pool), level, -(due as int)));
  }

  /** Which account created an asset in the block, and which destroyed it. */
  lemma ChangedBy(base: Base, t: Table, ds: Deltas, a: Address, i: AssetIndex)
    requires Ready(base) && Tidy(base, t) && StartsFrom(base.balances, ds) && t.balances == Applied(base.balances, ds)
    requires a in ds && i in AssetChanges(a, ds[a])
    ensures i in ds[a].now.created ==> base.txns < i <= t.Counter() && CreatorIn(t.creators, i) == Some(a)
    ensures i !in ds[a].now.created ==> i <= base.txns && CreatorIn(base.creators, i) == Some(a)
  {
    assert ds[a].prior == Of(base.balances, a) && ds[a].now == Of(t.balances, a);
    assert i in Of(base.balances, a).created <==> CreatorIn(base.creators, i) == Some(a);
    assert i in Of(t.balances, a).created <==> CreatorIn(t.creators, i) == Some(a);
  }

  lemma TidyBlock(base: Base, t: Table, ds: Deltas)
    requires Ready(base) && Tidy(base, t) && StartsFrom(base.balances, ds) && t.balances == Applied(base.balances, ds)
    ensures Exclusive(ds) && Allocates(ds, base.txns, t.Counter())
  {
    forall a, i | a in ds && i in ds[a].now.created && i !in ds[a].prior.created ensures base.txns < i <= t.Counter() {
      assert i in AssetChanges(a, ds[a]);
      ChangedBy(base, t, ds, a, i);
    }
    forall a, b, i | a in ds && b in ds && i in AssetChanges(a, ds[a]) && i in AssetChanges(b, ds[b]) ensures a == b {
      ChangedBy(base, t, ds, a, i);
      ChangedBy(base, t, ds, b, i);
    }
  }

  // ---------------------------------------------------------------- whole blocks

  lemma MoneyKept(b: Balances, c: Balances, before: nat, level: nat)
    requires Total(level)(c) == AllMoneyOf(b, before) && AllMoneyOf(b, before) + AllMoneyOf(b, level) < UINT64
    ensures TotalsAt(c, level).All() == TotalsAt(b, before).All()
    ensures Supply(BookAt(b, level)) + Supply(BookAt(c, level)) < UINT64
  {
    AllIsSupply(BookAt(c, level), level);
    AllIsSupply(BookAt(b, before), before);
  }

  /** The asset numbers of every evaluated block. */
  lemma EvaluatedAllocates(base: Base, totals: Totals, pool: Address, minBalance: nat, level: nat, groups: seq<seq<Task>>, s: Stack)
    requires Ready(base) && totals.level <= level && Evaluated(base, totals, pool, minBalance, level, groups) == Some(s) && |s| == 1
    ensures Exclusive(s[0].accts) && Allocates(s[0].accts, base.txns, TxnCounter(base, s))
  {
    EvaluatedChanges(base, totals, pool, minBalance, level, groups);
    EvaluatedShown(base, totals, pool, minBalance, level, groups);
    OpeningTidy(base, pool, level, DueAt(totals, level));
    GroupsTidy(base, Opening(base, pool, level, DueAt(totals, level)), groups, level);
    CounterShown(base, s);
    TidyBlock(base, Show(base, s), s[0].accts);
  }

  /** The changes of every evaluated block meet all that the account tracker relies on, so
      none of its panics can be reached by one. */
  lemma EvaluatedBlockOk(base: Base, totals: Totals, pool: Address, minBalance: nat, level: nat, groups: seq<seq<Task>>, s: Stack)
    requires Ready(base) && totals == TotalsOf(BookAt(base.balances, totals.level), totals.level) && totals.level <= level
    requires Settled(base.balances, totals.level)
    requires AllMoneyOf(base.balances, totals.level) + AllMoneyOf(base.balances, level) < UINT64
    requires Evaluated(base, totals, pool, minBalance, level, groups) == Some(s)
    ensures |s| == 1 && BlockOk(base.balances, totals.level, s[0].accts, level)
    ensures Allocates(s[0].accts, base.txns, TxnCounter(base, s))
  {
    EvaluatedChanges(base, totals, pool, minBalance, level, groups);
    EvaluatedAllocates(base, totals, pool, minBalance, level, groups, s);
    BlockConserves(base, totals, pool, minBalance, level, groups);
    MoneyKept(base.balances, Applied(base.balances, s[0].accts), totals.level, level);
  }

  /** What the account tracker offers to the evaluation of the next block. */
  function Latest(t: Tracker, counter: nat): Base {
    Base(t.After(|t.deltas|), ReplayCreators(t.creators, t.mods), counter)
  }

  /** So every block evaluated on top of the tracker's latest round is one that it vouches
      for, whatever blocks and flushes came before. */
  lemma EvaluatedVouched(t: Tracker, counters: seq<nat>, pool: Address, minBalance: nat, level: nat, groups: seq<seq<Task>>, s: Stack)
    requires Sound(t, counters) && t.totals[|t.deltas|].level <= level
    requires var b := t.After(|t.deltas|); AllMoneyOf(b, t.totals[|t.deltas|].level) + AllMoneyOf(b, level) < UINT64
    requires Evaluated(Latest(t, counters[|t.deltas|]), t.totals[|t.deltas|], pool, minBalance, level, groups) == Some(s)
    ensures |s| == 1 && Vouched(t, counters, s[0].accts, level, TxnCounter(Latest(t, counters[|t.deltas|]), s))
  {
    assert Summed(t, |t.deltas|);
    ReplayUpTo(t.creators, t.mods, counters, |t.mods|);
    assert t.mods[..|t.mods|] == t.mods;
    EvaluatedBlockOk(Latest(t, counters[|t.deltas|]), t.totals[|t.deltas|], pool, minBalance, level, groups, s);
  }
}
