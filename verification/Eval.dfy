/** Evaluating a block: rewards leave the pool, then groups of transactions run in
    copy-on-write states. A transaction moves money, with lazily applied rewards, and may
    create or destroy an asset. */
module Eval {
  import opened Options
  import opened AccountTotals
  import opened Accounts
  import opened Cow
  import opened CowMachine

  datatype AssetOp = NoAsset | Allocate(a: Address) | Destroy(i: AssetIndex)

  /** A transaction is a series of transfers and then one end, which configures an asset if
      the transaction does that and records the transaction. */
  datatype Task =
    | Transfer(from: Address, to: Address, amount: nat)
    | Finish(op: AssetOp, id: Txid, lastValid: Round)

  // ---------------------------------------------------------------- on copy-on-write states

  /** The account with its rewards applied and more or less in its balance. */
  function Adjusted(d: AccountData, level: nat, delta: int): AccountData
    requires d.WithRewards(level).microAlgos + delta >= 0
  {
    var e := d.WithRewards(level);
    e.(microAlgos := e.microAlgos + delta)
  }

  function Available(d: AccountData, level: nat): nat { d.WithRewards(level).microAlgos }

  /** The account can be paid, or can pay, without its balance leaving 64 bits. */
  predicate Payable(d: AccountData, level: nat, delta: int) {
    0 <= Available(d, level) + delta && (delta > 0 ==> Available(d, level) + delta < UINT64)
  }

  /** One leg of a transfer. */
  function Post(base: Base, s: Stack, a: Address, level: nat, delta: int): Stack
    requires s != [] && Payable(Lookup(base, s, a), level, delta)
  {
    PutTop(base, s, a, Adjusted(Lookup(base, s, a), level, delta))
  }

  /** A transfer at the top of a stack: the new stack, and whether it succeeded; one that
      fails may already have written the sender. */
  function Moved(base: Base, s: Stack, m: Task, level: nat): (r: (Stack, bool))
    requires s != [] && m.Transfer?
    ensures |r.0| == |s|
  {
    if !Payable(Lookup(base, s, m.from), level, -(m.amount as int)) then (s, false)
    else
      var s1 := Post(base, s, m.from, level, -(m.amount as int));
      if !Payable(Lookup(base, s1, m.to), level, m.amount) then (s1, false)
      else (Post(base, s1, m.to, level, m.amount), true)
  }

  /** The account that holds or held an asset, written anew; None if the number that follows
      the counter is taken, or there is no such asset to destroy. */
  function Reassigned(op: AssetOp, counter: nat, d: AccountData): Option<AccountData> {
    match op
    case NoAsset => None
    case Allocate(_) => if counter + 1 in d.created then None else Some(d.(created := d.created + {counter + 1}))
    case Destroy(i) => if i !in d.created then None else Some(d.(created := d.created - {i}))
  }

  /** The end of a transaction that writes account a. */
  function Reput(base: Base, s: Stack, f: Task, a: Address): (r: (Stack, bool))
    requires s != [] && f.Finish?
    ensures |r.0| == |s|
  {
    match Reassigned(f.op, TxnCounter(base, s), Lookup(base, s, a))
    case None => (s, false)
    case Some(d) => (AddTx(PutTop(base, s, a, d), f.id, f.lastValid), true)
  }

  function Finished(base: Base, s: Stack, f: Task): (r: (Stack, bool))
    requires s != [] && f.Finish?
    ensures |r.0| == |s|
  {
    if Seen(s, f.id) then (s, false)
    else match f.op
         case NoAsset => (AddTx(s, f.id, f.lastValid), true)
         case Allocate(a) => Reput(base, s, f, a)
         case Destroy(i) => if Creator(base, s, i).None? then (s, false) else Reput(base, s, f, Creator(base, s, i).value)
  }

  function Performed(base: Base, s: Stack, p: Task, level: nat): (r: (Stack, bool))
    requires s != []
    ensures |r.0| == |s|
  {
    if p.Transfer? then Moved(base, s, p, level) else Finished(base, s, p)
  }

  function PerformedAll(base: Base, s: Stack, ps: seq<Task>, level: nat): (r: (Stack, bool))
    requires s != []
    ensures |r.0| == |s|
  {
    if ps == [] then (s, true)
    else
      var (s1, ok) := PerformedAll(base, s, ps[..|ps| - 1], level);
      if ok then Performed(base, s1, ps[|ps| - 1], level) else (s1, false)
  }

  /** A group runs in a child, which is committed only if all of it succeeds. */
  function Grouped(base: Base, s: Stack, ps: seq<Task>, level: nat): Stack
    requires s != []
  {
    var (child, ok) := PerformedAll(base, s + [EMPTY], ps, level);
    if ok then Commit(child) else s
  }

  function AllGrouped(base: Base, s: Stack, groups: seq<seq<Task>>, level: nat): (r: Stack)
    requires s != []
    ensures |r| == |s|
  {
    if groups == [] then s
    else Grouped(base, AllGrouped(base, s, groups[..|groups| - 1], level), groups[|groups| - 1], level)
  }

  /** The rewards of the round leave the pool; None if it cannot pay and keep its minimum. */
  function Withdrawn(base: Base, s: Stack, pool: Address, due: nat, minBalance: nat, level: nat): Option<Stack>
    requires s != []
  {
    var p := Lookup(base, s, pool);
    if Available(p, level) < due + minBalance then None
    else Some(PutTop(base, s, pool, Adjusted(p, level, -(due as int))))
  }

  /** A whole block, at a level that rises from that of the totals. */
  function Evaluated(base: Base, totals: Totals, pool: Address, minBalance: nat, level: nat, groups: seq<seq<Task>>): Option<Stack>
    requires totals.level <= level
  {
    match Withdrawn(base, [EMPTY], pool, DueAt(totals, level), minBalance, level)
    case None => None
    case Some(s) => Some(AllGrouped(base, s, groups, level))
  }

  // ---------------------------------------------------------------- on a plain table

  /** The accounts, the creators and the recorded transactions of a block. */
  datatype Table = Table(balances: Balances, creators: Creators, ids: set<Txid>, txns: nat)
  {
    function Counter(): nat { txns + |ids| }
  }

  /** The accounts after one of them is paid, or pays. */
  function Pay(b: Balances, a: Address, level: nat, delta: int): Balances
    requires Payable(Of(b, a), level, delta)
  {
    b[a := Adjusted(Of(b, a), level, delta)]
  }

  /** The reference: the same transfer on a table of accounts. */
  function Paid(b: Balances, m: Task, level: nat): Option<Balances>
    requires m.Transfer?
  {
    if !Payable(Of(b, m.from), level, -(m.amount as int)) then None
    else
      var b1 := Pay(b, m.from, level, -(m.amount as int));
      if !Payable(Of(b1, m.to), level, m.amount) then None
      else Some(Pay(b1, m.to, level, m.amount))
  }

  function Retitled(c: Creators, op: AssetOp, counter: nat): Creators {
    match op
    case NoAsset => c
    case Allocate(a) => c[counter + 1 := a]
    case Destroy(i) => c - {i}
  }

  function Ended(t: Table, f: Task, a: Address): Option<Table>
    requires f.Finish?
  {
    match Reassigned(f.op, t.Counter(), Of(t.balances, a))
    case None => None
    case Some(d) => Some(Table(t.balances[a := d], Retitled(t.creators, f.op, t.Counter()), t.ids + {f.id}, t.txns))
  }

  function Entered(t: Table, p: Task, level: nat): Option<Table> {
    match p
    case Transfer(_, _, _) => (match Paid(t.balances, p, level) case None => None case Some(b) => Some(t.(balances := b)))
    case Finish(op, id, _) =>
      if id in t.ids then None
      else match op
           case NoAsset => Some(t.(ids := t.ids + {id}))
           case Allocate(a) => Ended(t, p, a)
           case Destroy(i) => if i in t.creators then Ended(t, p, t.creators[i]) else None
  }

  function EnteredAll(t: Table, ps: seq<Task>, level: nat): Option<Table> {
    if ps == [] then Some(t)
    else match EnteredAll(t, ps[..|ps| - 1], level)
         case None => None
         case Some(u) => Entered(u, ps[|ps| - 1], level)
  }

  /** A group that fails changes nothing. */
  function EnteredGroups(t: Table, groups: seq<seq<Task>>, level: nat): Table {
    if groups == [] then t
    else
      var u := EnteredGroups(t, groups[..|groups| - 1], level);
      match EnteredAll(u, groups[|groups| - 1], level)
      case None => u
      case Some(w) => w
  }

  // ---------------------------------------------------------------- what a stack shows

  /** The accounts as they look from the top of a stack. */
  function View(base: Base, s: Stack): Balances {
    if s == [] then base.balances else Applied(View(base, s[..|s| - 1]), s[|s| - 1].accts)
  }

  lemma {:induction false} ViewLookup(base: Base, s: Stack, a: Address)
    ensures Of(View(base, s), a) == Lookup(base, s, a)
  {
    if s != [] { ViewLookup(base, s[..|s| - 1], a); }
  }

  lemma AppliedPut(b: Balances, ds: Deltas, a: Address, d: AccountDelta)
    ensures Applied(b, ds[a := d]) == Applied(b, ds)[a := d.now]
  {
  }

  lemma ViewPut(base: Base, s: Stack, a: Address, d: AccountData)
    requires s != []
    ensures View(base, PutTop(base, s, a, d)) == View(base, s)[a := d]
  {
    var r := PutTop(base, s, a, d);
    assert r[..|s| - 1] == s[..|s| - 1];
    AppliedPut(View(base, s[..|s| - 1]), s[|s| - 1].accts, a, r[|s| - 1].accts[a]);
  }

  function CreatorView(base: Base, s: Stack): Creators {
    if s == [] then base.creators else CreatorsAfter(CreatorView(base, s[..|s| - 1]), s[|s| - 1].assets)
  }

  lemma {:induction false} CreatorShown(base: Base, s: Stack, i: AssetIndex)
    ensures CreatorIn(CreatorView(base, s), i) == Creator(base, s, i)
  {
    if s != [] { CreatorShown(base, s[..|s| - 1], i); }
  }

  function Ids(s: Stack): set<Txid> {
    if s == [] then {} else Ids(s[..|s| - 1]) + s[|s| - 1].txids.Keys
  }

  lemma {:induction false} IdsSeen(s: Stack, id: Txid)
    ensures Seen(s, id) <==> id in Ids(s)
  {
    if s != [] { IdsSeen(s[..|s| - 1], id); }
  }

  /** No transaction is recorded twice. */
  predicate Apart(s: Stack) {
    s == [] || (Apart(s[..|s| - 1]) && Ids(s[..|s| - 1]) !! s[|s| - 1].txids.Keys)
  }

  lemma {:induction false} CounterShown(base: Base, s: Stack)
    requires Apart(s)
    ensures TxnCounter(base, s) == base.txns + |Ids(s)|
  {
    if s != [] {
      CounterShown(base, s[..|s| - 1]);
      UnionSize(Ids(s[..|s| - 1]), s[|s| - 1].txids.Keys);
      assert |s[|s| - 1].txids| == |s[|s| - 1].txids.Keys|;
    }
  }

  function Show(base: Base, s: Stack): Table { Table(View(base, s), CreatorView(base, s), Ids(s), base.txns) }

  /** What a write shows. */
  lemma PutShown(base: Base, s: Stack, a: Address, d: AccountData)
    requires s != [] && Apart(s)
    ensures Apart(PutTop(base, s, a, d)) && Of(View(base, s), a) == Lookup(base, s, a)
    ensures Show(base, PutTop(base, s, a, d)) ==
      Table(View(base, s)[a := d], CreatorsAfter(CreatorView(base, s), AssetChanges(a, AccountDelta(Lookup(base, s, a), d))), Ids(s), base.txns)
  {
    var r := PutTop(base, s, a, d);
    assert r[..|s| - 1] == s[..|s| - 1];
    ViewPut(base, s, a, d);
    ViewLookup(base, s, a);
    CreatorsTwice(CreatorView(base, s[..|s| - 1]), s[|s| - 1].assets, AssetChanges(a, AccountDelta(Lookup(base, s, a), d)));
  }

  lemma TxShown(base: Base, s: Stack, id: Txid, lv: Round)
    requires s != [] && Apart(s) && id !in Ids(s)
    ensures Apart(AddTx(s, id, lv)) && Show(base, AddTx(s, id, lv)) == Show(base, s).(ids := Ids(s) + {id})
  {
    var r := AddTx(s, id, lv);
    assert r[..|s| - 1] == s[..|s| - 1];
    assert r[|s| - 1].txids.Keys == s[|s| - 1].txids.Keys + {id};
  }

  lemma NoChange(c: Creators, a: Address, x: AccountData, y: AccountData)
    requires x.created == y.created
    ensures CreatorsAfter(c, AssetChanges(a, AccountDelta(x, y))) == c
  {
    assert AssetChanges(a, AccountDelta(x, y)) == map[];
  }

  // ---------------------------------------------------------------- the parts

  lemma PostShown(base: Base, s: Stack, a: Address, level: nat, delta: int)
    requires s != [] && Apart(s)
    ensures Of(View(base, s), a) == Lookup(base, s, a)
    ensures Payable(Lookup(base, s, a), level, delta) ==>
      var r := Post(base, s, a, level, delta);
      Apart(r) && Show(base, r) == Show(base, s).(balances := Pay(View(base, s), a, level, delta))
  {
    ViewLookup(base, s, a);
    var d := Lookup(base, s, a);
    if Payable(d, level, delta) {
      PutShown(base, s, a, Adjusted(d, level, delta));
      NoChange(CreatorView(base, s), a, d, Adjusted(d, level, delta));
    }
  }

  lemma PaidBy(b: Balances, b1: Balances, b2: Balances, f: AccountData, g: AccountData, m: Task, level: nat)
    requires m.Transfer? && f == Of(b, m.from) && g == Of(b1, m.to) && Payable(f, level, -(m.amount as int))
    requires b1 == Pay(b, m.from, level, -(m.amount as int))
    requires Payable(g, level, m.amount) ==> b2 == Pay(b1, m.to, level, m.amount)
    ensures Paid(b, m, level) == if Payable(g, level, m.amount) then Some(b2) else None
  {
  }

  lemma SecondLeg(base: Base, s: Stack, s1: Stack, m: Task, level: nat)
    requires s != [] && s1 != [] && m.Transfer? && Payable(Lookup(base, s, m.from), level, -(m.amount as int))
    requires s1 == Post(base, s, m.from, level, -(m.amount as int))
    ensures var (r, ok) := Moved(base, s, m, level);
      && (ok <==> Payable(Lookup(base, s1, m.to), level, m.amount))
      && r == if ok then Post(base, s1, m.to, level, m.amount) else s1
  {
  }

  /** A step on a stack is the step on the table that the stack shows. */
  ghost predicate Mirrors(base: Base, s: Stack, r: (Stack, bool), t: Option<Table>) {
    t == (if r.1 then Some(Show(base, r.0)) else None) && Apart(r.0)
  }

  lemma MovedShown(base: Base, s: Stack, m: Task, level: nat)
    requires s != [] && Apart(s) && m.Transfer?
    ensures Mirrors(base, s, Moved(base, s, m, level), Entered(Show(base, s), m, level))
  {
    var out := -(m.amount as int);
    PostShown(base, s, m.from, level, out);
    var f := Lookup(base, s, m.from);
    if Payable(f, level, out) {
      var s1 := Post(base, s, m.from, level, out);
      PostShown(base, s1, m.to, level, m.amount);
      SecondLeg(base, s, s1, m, level);
      var (r, ok) := Moved(base, s, m, level);
      PaidBy(View(base, s), View(base, s1), View(base, r), f, Lookup(base, s1, m.to), m, level);
    }
  }

  lemma Retitles(c: Creators, op: AssetOp, counter: nat, a: Address, d: AccountData)
    requires Reassigned(op, counter, d).Some? && (op.Allocate? ==> op.a == a)
    ensures CreatorsAfter(c, AssetChanges(a, AccountDelta(d, Reassigned(op, counter, d).value))) == Retitled(c, op, counter)
  {
  }

  lemma RewrittenShown(base: Base, s: Stack, f: Task, a: Address, n: nat, d: AccountData, e: AccountData)
    requires s != [] && Apart(s) && f.Finish? && f.id !in Ids(s) && (f.op.Allocate? ==> f.op.a == a)
    requires d == Lookup(base, s, a) && Reassigned(f.op, n, d) == Some(e)
    ensures var r := AddTx(PutTop(base, s, a, e), f.id, f.lastValid);
      Apart(r) && Show(base, r) == Table(View(base, s)[a := e], Retitled(CreatorView(base, s), f.op, n), Ids(s) + {f.id}, base.txns)
  {
    PutShown(base, s, a, e);
    Retitles(CreatorView(base, s), f.op, n, a, d);
    TxShown(base, PutTop(base, s, a, e), f.id, f.lastValid);
  }

  lemma EndedBy(t: Table, f: Task, a: Address, n: nat, d: AccountData, e: Option<AccountData>)
    requires f.Finish? && t.Counter() == n && Of(t.balances, a) == d && Reassigned(f.op, n, d) == e
    ensures Ended(t, f, a) ==
      if e.None? then None else Some(Table(t.balances[a := e.value], Retitled(t.creators, f.op, n), t.ids + {f.id}, t.txns))
  {
  }

  lemma ReputShown(base: Base, s: Stack, f: Task, a: Address)
    requires s != [] && Apart(s) && f.Finish? && f.id !in Ids(s) && (f.op.Allocate? ==> f.op.a == a)
    ensures Mirrors(base, s, Reput(base, s, f, a), Ended(Show(base, s), f, a))
  {
    CounterShown(base, s);
    ViewLookup(base, s, a);
    var n, d := TxnCounter(base, s), Lookup(base, s, a);
    var e := Reassigned(f.op, n, d);
    EndedBy(Show(base, s), f, a, n, d, e);
    if e.Some? { RewrittenShown(base, s, f, a, n, d, e.value); }
  }

  lemma FinishedShown(base: Base, s: Stack, f: Task, level: nat)
    requires s != [] && Apart(s) && f.Finish?
    ensures Mirrors(base, s, Finished(base, s, f), Entered(Show(base, s), f, level))
  {
    IdsSeen(s, f.id);
    if f.id !in Ids(s) {
      match f.op
      case NoAsset => TxShown(base, s, f.id, f.lastValid);
      case Allocate(a) => ReputShown(base, s, f, a);
      case Destroy(i) =>
        CreatorShown(base, s, i);
        if i in CreatorView(base, s) { ReputShown(base, s, f, CreatorView(base, s)[i]); }
    }
  }

  lemma {:induction false} PerformedAllShown(base: Base, s: Stack, ps: seq<Task>, level: nat)
    requires s != [] && Apart(s)
    ensures Mirrors(base, s, PerformedAll(base, s, ps, level), EnteredAll(Show(base, s), ps, level))
  {
    if ps != [] {
      PerformedAllShown(base, s, ps[..|ps| - 1], level);
      var (s1, ok) := PerformedAll(base, s, ps[..|ps| - 1], level);
      var p := ps[|ps| - 1];
      if ok {
        if p.Transfer? { MovedShown(base, s1, p, level); } else { FinishedShown(base, s1, p, level); }
      }
    }
  }

  // ---------------------------------------------------------------- groups

  lemma MergedView(b: Balances, parent: Deltas, child: Deltas)
    ensures Applied(b, MergedAccts(parent, child)) == Applied(Applied(b, parent), child)
  {
  }

  lemma CommitView(base: Base, s: Stack)
    requires |s| >= 2
    ensures View(base, Commit(s)) == View(base, s) && CreatorView(base, Commit(s)) == CreatorView(base, s)
  {
    Below(s);
    var parent := s[..|s| - 1];
    assert parent[|parent| - 1] == s[|s| - 2];
    MergedView(View(base, s[..|s| - 2]), s[|s| - 2].accts, s[|s| - 1].accts);
    CreatorsTwice(CreatorView(base, s[..|s| - 2]), s[|s| - 2].assets, s[|s| - 1].assets);
  }

  lemma CommitIds(s: Stack)
    requires |s| >= 2 && Apart(s)
    ensures Ids(Commit(s)) == Ids(s) && Apart(Commit(s))
  {
    Below(s);
    var parent, x, y := s[..|s| - 1], s[|s| - 2].txids, s[|s| - 1].txids;
    assert parent[|parent| - 1] == s[|s| - 2];
    assert (x + y).Keys == x.Keys + y.Keys;
    assert Ids(parent) == Ids(s[..|s| - 2]) + x.Keys;
  }

  lemma CommitShown(base: Base, s: Stack)
    requires |s| >= 2 && Apart(s)
    ensures Show(base, Commit(s)) == Show(base, s) && Apart(Commit(s))
  {
    CommitView(base, s);
    CommitIds(s);
  }

  lemma ChildShown(base: Base, s: Stack)
    requires Apart(s)
    ensures Show(base, s + [EMPTY]) == Show(base, s) && Apart(s + [EMPTY])
  {
    var r := s + [EMPTY];
    assert r[..|r| - 1] == s && r[|r| - 1] == EMPTY;
    NothingApplied(View(base, s), CreatorView(base, s));
    assert Ids(r) == Ids(s);
  }

  lemma NothingApplied(b: Balances, c: Creators)
    ensures Applied(b, EMPTY.accts) == b && CreatorsAfter(c, EMPTY.assets) == c
  {
  }

  /** Evaluating groups in child states shows the same accounts, creators and transactions
      as entering them one by one in a table, leaving out the groups that fail. */
  lemma {:induction false} GroupsAreEntered(base: Base, s: Stack, groups: seq<seq<Task>>, level: nat)
    requires s != [] && Apart(s)
    ensures var r := AllGrouped(base, s, groups, level);
      Apart(r) && Show(base, r) == EnteredGroups(Show(base, s), groups, level)
  {
    if groups != [] {
      GroupsAreEntered(base, s, groups[..|groups| - 1], level);
      var s1 := AllGrouped(base, s, groups[..|groups| - 1], level);
      var ps := groups[|groups| - 1];
      ChildShown(base, s1);
      PerformedAllShown(base, s1 + [EMPTY], ps, level);
      var (child, ok) := PerformedAll(base, s1 + [EMPTY], ps, level);
      if ok { CommitShown(base, child); }
    }
  }

  /** The table from which a block's groups start: the pool has paid what is due. */
  function Opening(base: Base, pool: Address, level: nat, due: nat): Table
    requires Payable(Of(base.balances, pool), level, -(due as int))
  {
    Table(Pay(base.balances, pool, level, -(due as int)), base.creators, {}, base.txns)
  }

  lemma WithdrawnShown(base: Base, pool: Address, due: nat, minBalance: nat, level: nat)
    requires Withdrawn(base, [EMPTY], pool, due, minBalance, level).Some?
    ensures Payable(Of(base.balances, pool), level, -(due as int))
    ensures var s := Withdrawn(base, [EMPTY], pool, due, minBalance, level).value;
      Apart(s) && Show(base, s) == Opening(base, pool, level, due)
  {
    ChildShown(base, []);
    assert [] + [EMPTY] == [EMPTY];
    PostShown(base, [EMPTY], pool, level, -(due as int));
  }

  /** What is due in a block. */
  function DueAt(totals: Totals, level: nat): nat
    requires totals.level <= level
  {
    Earned(totals.RewardUnits(), level - totals.level)
  }

  /** A block ends with what entering its groups in a table ends with. */
  lemma EvaluatedShown(base: Base, totals: Totals, pool: Address, minBalance: nat, level: nat, groups: seq<seq<Task>>)
    requires totals.level <= level && Evaluated(base, totals, pool, minBalance, level, groups).Some?
    ensures Payable(Of(base.balances, pool), level, -(DueAt(totals, level) as int))
    ensures Show(base, Evaluated(base, totals, pool, minBalance, level, groups).value) ==
      EnteredGroups(Opening(base, pool, level, DueAt(totals, level)), groups, level)
    ensures Apart(Evaluated(base, totals, pool, minBalance, level, groups).value)
  {
    var due := DueAt(totals, level);
    WithdrawnShown(base, pool, due, minBalance, level);
    GroupsAreEntered(base, Withdrawn(base, [EMPTY], pool, due, minBalance, level).value, groups, level);
  }

  // ---------------------------------------------------------------- the recorded changes

  lemma MovedPriors(base: Base, s: Stack, m: Task, level: nat)
    requires s != [] && Priors(base, s) && m.Transfer?
    ensures Priors(base, Moved(base, s, m, level).0)
  {
    var out := -(m.amount as int);
    if Payable(Lookup(base, s, m.from), level, out) {
      var s1 := Post(base, s, m.from, level, out);
      PutPriors(base, s, m.from, Adjusted(Lookup(base, s, m.from), level, out));
      SecondLeg(base, s, s1, m, level);
      if Payable(Lookup(base, s1, m.to), level, m.amount) {
        PutPriors(base, s1, m.to, Adjusted(Lookup(base, s1, m.to), level, m.amount));
      }
    }
  }

  lemma ReputPriors(base: Base, s: Stack, f: Task, a: Address)
    requires s != [] && Priors(base, s) && f.Finish?
    ensures Priors(base, Reput(base, s, f, a).0)
  {
    var d := Reassigned(f.op, TxnCounter(base, s), Lookup(base, s, a));
    if d.Some? {
      PutPriors(base, s, a, d.value);
      TxPriors(base, PutTop(base, s, a, d.value), f.id, f.lastValid);
    }
  }

  lemma FinishedPriors(base: Base, s: Stack, f: Task)
    requires s != [] && Priors(base, s) && f.Finish?
    ensures Priors(base, Finished(base, s, f).0)
  {
    if !Seen(s, f.id) {
      match f.op
      case NoAsset => TxPriors(base, s, f.id, f.lastValid);
      case Allocate(a) => ReputPriors(base, s, f, a);
      case Destroy(i) => if Creator(base, s, i).Some? { ReputPriors(base, s, f, Creator(base, s, i).value); }
    }
  }

  lemma {:induction false} PerformedAllPriors(base: Base, s: Stack, ps: seq<Task>, level: nat)
    requires s != [] && Priors(base, s)
    ensures Priors(base, PerformedAll(base, s, ps, level).0)
  {
    if ps != [] {
      PerformedAllPriors(base, s, ps[..|ps| - 1], level);
      var (s1, ok) := PerformedAll(base, s, ps[..|ps| - 1], level);
      var p := ps[|ps| - 1];
      if ok {
        if p.Transfer? { MovedPriors(base, s1, p, level); } else { FinishedPriors(base, s1, p); }
      }
    }
  }

  lemma ChildPriors(base: Base, s: Stack)
    requires Priors(base, s)
    ensures Priors(base, s + [EMPTY])
  {
    var r := s + [EMPTY];
    forall k, x | 0 <= k < |r| && x in r[k].accts ensures r[k].accts[x].prior == Lookup(base, r[..k], x) {
      assert r[..k] == s[..k];
    }
  }

  lemma {:induction false} GroupsPriors(base: Base, s: Stack, groups: seq<seq<Task>>, level: nat)
    requires s != [] && Priors(base, s)
    ensures Priors(base, AllGrouped(base, s, groups, level))
  {
    if groups != [] {
      GroupsPriors(base, s, groups[..|groups| - 1], level);
      var s1 := AllGrouped(base, s, groups[..|groups| - 1], level);
      ChildPriors(base, s1);
      PerformedAllPriors(base, s1 + [EMPTY], groups[|groups| - 1], level);
      var (child, ok) := PerformedAll(base, s1 + [EMPTY], groups[|groups| - 1], level);
      if ok { CommitPriors(base, child); }
    }
  }

  lemma OneLayer(base: Base, s: Stack)
    requires |s| == 1 && Priors(base, s)
    ensures StartsFrom(base.balances, s[0].accts) && View(base, s) == Applied(base.balances, s[0].accts)
  {
    assert s[..0] == [];
    forall a | a in s[0].accts ensures s[0].accts[a].prior == Of(base.balances, a) {
      assert s[0].accts[a].prior == Lookup(base, s[..0], a);
    }
  }

  /** The changes recorded by the evaluation of a block start from the accounts as they were. */
  lemma EvaluatedChanges(base: Base, totals: Totals, pool: Address, minBalance: nat, level: nat, groups: seq<seq<Task>>)
    requires totals.level <= level && Evaluated(base, totals, pool, minBalance, level, groups).Some?
    ensures var s := Evaluated(base, totals, pool, minBalance, level, groups).value;
      |s| == 1 && StartsFrom(base.balances, s[0].accts) && View(base, s) == Applied(base.balances, s[0].accts)
  {
    var due := DueAt(totals, level);
    assert Priors(base, [EMPTY]);
    PutPriors(base, [EMPTY], pool, Adjusted(Lookup(base, [EMPTY], pool), level, -(due as int)));
    var s := Withdrawn(base, [EMPTY], pool, due, minBalance, level).value;
    GroupsPriors(base, s, groups, level);
    OneLayer(base, AllGrouped(base, s, groups, level));
  }

  // ---------------------------------------------------------------- the evaluator's methods

  /** Pay into or out of one account of a copy-on-write state. */
  method PostTo(cs: CowState, a: Address, level: nat, delta: int) returns (ok: bool)
    requires cs.Valid()
    modifies cs
    ensures cs.Valid() && ok == Payable(Lookup(cs.base, old(cs.Stack()), a), level, delta)
    ensures cs.Stack() == if ok then Post(cs.base, old(cs.Stack()), a, level, delta) else old(cs.Stack())
  {
    var d := cs.Lookup(a);
    ok := Payable(d, level, delta);
    if ok { cs.Put(a, Adjusted(d, level, delta)); }
  }

  /** Move money between two accounts of a copy-on-write state. */
  method Move(cs: CowState, m: Task, level: nat) returns (ok: bool)
    requires cs.Valid() && m.Transfer?
    modifies cs
    ensures cs.Valid()
    ensures (cs.Stack(), ok) == Moved(cs.base, old(cs.Stack()), m, level)
  {
    ok := PostTo(cs, m.from, level, -(m.amount as int));
    if ok {
      SecondLeg(cs.base, old(cs.Stack()), cs.Stack(), m, level);
      ok := PostTo(cs, m.to, level, m.amount);
    }
  }

  /** Write the account that holds the asset and record the transaction. */
  method Reassign(cs: CowState, f: Task, a: Address) returns (ok: bool)
    requires cs.Valid() && f.Finish?
    modifies cs
    ensures cs.Valid()
    ensures (cs.Stack(), ok) == Reput(cs.base, old(cs.Stack()), f, a)
  {
    var counter := cs.Counter();
    var d := cs.Lookup(a);
    var e := Reassigned(f.op, counter, d);
    if e.None? { return false; }
    cs.Put(a, e.value);
    cs.AddTx(f.id, f.lastValid);
    return true;
  }

  method End(cs: CowState, f: Task) returns (ok: bool)
    requires cs.Valid() && f.Finish?
    modifies cs
    ensures cs.Valid()
    ensures (cs.Stack(), ok) == Finished(cs.base, old(cs.Stack()), f)
  {
    var dup := cs.IsDup(f.id);
    if dup { return false; }
    match f.op
    case NoAsset =>
      cs.AddTx(f.id, f.lastValid);
      return true;
    case Allocate(a) => ok := Reassign(cs, f, a);
    case Destroy(i) =>
      var creator := cs.GetAssetCreator(i);
      if creator.None? { return false; }
      ok := Reassign(cs, f, creator.value);
  }

  method Perform(cs: CowState, p: Task, level: nat) returns (ok: bool)
    requires cs.Valid()
    modifies cs
    ensures cs.Valid()
    ensures (cs.Stack(), ok) == Performed(cs.base, old(cs.Stack()), p, level)
  {
    if p.Transfer? { ok := Move(cs, p, level); } else { ok := End(cs, p); }
  }

  method PerformAll(cs: CowState, ps: seq<Task>, level: nat) returns (ok: bool)
    requires cs.Valid()
    modifies cs
    ensures cs.Valid()
    ensures (cs.Stack(), ok) == PerformedAll(cs.base, old(cs.Stack()), ps, level)
  {
    ok := true;
    var i := 0;
    while i < |ps| && ok
      invariant 0 <= i <= |ps| && cs.Valid()
      invariant (cs.Stack(), ok) == PerformedAll(cs.base, old(cs.Stack()), ps[..i], level)
    {
      assert ps[..i + 1][..i] == ps[..i];
      ok := Perform(cs, ps[i], level);
      i := i + 1;
    }
    if ok { assert ps[..i] == ps; } else { FailureLasts(cs.base, old(cs.Stack()), ps, level, i); }
  }

  lemma {:induction false} FailureLasts(base: Base, s: Stack, ps: seq<Task>, level: nat, i: nat)
    requires s != [] && i <= |ps| && !PerformedAll(base, s, ps[..i], level).1
    ensures PerformedAll(base, s, ps, level) == PerformedAll(base, s, ps[..i], level)
  {
    if i == |ps| {
      assert ps[..i] == ps;
    } else {
      var head := ps[..|ps| - 1];
      assert head[..i] == ps[..i];
      FailureLasts(base, s, head, level, i);
    }
  }

  /** Run a group in a child state and commit it if all of it succeeds. */
  method TransactionGroup(state: CowState, ps: seq<Task>, level: nat) returns (ok: bool)
    requires state.Valid()
    modifies state
    ensures state.Valid() && state.Stack() == Grouped(state.base, old(state.Stack()), ps, level)
    ensures !ok ==> state.Stack() == old(state.Stack())
  {
    var child := new CowState.Child(state);
    ok := PerformAll(child, ps, level);
    if ok { child.CommitToParent(); }
  }
}
