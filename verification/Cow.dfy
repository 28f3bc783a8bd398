/** Copy-on-write states over the accounts of a round, nested to any depth. */
module Cow {
  import opened Options
  import opened AccountTotals
  import opened Accounts

  type Txid = nat

  datatype AssetMod = AssetMod(created: bool, creator: Address)

  /** The assets that one change of an account creates or deletes. */
  function AssetChanges(creator: Address, d: AccountDelta): map<AssetIndex, AssetMod> {
    map i | i in (d.now.created - d.prior.created) + (d.prior.created - d.now.created) ::
      AssetMod(i in d.now.created, creator)
  }

  type AssetMods = map<AssetIndex, AssetMod>
  type Creators = map<AssetIndex, Address>

  function CreatorIn(c: Creators, i: AssetIndex): Option<Address> {
    if i in c then Some(c[i]) else None
  }

  /** The creator table after some assets are created and deleted. */
  function CreatorsAfter(c: Creators, ms: AssetMods): Creators {
    map i | i in c.Keys + ms.Keys && (i in ms ==> ms[i].created) :: if i in ms then ms[i].creator else c[i]
  }

  lemma CreatorsTwice(c: Creators, m: AssetMods, n: AssetMods)
    ensures CreatorsAfter(CreatorsAfter(c, m), n) == CreatorsAfter(c, m + n)
  {
  }

  /** What lies below all copy-on-write states. */
  datatype Base = Base(balances: Balances, creators: Creators, txns: nat)

  datatype Mods = Mods(accts: Deltas, txids: map<Txid, Round>, assets: AssetMods)

  const EMPTY := Mods(map[], map[], map[])

  /** The states from the outermost to the innermost child. */
  type Stack = seq<Mods>

  // ---------------------------------------------------------------- reading

  function Lookup(base: Base, s: Stack, a: Address): AccountData {
    if s == [] then Of(base.balances, a)
    else
      var top := s[|s| - 1];
      if a in top.accts then top.accts[a].now else Lookup(base, s[..|s| - 1], a)
  }

  function Creator(base: Base, s: Stack, i: AssetIndex): Option<Address> {
    if s == [] then CreatorIn(base.creators, i)
    else
      var top := s[|s| - 1];
      if i in top.assets then if top.assets[i].created then Some(top.assets[i].creator) else None
      else Creator(base, s[..|s| - 1], i)
  }

  predicate Seen(s: Stack, id: Txid) {
    s != [] && (id in s[|s| - 1].txids || Seen(s[..|s| - 1], id))
  }

  function TxnCounter(base: Base, s: Stack): nat {
    if s == [] then base.txns else TxnCounter(base, s[..|s| - 1]) + |s[|s| - 1].txids|
  }

  // ---------------------------------------------------------------- writing

  function PutMods(m: Mods, a: Address, prior: AccountData, d: AccountData): Mods {
    m.(accts := m.accts[a := AccountDelta(if a in m.accts then m.accts[a].prior else prior, d)],
       assets := m.assets + AssetChanges(a, AccountDelta(prior, d)))
  }

  function PutTop(base: Base, s: Stack, a: Address, d: AccountData): Stack
    requires s != []
  {
    s[|s| - 1 := PutMods(s[|s| - 1], a, Lookup(base, s, a), d)]
  }

  function AddTx(s: Stack, id: Txid, lastValid: Round): Stack
    requires s != []
  {
    var top := s[|s| - 1];
    s[|s| - 1 := top.(txids := top.txids[id := lastValid])]
  }

  function MergedAt(parent: Deltas, child: Deltas, a: Address): AccountDelta
    requires a in parent || a in child
  {
    if a !in child then parent[a]
    else if a in parent then AccountDelta(parent[a].prior, child[a].now)
    else child[a]
  }

  function MergedAccts(parent: Deltas, child: Deltas): Deltas {
    map a | a in parent.Keys + child.Keys :: MergedAt(parent, child, a)
  }

  function Merged(parent: Mods, child: Mods): Mods {
    Mods(MergedAccts(parent.accts, child.accts), parent.txids + child.txids, parent.assets + child.assets)
  }

  /** Commit the innermost state to its parent. */
  function Commit(s: Stack): Stack
    requires |s| >= 2
  {
    s[..|s| - 2] + [Merged(s[|s| - 2], s[|s| - 1])]
  }

  // ---------------------------------------------------------------- programs

  /** What an evaluator does to a state: writes, and groups that run in a child which is
      committed or dropped. */
  datatype Op =
    | Put(a: Address, d: AccountData)
    | Tx(id: Txid, lastValid: Round)
    | Group(ops: seq<Op>, keep: bool)

  /** As the code runs it: every group in a child of its own. */
  function Run(base: Base, s: Stack, ops: seq<Op>): (r: Stack)
    requires s != []
    ensures |r| == |s| && r[..|r| - 1] == s[..|s| - 1]
    decreases ops
  {
    if ops == [] then s
    else
      var mid := Run(base, s, ops[..|ops| - 1]);
      match ops[|ops| - 1]
      case Put(a, d) => PutTop(base, mid, a, d)
      case Tx(id, lv) => AddTx(mid, id, lv)
      case Group(inner, keep) =>
        var child := Run(base, mid + [EMPTY], inner);
        if keep then Commit(child) else mid
  }

  /** The reference: kept groups run in place, dropped ones not at all. */
  function Direct(base: Base, s: Stack, ops: seq<Op>): (r: Stack)
    requires s != []
    ensures |r| == |s| && r[..|r| - 1] == s[..|s| - 1]
    decreases ops
  {
    if ops == [] then s
    else
      var mid := Direct(base, s, ops[..|ops| - 1]);
      match ops[|ops| - 1]
      case Put(a, d) => PutTop(base, mid, a, d)
      case Tx(id, lv) => AddTx(mid, id, lv)
      case Group(inner, keep) => if keep then Direct(base, mid, inner) else mid
  }

  // ---------------------------------------------------------------- one commit

  lemma Below(s: Stack)
    requires |s| >= 2
    ensures Commit(s)[..|s| - 2] == s[..|s| - 2] && s[..|s| - 1][..|s| - 2] == s[..|s| - 2]
    ensures |Commit(s)| == |s| - 1 && Commit(s)[|s| - 2] == Merged(s[|s| - 2], s[|s| - 1])
  {
  }

  /** A commit changes nothing that can be read. */
  lemma CommitReads(base: Base, s: Stack, a: Address, i: AssetIndex, id: Txid)
    requires |s| >= 2
    ensures Lookup(base, Commit(s), a) == Lookup(base, s, a)
    ensures Creator(base, Commit(s), i) == Creator(base, s, i)
    ensures Seen(Commit(s), id) == Seen(s, id)
  {
    Below(s);
    var parent := s[..|s| - 1];
    assert parent[|parent| - 1] == s[|s| - 2];
  }

  lemma MergePutAccts(parent: Deltas, child: Deltas, a: Address, prior: AccountData, d: AccountData)
    ensures MergedAccts(parent, child[a := AccountDelta(if a in child then child[a].prior else prior, d)]) ==
      var m := MergedAccts(parent, child); m[a := AccountDelta(if a in m then m[a].prior else prior, d)]
  {
  }

  lemma MergePut(parent: Mods, child: Mods, a: Address, prior: AccountData, d: AccountData)
    ensures Merged(parent, PutMods(child, a, prior, d)) == PutMods(Merged(parent, child), a, prior, d)
  {
    MergePutAccts(parent.accts, child.accts, a, prior, d);
    MergeAssets(parent.assets, child.assets, AssetChanges(a, AccountDelta(prior, d)));
  }

  lemma MergeAssets(x: map<AssetIndex, AssetMod>, y: map<AssetIndex, AssetMod>, z: map<AssetIndex, AssetMod>)
    ensures x + (y + z) == (x + y) + z
  {
  }

  /** Writing and then committing is committing and then writing. */
  lemma CommitPut(base: Base, s: Stack, a: Address, d: AccountData)
    requires |s| >= 2
    ensures Commit(PutTop(base, s, a, d)) == PutTop(base, Commit(s), a, d)
  {
    var n := |s|;
    var prior := Lookup(base, s, a);
    CommitReads(base, s, a, 0, 0);
    MergePut(s[n - 2], s[n - 1], a, prior, d);
    assert PutTop(base, s, a, d)[..n - 2] == s[..n - 2];
  }

  lemma CommitTx(s: Stack, id: Txid, lv: Round)
    requires |s| >= 2
    ensures Commit(AddTx(s, id, lv)) == AddTx(Commit(s), id, lv)
  {
    var n := |s|;
    assert AddTx(s, id, lv)[..n - 2] == s[..n - 2];
    assert s[n - 2].txids + s[n - 1].txids[id := lv] == (s[n - 2].txids + s[n - 1].txids)[id := lv];
  }

  lemma {:induction false} CommitDirect(base: Base, s: Stack, ops: seq<Op>)
    requires |s| >= 2
    ensures Commit(Direct(base, s, ops)) == Direct(base, Commit(s), ops)
    decreases ops
  {
    if ops != [] {
      CommitDirect(base, s, ops[..|ops| - 1]);
      var mid := Direct(base, s, ops[..|ops| - 1]);
      match ops[|ops| - 1]
      case Put(a, d) => CommitPut(base, mid, a, d);
      case Tx(id, lv) => CommitTx(mid, id, lv);
      case Group(inner, keep) => if keep { CommitDirect(base, mid, inner); }
    }
  }

  lemma CommitEmpty(s: Stack)
    requires s != []
    ensures Commit(s + [EMPTY]) == s
  {
    var top := s[|s| - 1];
    assert MergedAccts(top.accts, EMPTY.accts) == top.accts;
    assert Merged(top, EMPTY) == top;
    assert (s + [EMPTY])[..|s + [EMPTY]| - 2] == s[..|s| - 1];
  }

  /** Running groups in child states, nested to any depth, leaves the very same changes as
      running the kept ones in place; a group that is dropped leaves no trace. */
  lemma {:induction false} NestingIsInvisible(base: Base, s: Stack, ops: seq<Op>)
    requires s != []
    ensures Run(base, s, ops) == Direct(base, s, ops)
    decreases ops
  {
    if ops != [] {
      NestingIsInvisible(base, s, ops[..|ops| - 1]);
      var mid := Run(base, s, ops[..|ops| - 1]);
      match ops[|ops| - 1]
      case Put(a, d) =>
      case Tx(id, lv) =>
      case Group(inner, keep) =>
        NestingIsInvisible(base, mid + [EMPTY], inner);
        CommitDirect(base, mid + [EMPTY], inner);
        CommitEmpty(mid);
    }
  }

  // ---------------------------------------------------------------- recorded prior values

  /** Every state records, for each account it changed, the value seen through its parents. */
  ghost predicate Priors(base: Base, s: Stack) {
    forall k, a :: 0 <= k < |s| && a in s[k].accts ==> s[k].accts[a].prior == Lookup(base, s[..k], a)
  }

  lemma PutPriors(base: Base, s: Stack, a: Address, d: AccountData)
    requires s != [] && Priors(base, s)
    ensures Priors(base, PutTop(base, s, a, d))
  {
    var r := PutTop(base, s, a, d);
    forall k, x | 0 <= k < |r| && x in r[k].accts ensures r[k].accts[x].prior == Lookup(base, r[..k], x) {
      assert r[..k] == s[..k];
      if k == |s| - 1 && x == a && a !in s[k].accts { assert s[..k] == s[..|s| - 1]; }
    }
  }

  lemma TxPriors(base: Base, s: Stack, id: Txid, lv: Round)
    requires s != [] && Priors(base, s)
    ensures Priors(base, AddTx(s, id, lv))
  {
    var r := AddTx(s, id, lv);
    forall k, x | 0 <= k < |r| && x in r[k].accts ensures r[k].accts[x].prior == Lookup(base, r[..k], x) {
      assert r[..k] == s[..k];
    }
  }

  lemma CommitPriors(base: Base, s: Stack)
    requires |s| >= 2 && Priors(base, s)
    ensures Priors(base, Commit(s))
  {
    Below(s);
    var r, n := Commit(s), |s|;
    forall k, x | 0 <= k < |r| && x in r[k].accts ensures r[k].accts[x].prior == Lookup(base, r[..k], x) {
      assert r[..k] == s[..k];
      if k == n - 2 && x !in s[k].accts {
        var parent := s[..n - 1];
        assert parent[|parent| - 1] == s[k] && parent[..|parent| - 1] == s[..k];
        assert s[n - 1].accts[x].prior == Lookup(base, parent, x);
      }
    }
  }

  lemma {:induction false} DirectPriors(base: Base, s: Stack, ops: seq<Op>)
    requires s != [] && Priors(base, s)
    ensures Priors(base, Direct(base, s, ops))
    decreases ops
  {
    if ops != [] {
      DirectPriors(base, s, ops[..|ops| - 1]);
      var mid := Direct(base, s, ops[..|ops| - 1]);
      match ops[|ops| - 1]
      case Put(a, d) => PutPriors(base, mid, a, d);
      case Tx(id, lv) => TxPriors(base, mid, id, lv);
      case Group(inner, keep) => if keep { DirectPriors(base, mid, inner); }
    }
  }

  /** However an evaluation nests its groups, the changes it ends with start from the base
      accounts, and applying them gives what its lookups say. */
  lemma RecordedDeltas(base: Base, ops: seq<Op>)
    ensures var m := Run(base, [EMPTY], ops)[0];
      && StartsFrom(base.balances, m.accts)
      && (forall a: Address :: Lookup(base, [m], a) == Of(Applied(base.balances, m.accts), a))
  {
    NestingIsInvisible(base, [EMPTY], ops);
    DirectPriors(base, [EMPTY], ops);
    var r := Direct(base, [EMPTY], ops);
    var m := r[0];
    forall a | a in m.accts ensures m.accts[a].prior == Of(base.balances, a) {
      assert r[..0] == [];
      assert Lookup(base, r[..0], a) == Of(base.balances, a);
    }
    assert [m][..0] == [];
  }

  // ---------------------------------------------------------------- assets

  /** The creator table says of each asset which account holds its parameters. */
  ghost predicate Owned(base: Base, s: Stack) {
    forall i: AssetIndex, a: Address :: i in Lookup(base, s, a).created <==> Creator(base, s, i) == Some(a)
  }

  lemma PutLookup(base: Base, s: Stack, a: Address, d: AccountData, x: Address)
    requires s != []
    ensures Lookup(base, PutTop(base, s, a, d), x) == if x == a then d else Lookup(base, s, x)
  {
    assert PutTop(base, s, a, d)[..|s| - 1] == s[..|s| - 1];
  }

  lemma PutCreator(base: Base, s: Stack, a: Address, d: AccountData, i: AssetIndex)
    requires s != []
    ensures var prior := Lookup(base, s, a);
      Creator(base, PutTop(base, s, a, d), i) ==
        if i in d.created && i !in prior.created then Some(a)
        else if i !in d.created && i in prior.created then None
        else Creator(base, s, i)
  {
    assert PutTop(base, s, a, d)[..|s| - 1] == s[..|s| - 1];
  }

  /** A write keeps the creator table exact if and only if it gives the account no asset
      of another account. */
  lemma OwnedExact(base: Base, s: Stack, a: Address, d: AccountData)
    requires s != [] && Owned(base, s)
    ensures Owned(base, PutTop(base, s, a, d)) <==>
      (forall i: AssetIndex :: i in d.created ==> Creator(base, s, i) == None || Creator(base, s, i) == Some(a))
  {
    var r := PutTop(base, s, a, d);
    forall x: Address { PutLookup(base, s, a, d, x); }
    forall i: AssetIndex { PutCreator(base, s, a, d, i); }
    if i: AssetIndex :| i in d.created && !(Creator(base, s, i) == None || Creator(base, s, i) == Some(a)) {
      var x := Creator(base, s, i).value;
      assert i in Lookup(base, s, x).created;
      assert i in Lookup(base, r, x).created && i in Lookup(base, r, a).created;
    } else {
      forall i: AssetIndex, x: Address ensures i in Lookup(base, r, x).created <==> Creator(base, r, i) == Some(x) {
        assert i in Lookup(base, s, x).created <==> Creator(base, s, i) == Some(x);
        assert i in Lookup(base, s, a).created <==> Creator(base, s, i) == Some(a);
      }
    }
  }

  // ---------------------------------------------------------------- transaction counter

  lemma {:induction false} UnionSize<T>(x: set<T>, y: set<T>)
    ensures |x + y| <= |x| + |y|
    ensures |x + y| == |x| + |y| <==> x !! y
  {
    assert |x + y| == |x| + |y| - |x * y|;
    if x !! y { assert x * y == {}; } else { var e :| e in x && e in y; assert e in x * y; }
  }

  /** Committing keeps the transaction counter if and only if the child holds no transaction
      that its parent already holds. */
  lemma CounterExact(base: Base, s: Stack)
    requires |s| >= 2
    ensures TxnCounter(base, Commit(s)) == TxnCounter(base, s) <==> s[|s| - 2].txids.Keys !! s[|s| - 1].txids.Keys
  {
    Below(s);
    var parent, child := s[|s| - 2].txids, s[|s| - 1].txids;
    assert (parent + child).Keys == parent.Keys + child.Keys;
    UnionSize(parent.Keys, child.Keys);
    assert s[..|s| - 1][|s| - 2] == s[|s| - 2];
    assert |parent| == |parent.Keys| && |child| == |child.Keys| && |parent + child| == |(parent + child).Keys|;
  }
}
