/** The copy-on-write state as an object that points to its parent. */
module CowMachine {
  import opened Options
  import opened AccountTotals
  import opened Accounts
  import opened Cow

  class CowState {
    const base: Base
    const parent: CowState?
    var accts: Deltas
    var txids: map<Txid, Round>
    var assets: map<AssetIndex, AssetMod>
    ghost const repr: set<CowState>

    ghost predicate Valid()
      reads repr
      decreases repr
    {
      && this in repr
      && (parent == null ==> repr == {this})
      && (parent != null ==> parent in repr && parent.repr == repr - {this} && parent.base == base && parent.Valid())
    }

    /** This state's own changes. */
    function Own(): Mods
      reads this
    {
      Mods(accts, txids, assets)
    }

    /** The changes of this state and of all its parents. */
    ghost function Stack(): (s: Stack)
      requires Valid()
      reads repr
      ensures s != [] && s[|s| - 1] == Own()
      ensures parent != null ==> s[..|s| - 1] == parent.Stack()
      decreases repr
    {
      if parent == null then [Own()] else parent.Stack() + [Own()]
    }

    constructor Root(b: Base)
      ensures Valid() && fresh(repr) && Stack() == [EMPTY] && base == b
    {
      base, parent := b, null;
      accts, txids, assets := map[], map[], map[];
      repr := {this};
    }

    constructor Child(p: CowState)
      requires p.Valid()
      ensures Valid() && fresh(repr - p.repr) && parent == p && base == p.base
      ensures Stack() == p.Stack() + [EMPTY]
    {
      base, parent := p.base, p;
      accts, txids, assets := map[], map[], map[];
      repr := p.repr + {this};
      new;
      assert repr - {this} == p.repr;
    }

    method Lookup(a: Address) returns (d: AccountData)
      requires Valid()
      ensures d == Cow.Lookup(base, Stack(), a)
      decreases repr
    {
      if a in accts { return accts[a].now; }
      if parent == null {
        assert Stack()[..|Stack()| - 1] == [];
        return Of(base.balances, a);
      }
      d := parent.Lookup(a);
    }

    method GetAssetCreator(i: AssetIndex) returns (c: Option<Address>)
      requires Valid()
      ensures c == Creator(base, Stack(), i)
      decreases repr
    {
      if i in assets { return if assets[i].created then Some(assets[i].creator) else None; }
      if parent == null {
        assert Stack()[..|Stack()| - 1] == [];
        return CreatorIn(base.creators, i);
      }
      c := parent.GetAssetCreator(i);
    }

    /** Whether a transaction is in this state or one of its parents. */
    method IsDup(id: Txid) returns (dup: bool)
      requires Valid()
      ensures dup == Seen(Stack(), id)
      decreases repr
    {
      if id in txids { return true; }
      if parent == null {
        assert Stack()[..|Stack()| - 1] == [];
        return false;
      }
      dup := parent.IsDup(id);
    }

    method Counter() returns (n: nat)
      requires Valid()
      ensures n == TxnCounter(base, Stack())
      decreases repr
    {
      if parent == null {
        assert Stack()[..|Stack()| - 1] == [];
        return base.txns + |txids|;
      }
      n := parent.Counter();
      n := n + |txids|;
    }

    method Put(a: Address, d: AccountData)
      requires Valid()
      modifies this
      ensures Valid() && Stack() == PutTop(base, old(Stack()), a, d)
    {
      var prior := Lookup(a);
      ghost var s := Stack();
      if a in accts {
        accts := accts[a := AccountDelta(accts[a].prior, d)];
      } else {
        accts := accts[a := AccountDelta(prior, d)];
      }
      assets := assets + AssetChanges(a, AccountDelta(prior, d));
      Framed(s);
    }

    /** Nothing has changed here. */
    twostate lemma Untouched()
      requires old(Valid()) && unchanged(repr)
      ensures Valid() && Stack() == old(Stack())
    {
    }

    /** Only this state's own changes have changed since the stack was s. */
    twostate lemma Framed(s: Stack)
      requires old(Valid()) && s == old(Stack()) && unchanged(repr - {this})
      ensures Valid() && Stack() == s[|s| - 1 := Own()]
    {
      if parent != null { parent.Untouched(); }
    }

    method AddTx(id: Txid, lastValid: Round)
      requires Valid()
      modifies this
      ensures Valid() && Stack() == Cow.AddTx(old(Stack()), id, lastValid)
    {
      ghost var s := Stack();
      txids := txids[id := lastValid];
      Framed(s);
    }

    method CommitToParent()
      requires Valid() && parent != null
      modifies parent
      ensures parent.Valid() && parent.Stack() == Commit(old(Stack()))
    {
      ghost var s := parent.Stack();
      var merged := Merge(parent.accts, accts);
      parent.accts := merged;
      parent.txids := parent.txids + txids;
      parent.assets := parent.assets + assets;
      parent.Framed(s);
    }
  }

  /** The loop of a commit over the child's accounts. */
  method Merge(parent: Deltas, child: Deltas) returns (m: Deltas)
    ensures m == MergedAccts(parent, child)
  {
    m := parent;
    var todo := child.Keys;
    while todo != {}
      invariant todo <= child.Keys
      invariant forall a :: a in m <==> a in parent || (a in child && a !in todo)
      invariant forall a :: a in m ==> m[a] == if a in todo then parent[a] else MergedAt(parent, child, a)
      decreases |todo|
    {
      var a :| a in todo;
      var d := if a in parent then AccountDelta(parent[a].prior, child[a].now) else child[a];
      assert d == MergedAt(parent, child, a);
      m := m[a := d];
      todo := todo - {a};
    }
  }
}
