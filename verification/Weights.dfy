/** Sums of a weight function over finite sets. */
module Weights {

  ghost function Weigh<A(!new)>(w: A -> nat, s: set<A>): nat
    decreases |s|
  {
    if s == {} then 0 else
      var a :| a in s;
      w(a) + Weigh(w, s - {a})
  }

  lemma {:induction false} WeighRemove<A(!new)>(w: A -> nat, s: set<A>, a: A)
    requires a in s
    ensures Weigh(w, s) == w(a) + Weigh(w, s - {a})
    decreases |s|
  {
    var b :| b in s && Weigh(w, s) == w(b) + Weigh(w, s - {b});
    if b != a {
      WeighRemove(w, s - {b}, a);
      WeighRemove(w, s - {a}, b);
      assert s - {b} - {a} == s - {a} - {b};
    }
  }

  lemma WeighAdd<A(!new)>(w: A -> nat, s: set<A>, a: A)
    requires a !in s
    ensures Weigh(w, s + {a}) == Weigh(w, s) + w(a)
  {
    WeighRemove(w, s + {a}, a);
    assert s + {a} - {a} == s;
  }

  lemma {:induction false} WeighDisjoint<A(!new)>(w: A -> nat, s: set<A>, t: set<A>)
    requires s !! t
    ensures Weigh(w, s + t) == Weigh(w, s) + Weigh(w, t)
    decreases |t|
  {
    if t == {} {
      assert s + t == s;
    } else {
      var a :| a in t;
      WeighRemove(w, t, a);
      WeighRemove(w, s + t, a);
      assert s + t - {a} == s + (t - {a});
      WeighDisjoint(w, s, t - {a});
    }
  }

  lemma WeighSubset<A(!new)>(w: A -> nat, s: set<A>, t: set<A>)
    requires s <= t
    ensures Weigh(w, s) <= Weigh(w, t)
  {
    WeighDisjoint(w, s, t - s);
    assert s + (t - s) == t;
  }

  /** Inclusion and exclusion for two sets. */
  lemma WeighOverlap<A(!new)>(w: A -> nat, s: set<A>, t: set<A>)
    ensures Weigh(w, s + t) + Weigh(w, s * t) == Weigh(w, s) + Weigh(w, t)
  {
    WeighDisjoint(w, s, t - s);
    WeighDisjoint(w, s * t, t - s);
    assert s + (t - s) == s + t;
    assert s * t + (t - s) == t;
  }

  /** A set of positive weights has at most as many elements as it weighs. */
  lemma {:induction false} WeighAtLeastSize<A(!new)>(w: A -> nat, s: set<A>)
    requires forall a :: a in s ==> w(a) > 0
    ensures |s| <= Weigh(w, s)
    decreases |s|
  {
    if s != {} {
      var a :| a in s;
      WeighRemove(w, s, a);
      WeighAtLeastSize(w, s - {a});
    }
  }

  /** A weight that is the sum of two others on a set weighs as much as both. */
  lemma {:induction false} WeighPlus<A(!new)>(v: A -> nat, w: A -> nat, x: A -> nat, s: set<A>)
    requires forall a :: a in s ==> x(a) == v(a) + w(a)
    ensures Weigh(x, s) == Weigh(v, s) + Weigh(w, s)
    decreases |s|
  {
    if s != {} {
      var a :| a in s;
      WeighRemove(v, s, a);
      WeighRemove(w, s, a);
      WeighRemove(x, s, a);
      WeighPlus(v, w, x, s - {a});
    }
  }

  /** Two weights that agree where it matters, over sets that differ only in weightless elements. */
  lemma {:induction false} WeighSame<A(!new)>(v: A -> nat, w: A -> nat, s: set<A>, t: set<A>)
    requires forall a :: a in s && a in t ==> v(a) == w(a)
    requires forall a :: a in s && a !in t ==> v(a) == 0
    requires forall a :: a in t && a !in s ==> w(a) == 0
    ensures Weigh(v, s) == Weigh(w, t)
    decreases |s| + |t|
  {
    if a :| a in s {
      WeighRemove(v, s, a);
      if a in t { WeighRemove(w, t, a); }
      WeighSame(v, w, s - {a}, t - {a});
      assert a !in t ==> t - {a} == t;
    } else if a :| a in t {
      WeighRemove(w, t, a);
      WeighSame(v, w, s, t - {a});
    }
  }

  lemma {:induction false} SubsetSize<A>(s: set<A>, t: set<A>)
    requires s <= t
    ensures |s| <= |t|
    decreases |t|
  {
    if t != {} {
      var a :| a in t;
      SubsetSize(s - {a}, t - {a});
    }
  }
}
