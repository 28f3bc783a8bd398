/** The vote tracker as the program runs it: maps updated in place, sorted slices cut
    off at a quorum, and bundle checks that complete in any order. */
module VoteMachine {
  import opened Options
  import opened AgreementTypes
  import opened Weights
  import opened VoteTrackers
  import opened Bundles

  // ---------------------------------------------------------------- descending order

  /** a is packed before b: heavier, or as heavy with the greater address. */
  predicate Outranks(wa: nat, a: Address, wb: nat, b: Address) {
    wa > wb || (wa == wb && a > b)
  }

  predicate InOrder(w: Address -> nat, s: seq<Address>, i: int, j: int) {
    0 <= i < j < |s| ==> Outranks(w(s[i]), s[i], w(s[j]), s[j])
  }

  ghost predicate Descending(w: Address -> nat, s: seq<Address>) {
    forall i, j :: InOrder(w, s, i, j)
  }

  function Insert(w: Address -> nat, a: Address, s: seq<Address>): seq<Address> {
    if s == [] then [a]
    else if Outranks(w(a), a, w(s[0]), s[0]) then [a] + s
    else [s[0]] + Insert(w, a, s[1..])
  }

  lemma {:induction false} InsertHas(w: Address -> nat, a: Address, s: seq<Address>, x: Address)
    ensures x in Insert(w, a, s) <==> x == a || x in s
  {
    if s != [] && !Outranks(w(a), a, w(s[0]), s[0]) {
      InsertHas(w, a, s[1..], x);
    }
  }

  lemma DescendingTail(w: Address -> nat, s: seq<Address>)
    requires Descending(w, s) && s != []
    ensures Descending(w, s[1..])
  {
    forall i, j ensures InOrder(w, s[1..], i, j) { assert InOrder(w, s, i + 1, j + 1); }
  }

  lemma DescendingCons(w: Address -> nat, a: Address, s: seq<Address>)
    requires Descending(w, s) && forall x :: x in s ==> Outranks(w(a), a, w(x), x)
    ensures Descending(w, [a] + s)
  {
    var r := [a] + s;
    forall i, j ensures InOrder(w, r, i, j) {
      assert InOrder(w, s, i - 1, j - 1);
      assert 0 <= i < j < |r| ==> r[j] == s[j - 1];
    }
  }

  lemma HeadFirst(w: Address -> nat, s: seq<Address>, x: Address)
    requires Descending(w, s) && s != [] && x in s[1..]
    ensures Outranks(w(s[0]), s[0], w(x), x)
  {
    var j :| 0 <= j < |s[1..]| && s[1..][j] == x;
    assert InOrder(w, s, 0, j + 1);
  }

  lemma {:induction false} InsertDescends(w: Address -> nat, a: Address, s: seq<Address>)
    requires Descending(w, s) && a !in s
    ensures Descending(w, Insert(w, a, s))
  {
    if s != [] {
      DescendingTail(w, s);
      if Outranks(w(a), a, w(s[0]), s[0]) {
        forall x | x in s ensures Outranks(w(a), a, w(x), x) { if x != s[0] { HeadFirst(w, s, x); } }
        DescendingCons(w, a, s);
      } else {
        var r := Insert(w, a, s[1..]);
        InsertDescends(w, a, s[1..]);
        forall x | x in r ensures Outranks(w(s[0]), s[0], w(x), x) {
          InsertHas(w, a, s[1..], x);
          if x in s[1..] { HeadFirst(w, s, x); }
        }
        DescendingCons(w, s[0], r);
      }
    }
  }

  /** The keys of a set in descending order: what collecting a map into a slice, in any
      order, and sorting it gives. */
  method SortedKeys(w: Address -> nat, keys: set<Address>) returns (s: seq<Address>)
    ensures Descending(w, s)
    ensures forall a :: a in s <==> a in keys
  {
    s := [];
    var rest := keys;
    while rest != {}
      invariant rest <= keys && Descending(w, s)
      invariant forall a :: a in s <==> a in keys - rest
      decreases |rest|
    {
      var a :| a in rest;
      forall x { InsertHas(w, a, s, x); }
      InsertDescends(w, a, s);
      s := Insert(w, a, s);
      rest := rest - {a};
    }
  }

  ghost function Elements(s: seq<Address>): set<Address> {
    set a | a in s
  }

  lemma DescendingDistinct(w: Address -> nat, s: seq<Address>, k: nat)
    requires Descending(w, s) && k < |s|
    ensures s[k] !in Elements(s[..k])
    ensures Elements(s[..k + 1]) == Elements(s[..k]) + {s[k]}
  {
    assert s[..k + 1] == s[..k] + [s[k]];
    forall i | 0 <= i < k ensures s[i] != s[k] { assert InOrder(w, s, i, k); }
  }

  lemma {:induction false} DescendingCounted(w: Address -> nat, s: seq<Address>, k: nat)
    requires Descending(w, s) && k <= |s|
    ensures |Elements(s[..k])| == k
  {
    if k > 0 {
      DescendingCounted(w, s, k - 1);
      DescendingDistinct(w, s, k - 1);
    }
  }

  lemma LaterIsLighter(w: Address -> nat, s: seq<Address>, k: nat, a: Address, b: Address)
    requires Descending(w, s) && k <= |s|
    requires a in s && a !in Elements(s[..k]) && b in Elements(s[..k])
    ensures w(a) <= w(b)
  {
    var i :| 0 <= i < |s| && s[i] == a;
    var j :| 0 <= j < k && s[..k][j] == b;
    assert i >= k;
    assert InOrder(w, s, j, i);
  }

  lemma Spare(first: set<Address>, some: set<Address>, a: Address) returns (b: Address)
    requires |some| <= |first| && a in some && a !in first
    ensures b in first && b !in some
  {
    if first <= some {
      CardinalityBelow(first, some, a);
    }
    b :| b in first && b !in some;
  }

  /** No k members of a descending sequence outweigh its first k. */
  lemma {:induction false} FirstWeighMost(w: Address -> nat, s: seq<Address>, k: nat, some: set<Address>)
    requires Descending(w, s) && k <= |s|
    requires some <= Elements(s) && |some| <= k
    ensures Weigh(w, some) <= Weigh(w, Elements(s[..k]))
    decreases |some - Elements(s[..k])|
  {
    var first := Elements(s[..k]);
    if some <= first {
      WeighSubset(w, some, first);
    } else {
      var a :| a in some && a !in first;
      DescendingCounted(w, s, k);
      var b := Spare(first, some, a);
      LaterIsLighter(w, s, k, a, b);
      WeighRemove(w, some, a);
      WeighAdd(w, some - {a}, b);
      assert (some - {a} + {b}) - first == (some - first) - {a};
      FirstWeighMost(w, s, k, some - {a} + {b});
    }
  }

  lemma CardinalityBelow(s: set<Address>, t: set<Address>, a: Address)
    requires s <= t && a in t && a !in s
    ensures |s| < |t|
  {
    SubsetSize(s, t - {a});
  }

  // ---------------------------------------------------------------- cutting off at a quorum

  function Sum(ws: seq<nat>): nat {
    if ws == [] then 0 else Sum(ws[..|ws| - 1]) + ws[|ws| - 1]
  }

  /** How many of ws are taken, from a weight of start, before target is reached. */
  function Cutoff(target: nat, start: nat, ws: seq<nat>): nat
    decreases |ws|
  {
    if start >= target || ws == [] then 0 else 1 + Cutoff(target, start + ws[0], ws[1..])
  }

  lemma {:induction false} SumFirst(ws: seq<nat>)
    requires ws != []
    ensures Sum(ws) == ws[0] + Sum(ws[1..])
  {
    if |ws| > 1 {
      SumFirst(ws[..|ws| - 1]);
      assert ws[..|ws| - 1][1..] == ws[1..][..|ws| - 2];
    }
  }

  lemma {:induction false} CutoffBound(target: nat, start: nat, ws: seq<nat>)
    ensures Cutoff(target, start, ws) <= |ws|
    decreases |ws|
  {
    if start < target && ws != [] {
      CutoffBound(target, start + ws[0], ws[1..]);
    }
  }

  /** The cutoff is the least that reaches the target, or everything. */
  lemma {:induction false} CutoffLeast(target: nat, start: nat, ws: seq<nat>, n: nat)
    requires n <= |ws|
    ensures n < Cutoff(target, start, ws) ==> start + Sum(ws[..n]) < target
    ensures n == Cutoff(target, start, ws) ==> n == |ws| || start + Sum(ws[..n]) >= target
    decreases |ws|
  {
    if start < target && ws != [] && n > 0 {
      CutoffLeast(target, start + ws[0], ws[1..], n - 1);
      SumFirst(ws[..n]);
      assert ws[..n][1..] == ws[1..][..n - 1];
    }
  }

  /** What is cut off once is not cut off again. */
  lemma {:induction false} CutoffAgain(target: nat, start: nat, ws: seq<nat>, n: nat)
    requires n == Cutoff(target, start, ws) && n <= |ws|
    ensures Cutoff(target, start, ws[..n]) == n
    decreases |ws|
  {
    if start < target && ws != [] {
      CutoffBound(target, start + ws[0], ws[1..]);
      CutoffAgain(target, start + ws[0], ws[1..], n - 1);
      assert ws[..n][1..] == ws[1..][..n - 1];
    }
  }

  method CutAt(c: Committee, start: nat, ws: seq<nat>) returns (n: nat, weight: nat)
    ensures n == Cutoff(c.threshold, start, ws) && n <= |ws|
    ensures weight == start + Sum(ws[..n])
  {
    n, weight := 0, start;
    while !c.Quorum(weight) && n < |ws|
      invariant n <= |ws| && weight == start + Sum(ws[..n])
      invariant n + Cutoff(c.threshold, weight, ws[n..]) == Cutoff(c.threshold, start, ws)
    {
      assert ws[..n + 1][..n] == ws[..n];
      weight := weight + ws[n];
      n := n + 1;
    }
    assert ws[0..] == ws;
  }

  lemma {:induction false} SumWeighs(w: Address -> nat, keys: seq<Address>, ws: seq<nat>, k: nat)
    requires Descending(w, keys) && |keys| == |ws| && k <= |ws|
    requires forall i :: 0 <= i < |ws| ==> ws[i] == w(keys[i])
    ensures Sum(ws[..k]) == Weigh(w, Elements(keys[..k]))
  {
    if k == 0 {
      assert Elements(keys[..0]) == {};
    } else {
      SumWeighs(w, keys, ws, k - 1);
      DescendingDistinct(w, keys, k - 1);
      WeighAdd(w, Elements(keys[..k - 1]), keys[k - 1]);
      assert ws[..k][..k - 1] == ws[..k - 1];
    }
  }

  // ---------------------------------------------------------------- making a bundle

  function VoteAuths(votes: seq<Vote>): seq<VoteAuth> {
    seq(|votes|, i requires 0 <= i < |votes| => VoteAuth(votes[i].r.sender, votes[i].sig))
  }

  function PairAuths(pairs: seq<EquivocationVote>): seq<PairAuth> {
    seq(|pairs|, i requires 0 <= i < |pairs| => AuthOf(pairs[i]))
  }

  function VoteWeights(votes: seq<Vote>): seq<nat> {
    seq(|votes|, i requires 0 <= i < |votes| => votes[i].weight)
  }

  function PairWeights(pairs: seq<EquivocationVote>): seq<nat> {
    seq(|pairs|, i requires 0 <= i < |pairs| => pairs[i].weight)
  }

  ghost function VotesTaken(c: Committee, votes: seq<Vote>): nat {
    Cutoff(c.threshold, 0, VoteWeights(votes))
  }

  ghost function PairsTaken(c: Committee, votes: seq<Vote>, pairs: seq<EquivocationVote>): nat
    requires VotesTaken(c, votes) <= |votes|
  {
    Cutoff(c.threshold, Sum(VoteWeights(votes)[..VotesTaken(c, votes)]), PairWeights(pairs))
  }

  /** The shortest run of the votes, then of the pairs, that reaches a quorum; None
      stands for the panics on no votes, on a vote for another value, and on too little
      weight. */
  method MakeBundle(c: Committee, target: ProposalValue, votes: seq<Vote>, pairs: seq<EquivocationVote>)
    returns (r: Option<UnauthenticatedBundle>)
    ensures VotesTaken(c, votes) <= |votes| && PairsTaken(c, votes, pairs) <= |pairs|
    ensures r.Some? <==>
              && votes != []
              && (forall i :: 0 <= i < |votes| ==> votes[i].r.proposal == target)
              && c.Quorum(Sum(VoteWeights(votes)[..VotesTaken(c, votes)]) + Sum(PairWeights(pairs)[..PairsTaken(c, votes, pairs)]))
    ensures r.Some? ==>
              r.value == UnauthenticatedBundle(votes[0].r.round, votes[0].r.period, votes[0].r.step, target,
                                               VoteAuths(votes[..VotesTaken(c, votes)]),
                                               PairAuths(pairs[..PairsTaken(c, votes, pairs)]))
  {
    var n, packed := CutAt(c, 0, VoteWeights(votes));
    var m, total := CutAt(c, packed, PairWeights(pairs));
    if |votes| == 0 { return None; }
    for i := 0 to |votes|
      invariant forall j :: 0 <= j < i ==> votes[j].r.proposal == target
    {
      if votes[i].r.proposal != target { return None; }
    }
    if !c.Quorum(total) { return None; }
    r := Some(UnauthenticatedBundle(votes[0].r.round, votes[0].r.period, votes[0].r.step, target,
                                    VoteAuths(votes[..n]), PairAuths(pairs[..m])));
  }

  // ---------------------------------------------------------------- what a cut selection proves

  /** n voters of p and m equivocators, each the heaviest first, cut at a quorum. */
  ghost predicate Selection(c: Committee, t: Tracker, p: ProposalValue,
                            keys: seq<Address>, n: nat, pairKeys: seq<Address>, m: nat)
  {
    && Descending(c.weight, keys) && Descending(c.weight, pairKeys)
    && Elements(keys) == LoyalTo(t, p) && Elements(pairKeys) == t.equivocators.Keys
    && Cuts(c, keys, n, pairKeys, m)
  }

  lemma SelectionReaches(c: Committee, t: Tracker, p: ProposalValue,
                         keys: seq<Address>, n: nat, pairKeys: seq<Address>, m: nat)
    requires c.threshold > 0 && Consistent(c, t) && p in OverSet(c, t)
    requires Selection(c, t, p, keys, n, pairKeys, m)
    ensures n > 0
    ensures c.Quorum(Weigh(c.weight, Elements(keys[..n])) + Weigh(c.weight, Elements(pairKeys[..m])))
  {
    assert CountsExact(c, t, p);
    assert keys[..|keys|] == keys && pairKeys[..|pairKeys|] == pairKeys;
    assert keys != [];
    assert Elements(keys[..0]) == {};
  }

  lemma EntrySenders(c: Committee, b: UnauthenticatedBundle, keys: seq<Address>, n: nat,
                     pairKeys: seq<Address>, m: nat, k: nat)
    requires |b.votes| == n <= |keys| && |b.pairs| == m <= |pairKeys| && k <= b.Size()
    requires forall i :: 0 <= i < n ==> b.votes[i].sender == keys[i]
    requires forall i :: 0 <= i < m ==> b.pairs[i].sender == pairKeys[i]
    ensures k <= n ==> SendersUpTo(b, k) == Elements(keys[..k])
    ensures k >= n ==> SendersUpTo(b, k) == Elements(keys[..n]) + Elements(pairKeys[..k - n])
  {
    if k <= n {
      forall a | a in Elements(keys[..k]) ensures a in SendersUpTo(b, k) {
        var i :| 0 <= i < k && keys[..k][i] == a;
        assert b.SenderAt(i) == a;
      }
    }
    if k >= n {
      forall a | a in Elements(keys[..n]) ensures a in SendersUpTo(b, k) {
        var i :| 0 <= i < n && keys[..n][i] == a;
        assert b.SenderAt(i) == a;
      }
      forall a | a in Elements(pairKeys[..k - n]) ensures a in SendersUpTo(b, k) {
        var i :| 0 <= i < k - n && pairKeys[..k - n][i] == a;
        assert b.SenderAt(n + i) == a;
      }
    }
  }

  lemma SelectionDistinct(c: Committee, t: Tracker, p: ProposalValue, b: UnauthenticatedBundle,
                          keys: seq<Address>, n: nat, pairKeys: seq<Address>, m: nat)
    requires Votes(c, t) && Selection(c, t, p, keys, n, pairKeys, m)
    requires |b.votes| == n && |b.pairs| == m
    requires forall i :: 0 <= i < n ==> b.votes[i].sender == keys[i]
    requires forall i :: 0 <= i < m ==> b.pairs[i].sender == pairKeys[i]
    ensures b.Distinct()
  {
    forall i, j | 0 <= i < j < b.Size() ensures b.SenderAt(i) != b.SenderAt(j) {
      if i < n <= j {
        assert keys[i] in Elements(keys) && pairKeys[j - n] in Elements(pairKeys);
        assert keys[i] in t.voters;
      } else if j < n {
        assert InOrder(c.weight, keys, i, j);
      } else {
        assert InOrder(c.weight, pairKeys, i - n, j - n);
      }
    }
  }

  /** The senders of a bundle whose entries follow two lists. */
  lemma CutSenders(c: Committee, b: UnauthenticatedBundle, keys: seq<Address>, n: nat, pairKeys: seq<Address>, m: nat)
    requires |b.votes| == n <= |keys| && |b.pairs| == m <= |pairKeys| && n > 0
    requires forall i :: 0 <= i < n ==> b.votes[i].sender == keys[i]
    requires forall i :: 0 <= i < m ==> b.pairs[i].sender == pairKeys[i]
    ensures SendersUpTo(b, b.Size()) == Elements(keys[..n]) + Elements(pairKeys[..m])
    ensures m == 0 ==> SendersUpTo(b, b.Size() - 1) == Elements(keys[..n - 1])
    ensures m > 0 ==> SendersUpTo(b, b.Size() - 1) == Elements(keys[..n]) + Elements(pairKeys[..m - 1])
  {
    EntrySenders(c, b, keys, n, pairKeys, m, b.Size());
    EntrySenders(c, b, keys, n, pairKeys, m, b.Size() - 1);
  }

  lemma PrefixElements(keys: seq<Address>, k: nat, m: nat)
    requires k <= m <= |keys|
    ensures Elements(keys[..k]) <= Elements(keys[..m])
  {
    assert keys[..m] == keys[..k] + keys[k..m];
  }

  /** What a cut weighs, with and without its last entry. */
  lemma CutWeights(w: Address -> nat, keys: seq<Address>, n: nat, pairKeys: seq<Address>, m: nat)
    requires n <= |keys| && m <= |pairKeys| && Elements(keys[..n]) !! Elements(pairKeys[..m])
    ensures Weigh(w, Elements(keys[..n]) + Elements(pairKeys[..m])) == Weigh(w, Elements(keys[..n])) + Weigh(w, Elements(pairKeys[..m]))
    ensures m > 0 ==>
      Weigh(w, Elements(keys[..n]) + Elements(pairKeys[..m - 1])) == Weigh(w, Elements(keys[..n])) + Weigh(w, Elements(pairKeys[..m - 1]))
  {
    WeighDisjoint(w, Elements(keys[..n]), Elements(pairKeys[..m]));
    if m > 0 {
      PrefixElements(pairKeys, m - 1, m);
      WeighDisjoint(w, Elements(keys[..n]), Elements(pairKeys[..m - 1]));
    }
  }

  lemma CutDecides(c: Committee, b: UnauthenticatedBundle, keys: seq<Address>, n: nat, pairKeys: seq<Address>, m: nat)
    requires Cuts(c, keys, n, pairKeys, m) && Elements(keys[..n]) !! Elements(pairKeys[..m]) && n > 0
    requires c.Quorum(Weigh(c.weight, Elements(keys[..n])) + Weigh(c.weight, Elements(pairKeys[..m])))
    requires |b.votes| == n && |b.pairs| == m
    requires forall i :: 0 <= i < n ==> b.votes[i].sender == keys[i]
    requires forall i :: 0 <= i < m ==> b.pairs[i].sender == pairKeys[i]
    ensures c.Quorum(BundleWeight(c, b)) && !c.Quorum(Weigh(c.weight, SendersUpTo(b, b.Size() - 1)))
  {
    CutSenders(c, b, keys, n, pairKeys, m);
    CutWeights(c.weight, keys, n, pairKeys, m);
  }

  lemma SelectionWeights(c: Committee, t: Tracker, p: ProposalValue, b: UnauthenticatedBundle,
                         keys: seq<Address>, n: nat, pairKeys: seq<Address>, m: nat)
    requires c.threshold > 0 && Consistent(c, t) && p in OverSet(c, t)
    requires Selection(c, t, p, keys, n, pairKeys, m)
    requires |b.votes| == n && |b.pairs| == m
    requires forall i :: 0 <= i < n ==> b.votes[i].sender == keys[i]
    requires forall i :: 0 <= i < m ==> b.pairs[i].sender == pairKeys[i]
    ensures n > 0
    ensures c.Quorum(BundleWeight(c, b))
    ensures !c.Quorum(Weigh(c.weight, SendersUpTo(b, b.Size() - 1)))
  {
    SelectionReaches(c, t, p, keys, n, pairKeys, m);
    PrefixesDisjoint(t, p, keys, n, pairKeys, m);
    CutDecides(c, b, keys, n, pairKeys, m);
  }

  lemma PrefixesDisjoint(t: Tracker, p: ProposalValue, keys: seq<Address>, n: nat, pairKeys: seq<Address>, m: nat)
    requires t.voters.Keys !! t.equivocators.Keys
    requires Elements(keys) == LoyalTo(t, p) && Elements(pairKeys) == t.equivocators.Keys
    requires n <= |keys| && m <= |pairKeys|
    ensures Elements(keys[..n]) !! Elements(pairKeys[..m])
  {
    assert Elements(keys[..n]) <= Elements(keys) && Elements(pairKeys[..m]) <= Elements(pairKeys);
  }

  ghost predicate Entries(t: Tracker, b: UnauthenticatedBundle, keys: seq<Address>, n: nat, pairKeys: seq<Address>, m: nat) {
    && |b.votes| == n <= |keys| && |b.pairs| == m <= |pairKeys|
    && (forall i :: 0 <= i < n ==> keys[i] in t.voters && b.votes[i] == VoteAuth(keys[i], t.voters[keys[i]].sig))
    && (forall i :: 0 <= i < m ==> pairKeys[i] in t.equivocators && b.pairs[i] == AuthOf(t.equivocators[pairKeys[i]]))
  }

  lemma EntriesLoyal(t: Tracker, p: ProposalValue, b: UnauthenticatedBundle,
                     keys: seq<Address>, n: nat, pairKeys: seq<Address>, m: nat)
    requires Entries(t, b, keys, n, pairKeys, m) && Elements(keys) == LoyalTo(t, p)
    ensures forall i :: 0 <= i < n ==> b.votes[i].sender in LoyalTo(t, p)
  {
    forall i | 0 <= i < n ensures b.votes[i].sender in LoyalTo(t, p) {
      assert keys[i] in Elements(keys);
    }
  }

  lemma SelectionProves(c: Committee, t: Tracker, p: ProposalValue, b: UnauthenticatedBundle,
                        keys: seq<Address>, n: nat, pairKeys: seq<Address>, m: nat)
    requires c.threshold > 0 && Consistent(c, t) && p in OverSet(c, t)
    requires Selection(c, t, p, keys, n, pairKeys, m)
    requires b.For(c) && b.proposal == p && Entries(t, b, keys, n, pairKeys, m)
    ensures Proves(c, t, p, b)
  {
    EntriesLoyal(t, p, b, keys, n, pairKeys, m);
    SelectionDistinct(c, t, p, b, keys, n, pairKeys, m);
    SelectionWeights(c, t, p, b, keys, n, pairKeys, m);
  }

  /** No smaller set of the value's own voters is a quorum. */
  lemma CutSmallest(c: Committee, keys: seq<Address>, n: nat, some: set<Address>)
    requires Descending(c.weight, keys) && n <= |keys|
    requires n > 0 ==> !c.Quorum(Weigh(c.weight, Elements(keys[..n - 1])))
    requires some <= Elements(keys) && c.Quorum(Weigh(c.weight, some))
    ensures n <= |some|
  {
    if |some| < n { LightCut(c.weight, keys, n - 1, some, c.threshold); }
  }

  lemma LightCut(w: Address -> nat, keys: seq<Address>, k: nat, some: set<Address>, threshold: nat)
    requires Descending(w, keys) && k <= |keys| && some <= Elements(keys) && |some| <= k
    requires Weigh(w, Elements(keys[..k])) < threshold
    ensures Weigh(w, some) < threshold
  {
    FirstWeighMost(w, keys, k, some);
  }

  ghost predicate Holds(c: Committee, t: Tracker, p: ProposalValue,
                        keys: seq<Address>, votes: seq<Vote>, pairKeys: seq<Address>, pairs: seq<EquivocationVote>)
  {
    && Descending(c.weight, keys) && Descending(c.weight, pairKeys)
    && Elements(keys) == LoyalTo(t, p) && Elements(pairKeys) == t.equivocators.Keys
    && |votes| == |keys| && |pairs| == |pairKeys|
    && (forall i :: 0 <= i < |keys| ==> keys[i] in t.voters && votes[i] == t.voters[keys[i]])
    && (forall i :: 0 <= i < |pairKeys| ==> pairKeys[i] in t.equivocators && pairs[i] == t.equivocators[pairKeys[i]])
  }

  lemma HeldWeights(c: Committee, t: Tracker, p: ProposalValue,
                    keys: seq<Address>, votes: seq<Vote>, pairKeys: seq<Address>, pairs: seq<EquivocationVote>)
    requires Votes(c, t) && Holds(c, t, p, keys, votes, pairKeys, pairs)
    ensures forall i :: 0 <= i < |keys| ==> VoteWeights(votes)[i] == c.weight(keys[i])
    ensures forall i :: 0 <= i < |pairKeys| ==> PairWeights(pairs)[i] == c.weight(pairKeys[i])
  {
    forall i | 0 <= i < |pairKeys| ensures PairWeights(pairs)[i] == c.weight(pairKeys[i]) {
      assert c.GenuinePair(t.equivocators[pairKeys[i]]);
    }
  }

  /** A cut of one list reaches the quorum or takes everything, and one less would not reach it. */
  lemma CutPart(c: Committee, start: nat, keys: seq<Address>, ws: seq<nat>, n: nat)
    requires n == Cutoff(c.threshold, start, ws) <= |ws| == |keys|
    requires Descending(c.weight, keys) && forall i :: 0 <= i < |ws| ==> ws[i] == c.weight(keys[i])
    ensures Sum(ws[..n]) == Weigh(c.weight, Elements(keys[..n]))
    ensures n == |keys| || c.Quorum(start + Weigh(c.weight, Elements(keys[..n])))
    ensures n > 0 ==> !c.Quorum(start + Weigh(c.weight, Elements(keys[..n - 1])))
  {
    CutoffLeast(c.threshold, start, ws, n);
    SumWeighs(c.weight, keys, ws, n);
    if n > 0 {
      CutoffLeast(c.threshold, start, ws, n - 1);
      SumWeighs(c.weight, keys, ws, n - 1);
    }
  }

  /** The parts of a selection that are about weights. */
  ghost predicate Cuts(c: Committee, keys: seq<Address>, n: nat, pairKeys: seq<Address>, m: nat) {
    && n <= |keys| && m <= |pairKeys|
    && (n == |keys| || c.Quorum(Weigh(c.weight, Elements(keys[..n]))))
    && (n > 0 ==> !c.Quorum(Weigh(c.weight, Elements(keys[..n - 1]))))
    && (m == |pairKeys| || c.Quorum(Weigh(c.weight, Elements(keys[..n])) + Weigh(c.weight, Elements(pairKeys[..m]))))
    && (m > 0 ==> !c.Quorum(Weigh(c.weight, Elements(keys[..n])) + Weigh(c.weight, Elements(pairKeys[..m - 1]))))
  }

  lemma CutsFrom(c: Committee, keys: seq<Address>, n: nat, pairKeys: seq<Address>, m: nat, start: nat)
    requires n <= |keys| && m <= |pairKeys| && start == Weigh(c.weight, Elements(keys[..n]))
    requires n == |keys| || c.Quorum(0 + start)
    requires n > 0 ==> !c.Quorum(0 + Weigh(c.weight, Elements(keys[..n - 1])))
    requires m == |pairKeys| || c.Quorum(start + Weigh(c.weight, Elements(pairKeys[..m])))
    requires m > 0 ==> !c.Quorum(start + Weigh(c.weight, Elements(pairKeys[..m - 1])))
    ensures Cuts(c, keys, n, pairKeys, m)
  {
  }

  lemma CutBoth(c: Committee, keys: seq<Address>, ws: seq<nat>, n: nat, pairKeys: seq<Address>, ps: seq<nat>, m: nat, start: nat)
    requires n == Cutoff(c.threshold, 0, ws) <= |ws| == |keys| && start == Sum(ws[..n])
    requires m == Cutoff(c.threshold, start, ps) <= |ps| == |pairKeys|
    requires Descending(c.weight, keys) && forall i :: 0 <= i < |ws| ==> ws[i] == c.weight(keys[i])
    requires Descending(c.weight, pairKeys) && forall i :: 0 <= i < |ps| ==> ps[i] == c.weight(pairKeys[i])
    ensures Cuts(c, keys, n, pairKeys, m)
    ensures start == Weigh(c.weight, Elements(keys[..n])) && Sum(ps[..m]) == Weigh(c.weight, Elements(pairKeys[..m]))
  {
    CutPart(c, 0, keys, ws, n);
    CutPart(c, start, pairKeys, ps, m);
    CutsFrom(c, keys, n, pairKeys, m, start);
  }

  lemma CutsSelect(c: Committee, t: Tracker, p: ProposalValue,
                   keys: seq<Address>, votes: seq<Vote>, n: nat,
                   pairKeys: seq<Address>, pairs: seq<EquivocationVote>, m: nat)
    requires Votes(c, t) && Holds(c, t, p, keys, votes, pairKeys, pairs)
    requires n == Cutoff(c.threshold, 0, VoteWeights(votes)) <= |votes|
    requires m == Cutoff(c.threshold, Sum(VoteWeights(votes)[..n]), PairWeights(pairs)) <= |pairs|
    ensures Selection(c, t, p, keys, n, pairKeys, m)
    ensures Sum(VoteWeights(votes)[..n]) == Weigh(c.weight, Elements(keys[..n]))
    ensures Sum(PairWeights(pairs)[..m]) == Weigh(c.weight, Elements(pairKeys[..m]))
  {
    HeldWeights(c, t, p, keys, votes, pairKeys, pairs);
    CutBoth(c, keys, VoteWeights(votes), n, pairKeys, PairWeights(pairs), m, Sum(VoteWeights(votes)[..n]));
  }

  /** Cutting the cut slices again keeps all of them. */
  lemma CutsAgain(c: Committee, votes: seq<Vote>, n: nat, pairs: seq<EquivocationVote>, m: nat)
    requires n == Cutoff(c.threshold, 0, VoteWeights(votes)) <= |votes|
    requires m == Cutoff(c.threshold, Sum(VoteWeights(votes)[..n]), PairWeights(pairs)) <= |pairs|
    ensures Cutoff(c.threshold, 0, VoteWeights(votes[..n])) == n
    ensures Sum(VoteWeights(votes[..n])[..n]) == Sum(VoteWeights(votes)[..n])
    ensures Cutoff(c.threshold, Sum(VoteWeights(votes)[..n]), PairWeights(pairs[..m])) == m
    ensures Sum(PairWeights(pairs[..m])[..m]) == Sum(PairWeights(pairs)[..m])
  {
    assert VoteWeights(votes[..n]) == VoteWeights(votes)[..n];
    assert VoteWeights(votes[..n])[..n] == VoteWeights(votes)[..n];
    assert PairWeights(pairs[..m]) == PairWeights(pairs)[..m];
    assert PairWeights(pairs[..m])[..m] == PairWeights(pairs)[..m];
    CutoffAgain(c.threshold, 0, VoteWeights(votes), n);
    CutoffAgain(c.threshold, Sum(VoteWeights(votes)[..n]), PairWeights(pairs), m);
  }

  /** What the cut slices offer makes a bundle: none of its panics fires. */
  lemma CutsMake(c: Committee, t: Tracker, p: ProposalValue,
                 keys: seq<Address>, votes: seq<Vote>, n: nat,
                 pairKeys: seq<Address>, pairs: seq<EquivocationVote>, m: nat)
    requires c.threshold > 0 && Consistent(c, t) && p in OverSet(c, t)
    requires Holds(c, t, p, keys, votes, pairKeys, pairs)
    requires n == Cutoff(c.threshold, 0, VoteWeights(votes)) <= |votes|
    requires m == Cutoff(c.threshold, Sum(VoteWeights(votes)[..n]), PairWeights(pairs)) <= |pairs|
    ensures n > 0
    ensures c.Quorum(Sum(VoteWeights(votes)[..n]) + Sum(PairWeights(pairs)[..m]))
    ensures forall i :: 0 <= i < n ==> votes[i].r.proposal == p
  {
    CutsSelect(c, t, p, keys, votes, n, pairKeys, pairs, m);
    SelectionReaches(c, t, p, keys, n, pairKeys, m);
    forall i | 0 <= i < n ensures votes[i].r.proposal == p {
      assert keys[i] in Elements(keys);
    }
  }

  lemma MadeEntries(c: Committee, t: Tracker, p: ProposalValue, b: UnauthenticatedBundle,
                    keys: seq<Address>, votes: seq<Vote>, n: nat,
                    pairKeys: seq<Address>, pairs: seq<EquivocationVote>, m: nat)
    requires Votes(c, t) && Holds(c, t, p, keys, votes, pairKeys, pairs) && 0 < n <= |votes| && m <= |pairs|
    requires b == UnauthenticatedBundle(votes[0].r.round, votes[0].r.period, votes[0].r.step, p,
                                        VoteAuths(votes[..n]), PairAuths(pairs[..m]))
    ensures b.For(c) && Entries(t, b, keys, n, pairKeys, m)
  {
    assert c.Genuine(t.voters[keys[0]]);
    forall i | 0 <= i < n ensures b.votes[i] == VoteAuth(keys[i], t.voters[keys[i]].sig) {
      assert c.Genuine(t.voters[keys[i]]);
    }
  }

  lemma CutsProve(c: Committee, t: Tracker, p: ProposalValue, b: UnauthenticatedBundle,
                  keys: seq<Address>, votes: seq<Vote>, n: nat,
                  pairKeys: seq<Address>, pairs: seq<EquivocationVote>, m: nat)
    requires c.threshold > 0 && Consistent(c, t) && p in OverSet(c, t)
    requires Holds(c, t, p, keys, votes, pairKeys, pairs)
    requires 0 < n == Cutoff(c.threshold, 0, VoteWeights(votes)) <= |votes|
    requires m == Cutoff(c.threshold, Sum(VoteWeights(votes)[..n]), PairWeights(pairs)) <= |pairs|
    requires b == UnauthenticatedBundle(votes[0].r.round, votes[0].r.period, votes[0].r.step, p,
                                        VoteAuths(votes[..n]), PairAuths(pairs[..m]))
    ensures Proves(c, t, p, b)
    ensures forall some: set<Address> :: some <= LoyalTo(t, p) && c.Quorum(Weigh(c.weight, some)) ==> |b.votes| <= |some|
  {
    CutsSelect(c, t, p, keys, votes, n, pairKeys, pairs, m);
    MadeEntries(c, t, p, b, keys, votes, n, pairKeys, pairs, m);
    SelectionProves(c, t, p, b, keys, n, pairKeys, m);
    forall some: set<Address> | some <= LoyalTo(t, p) && c.Quorum(Weigh(c.weight, some)) ensures |b.votes| <= |some| {
      CutSmallest(c, keys, n, some);
    }
  }

  /** Cuts both slices at a quorum, then makes the bundle. */
  method Cut(c: Committee, votes: seq<Vote>, pairs: seq<EquivocationVote>) returns (r: Option<UnauthenticatedBundle>)
    ensures 0 <= VotesTaken(c, votes) <= |votes| && 0 <= PairsTaken(c, votes, pairs) <= |pairs|
    ensures var n, m := VotesTaken(c, votes), PairsTaken(c, votes, pairs);
            n > 0 && (forall i :: 0 <= i < n ==> votes[i].r.proposal == votes[0].r.proposal)
            && c.Quorum(Sum(VoteWeights(votes)[..n]) + Sum(PairWeights(pairs)[..m])) ==>
              r == Some(UnauthenticatedBundle(votes[0].r.round, votes[0].r.period, votes[0].r.step, votes[0].r.proposal,
                                              VoteAuths(votes[..n]), PairAuths(pairs[..m])))
  {
    var n, weight := CutAt(c, 0, VoteWeights(votes));
    var m, total := CutAt(c, weight, PairWeights(pairs));
    if n == 0 { return None; }
    CutsAgain(c, votes, n, pairs, m);
    r := MakeBundle(c, votes[0].r.proposal, votes[..n], pairs[..m]);
    assert votes[..n][..n] == votes[..n] && pairs[..m][..m] == pairs[..m];
  }

  // ---------------------------------------------------------------- the tracker

  datatype Over = NoValue | OneValue(value: ProposalValue) | ManyValues

  ghost predicate OverIs(s: set<ProposalValue>, r: Over) {
    match r
    case NoValue => s == {}
    case OneValue(p) => s == {p}
    case ManyValues => Several(s)
  }

  class VoteTracker {
    var voters: map<Address, Vote>
    var counts: map<ProposalValue, Counter>
    var equivocators: map<Address, EquivocationVote>
    var equivocatorsCount: nat

    constructor ()
      ensures Model() == EMPTY
    {
      voters, counts, equivocators, equivocatorsCount := map[], map[], map[], 0;
    }

    ghost function Model(): Tracker
      reads this
    {
      Tracker(voters, counts, equivocators, equivocatorsCount)
    }

    method CountOf(p: ProposalValue) returns (n: nat)
      ensures n == Count(Model(), p)
    {
      n := (if p in counts then counts[p].count else 0) + equivocatorsCount;
    }

    /** Looks at the counted values in any order. */
    method OverThreshold(c: Committee) returns (r: Over)
      ensures OverIs(OverSet(c, Model()), r)
    {
      var rest := counts.Keys;
      r := NoValue;
      while rest != {}
        invariant rest <= counts.Keys
        invariant !r.ManyValues? && OverIs(OverSet(c, Model()) - rest, r)
        decreases |rest|
      {
        var p :| p in rest;
        var n := CountOf(p);
        if c.Quorum(n) {
          if r.OneValue? {
            assert r.value in OverSet(c, Model()) && p in OverSet(c, Model());
            return ManyValues;
          }
          r := OneValue(p);
        }
        rest := rest - {p};
      }
      assert OverSet(c, Model()) - rest == OverSet(c, Model());
    }

    method RecordVote(v: Vote)
      modifies this
      ensures Model() == Record(old(Model()), v)
    {
      voters := voters[v.r.sender := v];
      var k := if v.r.proposal in counts then counts[v.r.proposal] else Counter(0, map[]);
      counts := counts[v.r.proposal := Counter(k.count + v.weight, k.votes[v.r.sender := v])];
    }

    method WithdrawVote(prior: Vote, sender: Address)
      modifies this`counts
      ensures counts == Withdraw(old(counts), prior, sender)
    {
      var q := prior.r.proposal;
      var k := if q in counts then counts[q] else Counter(0, map[]);
      if k.count <= prior.weight {
        counts := counts - {q};
      } else {
        counts := counts[q := Counter(k.count - prior.weight, k.votes - {sender})];
      }
    }

    method Decide(c: Committee, before: Over, ghost prior: Tracker) returns (out: Outcome)
      requires OverIs(OverSet(c, prior), before) && !before.ManyValues?
      ensures out == Announce(c, prior, Model())
    {
      var after := OverThreshold(c);
      if after.OneValue? {
        assert after.value in OverSet(c, Model());
      }
      if before.OneValue? {
        assert before.value in OverSet(c, prior);
      }
      out := if after.ManyValues? then SeveralValues
             else if before.OneValue? || after.NoValue? then NoEvent
             else Reached(after.value);
    }

    /** One accepted vote. */
    method Handle(c: Committee, v: Vote) returns (out: Outcome)
      modifies this
      ensures Model() == Next(c, old(Model()), v).0
      ensures out == Next(c, old(Model()), v).1
    {
      var sender := v.r.sender;
      if sender in equivocators { return NoEvent; }
      var before := OverThreshold(c);
      if before.ManyValues? { return SeveralValues; }
      assert !Several(OverSet(c, Model()));
      if sender !in voters {
        RecordVote(v);
      } else {
        var prior := voters[sender];
        if prior.r.proposal == v.r.proposal { return NoEvent; }
        equivocatorsCount := equivocatorsCount + v.weight;
        if c.Quorum(equivocatorsCount) { return TooManyEquivocators; }
        WithdrawVote(prior, sender);
        equivocators := equivocators[sender := PairOf(prior, v)];
        voters := voters - {sender};
        if |voters| == 0 { return NoEvent; }
      }
      out := Decide(c, before, old(Model()));
    }

    /** The bundle for a value over threshold: the heaviest votes first, then the
        heaviest equivocators, as few as reach a quorum. */
    method GenBundle(c: Committee, p: ProposalValue) returns (b: UnauthenticatedBundle)
      requires c.threshold > 0 && Consistent(c, Model()) && p in OverSet(c, Model())
      ensures Proves(c, Model(), p, b)
      ensures forall some: set<Address> :: some <= LoyalTo(Model(), p) && c.Quorum(Weigh(c.weight, some)) ==> |b.votes| <= |some|
    {
      ghost var t := Model();
      assert CountsExact(c, t, p);
      var held, twice := counts[p].votes, equivocators;
      var keys := SortedKeys(c.weight, held.Keys);
      var pairKeys := SortedKeys(c.weight, twice.Keys);
      var votes := seq(|keys|, i requires 0 <= i < |keys| && keys[i] in held => held[keys[i]]);
      var pairs := seq(|pairKeys|, i requires 0 <= i < |pairKeys| && pairKeys[i] in twice => twice[pairKeys[i]]);
      forall i | 0 <= i < |keys| ensures keys[i] in t.voters && votes[i] == t.voters[keys[i]] {
        assert keys[i] in keys;
      }
      assert Elements(keys) == LoyalTo(t, p);
      assert Holds(c, t, p, keys, votes, pairKeys, pairs);
      var r := Cut(c, votes, pairs);
      CutsMake(c, t, p, keys, votes, VotesTaken(c, votes), pairKeys, pairs, PairsTaken(c, votes, pairs));
      b := r.value;
      CutsProve(c, t, p, b, keys, votes, VotesTaken(c, votes), pairKeys, pairs, PairsTaken(c, votes, pairs));
    }

    /** One accepted vote and, if it completes a quorum, the bundle that proves it.
        s is what the tracker has seen. */
    method Accept(c: Committee, v: Vote, ghost s: set<Ballot>) returns (out: Outcome, b: Option<UnauthenticatedBundle>)
      requires c.threshold > 0 && c.Genuine(v)
      requires Consistent(c, Model()) && Saw(Model(), s) && !Broken(c, s)
      modifies this
      ensures Model() == Next(c, old(Model()), v).0 && out == Next(c, old(Model()), v).1
      ensures out.Reached? <==> b.Some?
      ensures b.Some? ==> Proves(c, Model(), out.proposal, b.value)
    {
      NextExact(c, Model(), s, v);
      out := Handle(c, v);
      b := None;
      if out.Reached? {
        CountIsSupport(c, Model(), s + {BallotOf(v)}, out.proposal);
        var u := GenBundle(c, out.proposal);
        b := Some(u);
      }
    }
  }

  // ---------------------------------------------------------------- verification

  /** The two duplicate checks of verification. */
  method CheckDistinct(b: UnauthenticatedBundle) returns (ok: bool)
    ensures ok <==> b.Distinct()
  {
    var voters: set<Address> := {};
    for i := 0 to b.Size()
      invariant voters == SendersUpTo(b, i)
      invariant forall j, k :: 0 <= j < k < i ==> b.SenderAt(j) != b.SenderAt(k)
    {
      if b.SenderAt(i) in voters {
        var j :| 0 <= j < i && b.SenderAt(j) == b.SenderAt(i);
        return false;
      }
      SendersUpToNext(b, i);
      voters := voters + {b.SenderAt(i)};
    }
    ok := true;
  }

  function Below(n: nat): (s: set<nat>)
    ensures forall i :: i in s <==> 0 <= i < n
    ensures |s| == n
  {
    if n == 0 then {} else Below(n - 1) + {n - 1}
  }

  /** The senders of the votes, and of the pairs, whose checks have completed. */
  ghost function VoteSenders(b: UnauthenticatedBundle, pending: set<nat>): set<Address> {
    set i | 0 <= i < |b.votes| && i !in pending :: b.votes[i].sender
  }

  ghost function PairSenders(b: UnauthenticatedBundle, pending: set<nat>): set<Address> {
    set i | 0 <= i < |b.pairs| && i !in pending :: b.pairs[i].sender
  }

  lemma VoteDone(c: Committee, b: UnauthenticatedBundle, pending: set<nat>, i: nat)
    requires b.Distinct() && i in pending && i < |b.votes|
    ensures Weigh(c.weight, VoteSenders(b, pending - {i})) == Weigh(c.weight, VoteSenders(b, pending)) + c.weight(b.votes[i].sender)
  {
    assert VoteSenders(b, pending - {i}) == VoteSenders(b, pending) + {b.votes[i].sender};
    forall j | 0 <= j < |b.votes| && j != i ensures b.votes[j].sender != b.votes[i].sender {
      assert b.SenderAt(j) != b.SenderAt(i) by { assert j < i || i < j; }
    }
    WeighAdd(c.weight, VoteSenders(b, pending), b.votes[i].sender);
  }

  lemma PairDone(c: Committee, b: UnauthenticatedBundle, pending: set<nat>, i: nat)
    requires b.Distinct() && i in pending && i < |b.pairs|
    ensures Weigh(c.weight, PairSenders(b, pending - {i})) == Weigh(c.weight, PairSenders(b, pending)) + c.weight(b.pairs[i].sender)
  {
    assert PairSenders(b, pending - {i}) == PairSenders(b, pending) + {b.pairs[i].sender};
    forall j | 0 <= j < |b.pairs| && j != i ensures b.pairs[j].sender != b.pairs[i].sender {
      assert b.SenderAt(|b.votes| + j) != b.SenderAt(|b.votes| + i) by { assert j < i || i < j; }
    }
    WeighAdd(c.weight, PairSenders(b, pending), b.pairs[i].sender);
  }

  lemma AllDone(c: Committee, b: UnauthenticatedBundle)
    requires b.Distinct()
    ensures BundleWeight(c, b) == Weigh(c.weight, VoteSenders(b, {})) + Weigh(c.weight, PairSenders(b, {}))
  {
    forall i, j | 0 <= i < |b.votes| && 0 <= j < |b.pairs| ensures b.votes[i].sender != b.pairs[j].sender {
      assert b.SenderAt(i) != b.SenderAt(|b.votes| + j);
    }
    WeighDisjoint(c.weight, VoteSenders(b, {}), PairSenders(b, {}));
    forall a | a in SendersUpTo(b, b.Size()) ensures a in VoteSenders(b, {}) + PairSenders(b, {}) {
      var i :| 0 <= i < b.Size() && a == b.SenderAt(i);
      if i >= |b.votes| {
        assert b.pairs[i - |b.votes|].sender == a;
      }
    }
    forall a | a in VoteSenders(b, {}) ensures a in SendersUpTo(b, b.Size()) {
      var i :| 0 <= i < |b.votes| && a == b.votes[i].sender;
      assert b.SenderAt(i) == a;
    }
    forall a | a in PairSenders(b, {}) ensures a in SendersUpTo(b, b.Size()) {
      var i :| 0 <= i < |b.pairs| && a == b.pairs[i].sender;
      assert b.SenderAt(|b.votes| + i) == a;
    }
    assert SendersUpTo(b, b.Size()) == VoteSenders(b, {}) + PairSenders(b, {});
  }

  predicate IsVoteOf(c: Committee, b: UnauthenticatedBundle, v: Vote) {
    exists i :: 0 <= i < |b.votes| && v == b.VoteAt(c, i)
  }

  predicate IsPairOf(c: Committee, b: UnauthenticatedBundle, e: EquivocationVote) {
    exists i :: 0 <= i < |b.pairs| && e == b.PairAt(c, i)
  }

  /** Reads the results of the vote checks, in whatever order they complete. */
  method CollectVotes(c: Committee, b: UnauthenticatedBundle) returns (ok: bool, votes: seq<Vote>, weight: nat)
    requires b.Distinct()
    ensures ok <==> forall i :: 0 <= i < |b.votes| ==> c.Genuine(b.VoteAt(c, i))
    ensures ok ==> weight == Weigh(c.weight, VoteSenders(b, {})) && |votes| == |b.votes|
    ensures ok ==> forall i :: 0 <= i < |b.votes| ==> b.VoteAt(c, i) in votes
    ensures ok ==> forall x :: x in votes ==> IsVoteOf(c, b, x)
  {
    var pending := Below(|b.votes|);
    votes, weight := [], 0;
    assert VoteSenders(b, pending) == {};
    while pending != {}
      invariant pending <= Below(|b.votes|) && |votes| + |pending| == |b.votes|
      invariant forall i :: 0 <= i < |b.votes| && i !in pending ==> c.Genuine(b.VoteAt(c, i)) && b.VoteAt(c, i) in votes
      invariant forall x :: x in votes ==> IsVoteOf(c, b, x)
      invariant weight == Weigh(c.weight, VoteSenders(b, pending))
      decreases |pending|
    {
      var i :| i in pending;
      var v := b.VoteAt(c, i);
      if !c.Genuine(v) { return false, votes, weight; }
      VoteDone(c, b, pending, i);
      assert IsVoteOf(c, b, v);
      votes, weight, pending := votes + [v], weight + v.weight, pending - {i};
    }
    ok := true;
  }

  method CollectPairs(c: Committee, b: UnauthenticatedBundle) returns (ok: bool, pairs: seq<EquivocationVote>, weight: nat)
    requires b.Distinct()
    ensures ok <==> forall i :: 0 <= i < |b.pairs| ==> c.GenuinePair(b.PairAt(c, i))
    ensures ok ==> weight == Weigh(c.weight, PairSenders(b, {})) && |pairs| == |b.pairs|
    ensures ok ==> forall i :: 0 <= i < |b.pairs| ==> b.PairAt(c, i) in pairs
    ensures ok ==> forall x :: x in pairs ==> IsPairOf(c, b, x)
  {
    var pending := Below(|b.pairs|);
    pairs, weight := [], 0;
    assert PairSenders(b, pending) == {};
    while pending != {}
      invariant pending <= Below(|b.pairs|) && |pairs| + |pending| == |b.pairs|
      invariant forall i :: 0 <= i < |b.pairs| && i !in pending ==> c.GenuinePair(b.PairAt(c, i)) && b.PairAt(c, i) in pairs
      invariant forall x :: x in pairs ==> IsPairOf(c, b, x)
      invariant weight == Weigh(c.weight, PairSenders(b, pending))
      decreases |pending|
    {
      var i :| i in pending;
      var e := b.PairAt(c, i);
      if !c.GenuinePair(e) { return false, pairs, weight; }
      PairDone(c, b, pending, i);
      assert IsPairOf(c, b, e);
      pairs, weight, pending := pairs + [e], weight + e.weight, pending - {i};
    }
    ok := true;
  }

  /** Verification of a bundle; None stands for every error. */
  method Verify(c: Committee, b: UnauthenticatedBundle) returns (r: Option<Bundle>)
    requires b.For(c)
    ensures r.Some? <==> Acceptable(c, b)
    ensures r.Some? ==> Authenticates(c, b, r.value)
  {
    if b.step == PROPOSE { return None; }
    if |b.votes| > c.threshold || |b.pairs| > c.threshold || |b.votes| + |b.pairs| > c.threshold { return None; }
    var distinct := CheckDistinct(b);
    if !distinct { return None; }
    var votesOk, votes, voteWeight := CollectVotes(c, b);
    if !votesOk { return None; }
    var pairsOk, pairs, pairWeight := CollectPairs(c, b);
    if !pairsOk { return None; }
    AllDone(c, b);
    if !c.Quorum(voteWeight + pairWeight) { return None; }
    r := Some(Bundle(b, votes, pairs));
  }

  // ---------------------------------------------------------------- replay

  /** The votes of a bundle, each pair as its two votes. */
  method Unpack(b: Bundle) returns (votes: seq<Vote>)
    ensures votes == Replayed(b)
  {
    votes := b.votes;
    for k := 0 to |b.pairs|
      invariant votes + Flatten(b.pairs[k..]) == Replayed(b)
    {
      votes := votes + [b.pairs[k].V0(), b.pairs[k].V1()];
    }
    assert b.pairs[|b.pairs|..] == [];
  }

  /** The aggregator's replay of a verified bundle: every vote is played, so that no
      equivocation pair is cut in half; the last announced value, if any, is returned. */
  method Replay(tracker: VoteTracker, c: Committee, b: Bundle) returns (panicked: bool, announced: seq<ProposalValue>)
    modifies tracker
    ensures panicked <==> Run(c, old(tracker.Model()), Replayed(b)).Halted?
    ensures !panicked ==> Run(c, old(tracker.Model()), Replayed(b)) == Ran(tracker.Model(), announced)
  {
    var votes := Unpack(b);
    panicked, announced := Feed(tracker, c, votes);
  }

  method Feed(tracker: VoteTracker, c: Committee, votes: seq<Vote>) returns (panicked: bool, announced: seq<ProposalValue>)
    modifies tracker
    ensures panicked <==> Run(c, old(tracker.Model()), votes).Halted?
    ensures !panicked ==> Run(c, old(tracker.Model()), votes) == Ran(tracker.Model(), announced)
  {
    announced := [];
    ghost var start := tracker.Model();
    for k := 0 to |votes|
      invariant Run(c, start, votes[..k]) == Ran(tracker.Model(), announced)
    {
      var out := tracker.Handle(c, votes[k]);
      assert votes[..k + 1][..k] == votes[..k];
      if out.Panic() {
        HaltStays(c, start, votes, k + 1);
        return true, announced;
      }
      if out.Reached? { announced := announced + [out.proposal]; }
    }
    assert votes[..|votes|] == votes;
    panicked := false;
  }

  lemma {:induction false} HaltStays(c: Committee, t: Tracker, vs: seq<Vote>, k: nat)
    requires k <= |vs| && Run(c, t, vs[..k]).Halted?
    ensures Run(c, t, vs).Halted?
  {
    if k < |vs| {
      assert vs[..|vs| - 1][..k] == vs[..k];
      HaltStays(c, t, vs[..|vs| - 1], k);
    } else {
      assert vs[..k] == vs;
    }
  }
}
