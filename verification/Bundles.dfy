/** Bundles: the proof of a quorum that a tracker packs, and what verifying and
    replaying one amounts to. */
module Bundles {
  import opened AgreementTypes
  import opened Weights
  import opened VoteTrackers

  datatype VoteAuth = VoteAuth(sender: Address, sig: Signature)

  datatype PairAuth = PairAuth(
    sender: Address,
    proposal0: ProposalValue,
    proposal1: ProposalValue,
    sig0: Signature,
    sig1: Signature)

  datatype UnauthenticatedBundle = UnauthenticatedBundle(
    round: Round,
    period: Period,
    step: Step,
    proposal: ProposalValue,
    votes: seq<VoteAuth>,
    pairs: seq<PairAuth>)
  {
    function Size(): nat { |votes| + |pairs| }

    function SenderAt(i: nat): Address
      requires i < Size()
    {
      if i < |votes| then votes[i].sender else pairs[i - |votes|].sender
    }

    ghost predicate Distinct() {
      forall i, j :: 0 <= i < j < Size() ==> SenderAt(i) != SenderAt(j)
    }

    /** The vote that entry i stands for, with the weight its sender has in c. */
    function VoteAt(c: Committee, i: nat): Vote
      requires i < |votes|
    {
      Vote(RawVote(votes[i].sender, round, period, step, proposal), c.weight(votes[i].sender), votes[i].sig)
    }

    function PairAt(c: Committee, i: nat): EquivocationVote
      requires i < |pairs|
    {
      EquivocationVote(pairs[i].sender, round, period, step, c.weight(pairs[i].sender),
                       pairs[i].proposal0, pairs[i].proposal1, pairs[i].sig0, pairs[i].sig1)
    }

    predicate For(c: Committee) {
      round == c.round && period == c.period && step == c.step
    }
  }

  /** A verified bundle. */
  datatype Bundle = Bundle(
    u: UnauthenticatedBundle,
    votes: seq<Vote>,
    pairs: seq<EquivocationVote>)

  ghost function SendersUpTo(b: UnauthenticatedBundle, n: nat): set<Address>
    requires n <= b.Size()
  {
    set i | 0 <= i < n :: b.SenderAt(i)
  }

  ghost function BundleWeight(c: Committee, b: UnauthenticatedBundle): nat {
    Weigh(c.weight, SendersUpTo(b, b.Size()))
  }

  /** The conditions under which verification accepts a bundle. */
  ghost predicate Acceptable(c: Committee, b: UnauthenticatedBundle) {
    && b.step != PROPOSE
    && b.Size() <= c.threshold
    && b.Distinct()
    && (forall i :: 0 <= i < |b.votes| ==> c.Genuine(b.VoteAt(c, i)))
    && (forall i :: 0 <= i < |b.pairs| ==> c.GenuinePair(b.PairAt(c, i)))
    && c.Quorum(BundleWeight(c, b))
  }

  /** v holds the votes of u, in the order in which their checks completed. */
  ghost predicate Authenticates(c: Committee, u: UnauthenticatedBundle, v: Bundle) {
    && v.u == u
    && |v.votes| == |u.votes| && |v.pairs| == |u.pairs|
    && (forall i :: 0 <= i < |u.votes| ==> u.VoteAt(c, i) in v.votes)
    && (forall i :: 0 <= i < |u.pairs| ==> u.PairAt(c, i) in v.pairs)
    && (forall x :: x in v.votes ==> exists i :: 0 <= i < |u.votes| && x == u.VoteAt(c, i))
    && (forall x :: x in v.pairs ==> exists i :: 0 <= i < |u.pairs| && x == u.PairAt(c, i))
  }

  // ---------------------------------------------------------------- packing

  /** b packs votes for p that the tracker holds: distinct loyal voters and
      equivocators, a quorum of them, and none that could be left off the end. */
  ghost predicate Proves(c: Committee, t: Tracker, p: ProposalValue, b: UnauthenticatedBundle) {
    && b.For(c) && b.proposal == p && b.votes != []
    && b.Distinct()
    && (forall i :: 0 <= i < |b.votes| ==> b.votes[i].sender in LoyalTo(t, p) && b.votes[i].sig == t.voters[b.votes[i].sender].sig)
    && (forall i :: 0 <= i < |b.pairs| ==> b.pairs[i].sender in t.equivocators && b.pairs[i] == AuthOf(t.equivocators[b.pairs[i].sender]))
    && c.Quorum(BundleWeight(c, b))
    && !c.Quorum(Weigh(c.weight, SendersUpTo(b, b.Size() - 1)))
  }

  function AuthOf(e: EquivocationVote): PairAuth {
    PairAuth(e.sender, e.proposal0, e.proposal1, e.sig0, e.sig1)
  }

  lemma SendersUpToNext(b: UnauthenticatedBundle, n: nat)
    requires n < b.Size()
    ensures SendersUpTo(b, n + 1) == SendersUpTo(b, n) + {b.SenderAt(n)}
  {
  }

  lemma {:induction false} SendersCounted(b: UnauthenticatedBundle, n: nat)
    requires n <= b.Size() && b.Distinct()
    ensures |SendersUpTo(b, n)| == n
  {
    if n > 0 {
      SendersCounted(b, n - 1);
      SendersUpToNext(b, n - 1);
      assert b.SenderAt(n - 1) !in SendersUpTo(b, n - 1);
    }
  }

  lemma PackedVotesGenuine(c: Committee, t: Tracker, p: ProposalValue, b: UnauthenticatedBundle)
    requires Consistent(c, t) && Proves(c, t, p, b)
    ensures forall i :: 0 <= i < |b.votes| ==> c.Genuine(b.VoteAt(c, i))
    ensures forall i :: 0 <= i < |b.pairs| ==> c.GenuinePair(b.PairAt(c, i))
  {
    forall i | 0 <= i < |b.votes| ensures c.Genuine(b.VoteAt(c, i)) {
      var a := b.votes[i].sender;
      assert c.Genuine(t.voters[a]);
      assert t.voters[a].r == RawVote(a, c.round, c.period, c.step, p);
    }
    forall i | 0 <= i < |b.pairs| ensures c.GenuinePair(b.PairAt(c, i)) {
      var e := t.equivocators[b.pairs[i].sender];
      assert c.GenuinePair(e);
      assert b.PairAt(c, i).V0() == e.V0() && b.PairAt(c, i).V1() == e.V1();
    }
  }

  lemma PositiveSenders(c: Committee, b: UnauthenticatedBundle, n: nat)
    requires n <= b.Size()
    requires forall i :: 0 <= i < |b.votes| ==> c.Genuine(b.VoteAt(c, i))
    requires forall i :: 0 <= i < |b.pairs| ==> c.GenuinePair(b.PairAt(c, i))
    ensures forall a :: a in SendersUpTo(b, n) ==> c.weight(a) > 0
  {
    forall a | a in SendersUpTo(b, n) ensures c.weight(a) > 0 {
      var i :| 0 <= i < n && a == b.SenderAt(i);
      if i < |b.votes| {
        assert c.Genuine(b.VoteAt(c, i));
      } else {
        assert c.GenuinePair(b.PairAt(c, i - |b.votes|));
      }
    }
  }

  lemma SmallEnough(c: Committee, b: UnauthenticatedBundle)
    requires b.Distinct() && b.Size() > 0 && !c.Quorum(Weigh(c.weight, SendersUpTo(b, b.Size() - 1)))
    requires forall a :: a in SendersUpTo(b, b.Size() - 1) ==> c.weight(a) > 0
    ensures b.Size() <= c.threshold
  {
    SendersCounted(b, b.Size() - 1);
    WeighAtLeastSize(c.weight, SendersUpTo(b, b.Size() - 1));
  }

  /** A bundle that a tracker packs is small enough, and verification accepts it. */
  lemma PackedAccepted(c: Committee, t: Tracker, p: ProposalValue, b: UnauthenticatedBundle)
    requires c.step != PROPOSE && c.threshold > 0
    requires Consistent(c, t) && Proves(c, t, p, b)
    ensures Acceptable(c, b)
  {
    PackedVotesGenuine(c, t, p, b);
    PositiveSenders(c, b, b.Size() - 1);
    SmallEnough(c, b);
  }

  // ---------------------------------------------------------------- replaying

  function Flatten(pairs: seq<EquivocationVote>): seq<Vote> {
    if pairs == [] then [] else [pairs[0].V0(), pairs[0].V1()] + Flatten(pairs[1..])
  }

  /** The votes that the aggregator feeds to the tracker for a verified bundle. */
  function Replayed(b: Bundle): seq<Vote> {
    b.votes + Flatten(b.pairs)
  }

  lemma {:induction false} FlattenHas(pairs: seq<EquivocationVote>, v: Vote)
    ensures v in Flatten(pairs) <==> exists e :: e in pairs && (v == e.V0() || v == e.V1())
  {
    if pairs != [] {
      FlattenHas(pairs[1..], v);
      assert forall e :: e in pairs <==> e == pairs[0] || e in pairs[1..];
    }
  }

  lemma ReplayedGenuine(c: Committee, u: UnauthenticatedBundle, b: Bundle)
    requires Acceptable(c, u) && Authenticates(c, u, b)
    ensures forall v :: v in Replayed(b) ==> c.Genuine(v)
  {
    forall v | v in Replayed(b) ensures c.Genuine(v) {
      if v in b.votes {
        var i :| 0 <= i < |u.votes| && v == u.VoteAt(c, i);
      } else {
        FlattenHas(b.pairs, v);
        var e :| e in b.pairs && (v == e.V0() || v == e.V1());
        var i :| 0 <= i < |u.pairs| && e == u.PairAt(c, i);
      }
    }
  }

  /** Each sender of the bundle ends up vouching for the bundle's value. */
  lemma ReplayedVouch(c: Committee, u: UnauthenticatedBundle, b: Bundle, s: set<Ballot>, i: nat)
    requires Acceptable(c, u) && Authenticates(c, u, b) && i < u.Size()
    requires Ballots(Replayed(b)) <= s
    ensures u.SenderAt(i) in VotersFor(s, u.proposal) + Equivocating(s)
  {
    if i < |u.votes| {
      var v := u.VoteAt(c, i);
      assert v in Replayed(b);
      assert BallotOf(v) in Ballots(Replayed(b));
    } else {
      var e := u.PairAt(c, i - |u.votes|);
      FlattenHas(b.pairs, e.V0());
      FlattenHas(b.pairs, e.V1());
      assert e.V0() in Replayed(b) && e.V1() in Replayed(b);
      assert BallotOf(e.V0()) in Ballots(Replayed(b)) && BallotOf(e.V1()) in Ballots(Replayed(b));
      assert Ballot(e.sender, e.proposal0) in s && Ballot(e.sender, e.proposal1) in s;
    }
  }

  lemma BundleElects(c: Committee, u: UnauthenticatedBundle, b: Bundle, s: set<Ballot>)
    requires c.threshold > 0 && Acceptable(c, u) && Authenticates(c, u, b)
    requires Ballots(Replayed(b)) <= s
    ensures Elected(c, s, u.proposal) || TooManyEquivocate(c, s)
  {
    var d := SendersUpTo(u, u.Size());
    forall a | a in d ensures a in VotersFor(s, u.proposal) + Equivocating(s) {
      var i :| 0 <= i < u.Size() && a == u.SenderAt(i);
      ReplayedVouch(c, u, b, s, i);
    }
    WeighSubset(c.weight, d, VotersFor(s, u.proposal) + Equivocating(s));
    if Loyal(s, u.proposal) == {} {
      forall a | a in VotersFor(s, u.proposal) ensures a in Equivocating(s) { assert a !in Loyal(s, u.proposal); }
      assert VotersFor(s, u.proposal) + Equivocating(s) == Equivocating(s);
    }
  }

  /** Replaying any verified bundle into any tracker of its step, after any votes:
      unless a safety panic fires, the bundle's value is the one value over threshold,
      and it is announced then unless the tracker had announced it before. */
  lemma ReplayReaches(c: Committee, u: UnauthenticatedBundle, b: Bundle, vs: seq<Vote>)
    requires c.threshold > 0 && Acceptable(c, u) && Authenticates(c, u, b)
    requires forall v :: v in vs ==> c.Genuine(v)
    requires Run(c, EMPTY, vs).Ran?
    ensures var r := Run(c, Run(c, EMPTY, vs).tracker, Replayed(b));
            r.Ran? ==>
              && OverSet(c, r.tracker) == {u.proposal}
              && r.announced == (if Run(c, EMPTY, vs).announced == [] then [u.proposal] else [])
              && Run(c, EMPTY, vs).announced + r.announced == [u.proposal]
  {
    EmptyIsConsistent(c);
    RunIsExact(c, EMPTY, {}, vs);
    assert {} + Ballots(vs) == Ballots(vs);
    var t, s := Run(c, EMPTY, vs).tracker, Ballots(vs) + Ballots(Replayed(b));
    ReplayedGenuine(c, u, b);
    RunIsExact(c, t, Ballots(vs), Replayed(b));
    BundleElects(c, u, b, s);
    ReplayMeans(c, Ballots(vs), s, u.proposal, Run(c, EMPTY, vs), Run(c, t, Replayed(b)));
  }

  /** Two runs, the second on top of the first and ending with p elected. */
  lemma ReplayMeans(c: Committee, s: set<Ballot>, s': set<Ballot>, p: ProposalValue, r: Result, r': Result)
    requires Elected(c, s', p) || TooManyEquivocate(c, s')
    requires s <= s' && r.Ran? && RunExactly(c, {}, s, r) && RunExactly(c, s, s', r') && !SomeElected(c, {})
    ensures r'.Ran? ==>
      && OverSet(c, r'.tracker) == {p}
      && r'.announced == (if r.announced == [] then [p] else [])
      && r.announced + r'.announced == [p]
  {
    if r'.Ran? {
      assert Elected(c, s', p);
      OnlyElected(c, r'.tracker, s', p);
      if SomeElected(c, s) { ElectedStays(c, s, s', r.announced[0]); }
    }
  }

  lemma OnlyElected(c: Committee, t: Tracker, s: set<Ballot>, p: ProposalValue)
    requires Consistent(c, t) && Saw(t, s) && !Broken(c, s) && Elected(c, s, p)
    ensures OverSet(c, t) == {p} && forall q :: Elected(c, s, q) ==> q == p
  {
    OverSetIsElected(c, t, s);
  }

  /** The round trip: a bundle packed by one node's tracker is accepted by any other
      node's verification, and replaying it there, after any votes that node has seen,
      leaves the packed value as the one value over threshold or panics. */
  lemma PackedConvinces(c: Committee, t: Tracker, p: ProposalValue, u: UnauthenticatedBundle,
                        b: Bundle, vs: seq<Vote>)
    requires c.step != PROPOSE && c.threshold > 0
    requires Consistent(c, t) && Proves(c, t, p, u)
    requires Authenticates(c, u, b)
    requires forall v :: v in vs ==> c.Genuine(v)
    requires Run(c, EMPTY, vs).Ran?
    ensures Acceptable(c, u)
    ensures var r := Run(c, Run(c, EMPTY, vs).tracker, Replayed(b));
            r.Ran? ==> OverSet(c, r.tracker) == {p}
  {
    PackedAccepted(c, t, p, u);
    ReplayReaches(c, u, b, vs);
  }
}
