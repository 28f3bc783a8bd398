/** The weighted vote counter of one (round, period, step): what one vote does to it,
    and what any run of votes ends in. */
module VoteTrackers {
  import opened AgreementTypes
  import opened Weights

  datatype Counter = Counter(count: nat, votes: map<Address, Vote>)

  datatype Tracker = Tracker(
    voters: map<Address, Vote>,
    counts: map<ProposalValue, Counter>,
    equivocators: map<Address, EquivocationVote>,
    equivocatorsCount: nat)

  const EMPTY := Tracker(map[], map[], map[], 0)

  /** The last two outcomes are the tracker's safety panics. */
  datatype Outcome = NoEvent | Reached(proposal: ProposalValue) | TooManyEquivocators | SeveralValues
  {
    predicate Panic() { TooManyEquivocators? || SeveralValues? }
  }

  // ---------------------------------------------------------------- one vote

  function Count(t: Tracker, p: ProposalValue): nat {
    (if p in t.counts then t.counts[p].count else 0) + t.equivocatorsCount
  }

  function OverSet(c: Committee, t: Tracker): set<ProposalValue> {
    set p | p in t.counts && c.Quorum(Count(t, p))
  }

  ghost predicate Several(s: set<ProposalValue>) {
    exists p, q :: p in s && q in s && p != q
  }

  /** A first vote of its sender. */
  function Record(t: Tracker, v: Vote): Tracker {
    var prior := if v.r.proposal in t.counts then t.counts[v.r.proposal] else Counter(0, map[]);
    t.(voters := t.voters[v.r.sender := v],
       counts := t.counts[v.r.proposal := Counter(prior.count + v.weight, prior.votes[v.r.sender := v])])
  }

  function PairOf(prior: Vote, v: Vote): EquivocationVote {
    EquivocationVote(prior.r.sender, prior.r.round, prior.r.period, prior.r.step, prior.weight,
                     prior.r.proposal, v.r.proposal, prior.sig, v.sig)
  }

  /** The counts once the sender no longer counts for prior's value alone. */
  function Withdraw(counts: map<ProposalValue, Counter>, prior: Vote, sender: Address): map<ProposalValue, Counter> {
    var p := prior.r.proposal;
    var k := if p in counts then counts[p] else Counter(0, map[]);
    if k.count <= prior.weight then counts - {p}
    else counts[p := Counter(k.count - prior.weight, k.votes - {sender})]
  }

  /** A second vote of its sender, for another value. */
  function MarkEquivocator(t: Tracker, v: Vote): Tracker
    requires v.r.sender in t.voters
  {
    var prior := t.voters[v.r.sender];
    Tracker(t.voters - {v.r.sender},
            Withdraw(t.counts, prior, v.r.sender),
            t.equivocators[v.r.sender := PairOf(prior, v)],
            t.equivocatorsCount + v.weight)
  }

  ghost function Announce(c: Committee, before: Tracker, after: Tracker): Outcome {
    var over := OverSet(c, after);
    if Several(over) then SeveralValues
    else if OverSet(c, before) != {} || over == {} then NoEvent
    else var p :| p in over; Reached(p)
  }

  /** What the tracker does with one vote; on a panic, the state it is left in. */
  ghost function Next(c: Committee, t: Tracker, v: Vote): (Tracker, Outcome) {
    if v.r.sender in t.equivocators then (t, NoEvent)
    else if Several(OverSet(c, t)) then (t, SeveralValues)
    else if v.r.sender !in t.voters then
      (Record(t, v), Announce(c, t, Record(t, v)))
    else if t.voters[v.r.sender].r.proposal == v.r.proposal then (t, NoEvent)
    else if c.Quorum(t.equivocatorsCount + v.weight) then
      (t.(equivocatorsCount := t.equivocatorsCount + v.weight), TooManyEquivocators)
    else
      var u := MarkEquivocator(t, v);
      if u.voters == map[] then (u, NoEvent) else (u, Announce(c, t, u))
  }

  /** A run of the tracker: the values it announced, in order. */
  datatype Result = Halted | Ran(tracker: Tracker, announced: seq<ProposalValue>)

  ghost function Run(c: Committee, t: Tracker, vs: seq<Vote>): Result {
    if vs == [] then Ran(t, [])
    else
      match Run(c, t, vs[..|vs| - 1])
      case Halted => Halted
      case Ran(u, announced) =>
        var (u', out) := Next(c, u, vs[|vs| - 1]);
        if out.Panic() then Halted
        else Ran(u', if out.Reached? then announced + [out.proposal] else announced)
  }

  // ---------------------------------------------------------------- the reference
  // What a set of ballots amounts to, without any order.

  /** All that distinguishes two genuine votes of one step. */
  datatype Ballot = Ballot(sender: Address, proposal: ProposalValue)

  function BallotOf(v: Vote): Ballot { Ballot(v.r.sender, v.r.proposal) }

  ghost function Ballots(vs: seq<Vote>): set<Ballot> {
    set v | v in vs :: BallotOf(v)
  }

  ghost function Senders(s: set<Ballot>): set<Address> {
    set b | b in s :: b.sender
  }

  ghost predicate Equivocates(s: set<Ballot>, a: Address) {
    exists p, q :: Ballot(a, p) in s && Ballot(a, q) in s && p != q
  }

  ghost function Equivocating(s: set<Ballot>): set<Address> {
    set a | a in Senders(s) && Equivocates(s, a)
  }

  ghost function VotersFor(s: set<Ballot>, p: ProposalValue): set<Address> {
    set a | a in Senders(s) && Ballot(a, p) in s
  }

  ghost function Loyal(s: set<Ballot>, p: ProposalValue): set<Address> {
    VotersFor(s, p) - Equivocating(s)
  }

  /** The weight that vouches for p: its voters, and every equivocator. */
  ghost function Support(c: Committee, s: set<Ballot>, p: ProposalValue): nat {
    Weigh(c.weight, VotersFor(s, p) + Equivocating(s))
  }

  ghost predicate Elected(c: Committee, s: set<Ballot>, p: ProposalValue) {
    Loyal(s, p) != {} && c.Quorum(Support(c, s, p))
  }

  ghost predicate SeveralElected(c: Committee, s: set<Ballot>) {
    exists p, q :: Elected(c, s, p) && Elected(c, s, q) && p != q
  }

  ghost predicate TooManyEquivocate(c: Committee, s: set<Ballot>) {
    Equivocating(s) != {} && c.Quorum(Weigh(c.weight, Equivocating(s)))
  }

  /** The ballots break the honest-majority assumption within the step. */
  ghost predicate Broken(c: Committee, s: set<Ballot>) {
    TooManyEquivocate(c, s) || SeveralElected(c, s)
  }

  // ---------------------------------------------------------------- the invariant

  ghost function LoyalTo(t: Tracker, p: ProposalValue): set<Address> {
    set a | a in t.voters && t.voters[a].r.proposal == p
  }

  ghost predicate Votes(c: Committee, t: Tracker) {
    && t.voters.Keys !! t.equivocators.Keys
    && (forall a :: a in t.voters ==> t.voters[a].r.sender == a && c.Genuine(t.voters[a]))
    && (forall a :: a in t.equivocators ==> t.equivocators[a].sender == a && c.GenuinePair(t.equivocators[a]))
  }

  ghost predicate CountsExact(c: Committee, t: Tracker, p: ProposalValue) {
    && (p in t.counts <==> LoyalTo(t, p) != {})
    && (p in t.counts ==>
          && t.counts[p].votes == (map a | a in LoyalTo(t, p) :: t.voters[a])
          && t.counts[p].count == Weigh(c.weight, LoyalTo(t, p)))
  }

  /** Every stored sum is the weight of the senders it stands for. */
  ghost predicate Consistent(c: Committee, t: Tracker) {
    && Votes(c, t)
    && (forall p :: CountsExact(c, t, p))
    && t.equivocatorsCount == Weigh(c.weight, t.equivocators.Keys)
  }

  /** The tracker has seen exactly the ballots of s. */
  ghost predicate Saw(t: Tracker, s: set<Ballot>) {
    && t.equivocators.Keys == Equivocating(s)
    && t.voters.Keys == Senders(s) - Equivocating(s)
    && (forall a :: a in t.voters ==> Ballot(a, t.voters[a].r.proposal) in s)
  }

  // ---------------------------------------------------------------- the tracker and the reference agree

  lemma LoyalToIsLoyal(t: Tracker, s: set<Ballot>, p: ProposalValue)
    requires Saw(t, s)
    ensures LoyalTo(t, p) == Loyal(s, p)
  {
    forall a | a in t.voters ensures t.voters[a].r.proposal == p <==> Ballot(a, p) in s {
      assert !Equivocates(s, a);
    }
  }

  /** The stored count of p is the reference support of p. */
  lemma CountIsSupport(c: Committee, t: Tracker, s: set<Ballot>, p: ProposalValue)
    requires Consistent(c, t) && Saw(t, s)
    ensures Count(t, p) == Support(c, s, p)
    ensures p in t.counts <==> Loyal(s, p) != {}
    ensures p in OverSet(c, t) <==> Elected(c, s, p)
  {
    LoyalToIsLoyal(t, s, p);
    assert CountsExact(c, t, p);
    WeighDisjoint(c.weight, Loyal(s, p), Equivocating(s));
    assert Loyal(s, p) + Equivocating(s) == VotersFor(s, p) + Equivocating(s);
  }

  lemma OverSetIsElected(c: Committee, t: Tracker, s: set<Ballot>)
    requires Consistent(c, t) && Saw(t, s)
    ensures forall p :: p in OverSet(c, t) <==> Elected(c, s, p)
    ensures Several(OverSet(c, t)) <==> SeveralElected(c, s)
  {
    forall p ensures p in OverSet(c, t) <==> Elected(c, s, p) {
      CountIsSupport(c, t, s, p);
    }
  }

  // ---------------------------------------------------------------- more ballots

  lemma BallotsGrow(s: set<Ballot>, t: set<Ballot>, p: ProposalValue)
    requires s <= t
    ensures Senders(s) <= Senders(t)
    ensures Equivocating(s) <= Equivocating(t)
    ensures VotersFor(s, p) <= VotersFor(t, p)
  {
  }

  /** More votes never lower the support of a value, whoever turns equivocator. */
  lemma SupportGrows(c: Committee, s: set<Ballot>, t: set<Ballot>, p: ProposalValue)
    requires s <= t
    ensures Support(c, s, p) <= Support(c, t, p)
  {
    BallotsGrow(s, t, p);
    WeighSubset(c.weight, VotersFor(s, p) + Equivocating(s), VotersFor(t, p) + Equivocating(t));
  }

  /** A value once elected stays elected, unless too many voters equivocate. */
  lemma ElectedStays(c: Committee, s: set<Ballot>, t: set<Ballot>, p: ProposalValue)
    requires s <= t && Elected(c, s, p)
    ensures Elected(c, t, p) || TooManyEquivocate(c, t)
  {
    SupportGrows(c, s, t, p);
    BallotsGrow(s, t, p);
    if Loyal(t, p) == {} {
      forall a | a in VotersFor(t, p) ensures a in Equivocating(t) { assert a !in Loyal(t, p); }
      assert VotersFor(t, p) + Equivocating(t) == Equivocating(t);
    }
  }

  lemma BrokenStays(c: Committee, s: set<Ballot>, t: set<Ballot>)
    requires s <= t && Broken(c, s)
    ensures Broken(c, t)
  {
    BallotsGrow(s, t, BOTTOM);
    WeighSubset(c.weight, Equivocating(s), Equivocating(t));
    if SeveralElected(c, s) {
      var p, q :| Elected(c, s, p) && Elected(c, s, q) && p != q;
      ElectedStays(c, s, t, p);
      ElectedStays(c, s, t, q);
    }
  }

  lemma EquivocatesAdd(s: set<Ballot>, b: Ballot, a: Address)
    ensures Equivocates(s + {b}, a) <==>
            Equivocates(s, a) || (a == b.sender && exists p :: Ballot(a, p) in s && p != b.proposal)
  {
    if Equivocates(s + {b}, a) && !Equivocates(s, a) {
      var p, q :| Ballot(a, p) in s + {b} && Ballot(a, q) in s + {b} && p != q;
      assert Ballot(a, p) in s || Ballot(a, q) in s;
    }
    if p :| a == b.sender && Ballot(a, p) in s && p != b.proposal {
      assert Ballot(a, p) in s + {b} && Ballot(a, b.proposal) in s + {b};
    }
  }

  // ---------------------------------------------------------------- one vote keeps the invariant

  lemma RecordKeepsOwn(c: Committee, t: Tracker, v: Vote, p: ProposalValue)
    requires Votes(c, t) && CountsExact(c, t, p) && c.Genuine(v) && v.r.sender !in t.voters && p == v.r.proposal
    ensures CountsExact(c, Record(t, v), p)
  {
    RecordedVotes(t, v);
    WeighAdd(c.weight, LoyalTo(t, p), v.r.sender);
    if p !in t.counts { assert LoyalTo(t, p) == {}; }
  }

  lemma RecordedVotes(t: Tracker, v: Vote)
    requires v.r.sender !in t.voters
    ensures var u, p := Record(t, v), v.r.proposal;
      && LoyalTo(u, p) == LoyalTo(t, p) + {v.r.sender}
      && (map a | a in LoyalTo(u, p) :: u.voters[a]) == (map a | a in LoyalTo(t, p) :: t.voters[a])[v.r.sender := v]
  {
  }

  lemma RecordKeepsOther(c: Committee, t: Tracker, v: Vote, p: ProposalValue)
    requires CountsExact(c, t, p) && v.r.sender !in t.voters && p != v.r.proposal
    ensures CountsExact(c, Record(t, v), p)
  {
    var u := Record(t, v);
    assert LoyalTo(u, p) == LoyalTo(t, p);
    assert p in t.counts ==> u.counts[p].votes == (map a | a in LoyalTo(u, p) :: u.voters[a]);
  }

  lemma RecordConsistent(c: Committee, t: Tracker, v: Vote)
    requires Consistent(c, t) && c.Genuine(v) && v.r.sender !in t.voters && v.r.sender !in t.equivocators
    ensures Consistent(c, Record(t, v))
  {
    forall p ensures CountsExact(c, Record(t, v), p) {
      if p == v.r.proposal { RecordKeepsOwn(c, t, v, p); } else { RecordKeepsOther(c, t, v, p); }
    }
  }

  lemma RecordSaw(t: Tracker, s: set<Ballot>, v: Vote)
    requires Saw(t, s) && v.r.sender !in t.voters && v.r.sender !in t.equivocators
    ensures Saw(Record(t, v), s + {BallotOf(v)})
  {
    forall a { EquivocatesAdd(s, BallotOf(v), a); }
    assert v.r.sender !in Senders(s);
    assert Senders(s + {BallotOf(v)}) == Senders(s) + {v.r.sender} by { SendersAdd(s, BallotOf(v)); }
  }

  lemma RecordKeeps(c: Committee, t: Tracker, s: set<Ballot>, v: Vote)
    requires Consistent(c, t) && Saw(t, s) && c.Genuine(v)
    requires v.r.sender !in t.voters && v.r.sender !in t.equivocators
    ensures Consistent(c, Record(t, v))
    ensures Saw(Record(t, v), s + {BallotOf(v)})
  {
    RecordConsistent(c, t, v);
    RecordSaw(t, s, v);
  }

  lemma SendersAdd(s: set<Ballot>, b: Ballot)
    ensures Senders(s + {b}) == Senders(s) + {b.sender}
  {
    assert b in s + {b};
  }

  lemma MarkKeepsVotes(c: Committee, t: Tracker, v: Vote)
    requires Votes(c, t) && c.Genuine(v)
    requires v.r.sender in t.voters && t.voters[v.r.sender].r.proposal != v.r.proposal
    ensures Votes(c, MarkEquivocator(t, v))
  {
    var prior := t.voters[v.r.sender];
    assert PairOf(prior, v).V0() == prior;
    assert PairOf(prior, v).V1() == v;
  }

  lemma MarkKeepsCount(c: Committee, t: Tracker, v: Vote, p: ProposalValue)
    requires Votes(c, t) && CountsExact(c, t, p) && c.Genuine(v)
    requires v.r.sender in t.voters && t.voters[v.r.sender].r.proposal != v.r.proposal
    ensures CountsExact(c, MarkEquivocator(t, v), p)
  {
    var u := MarkEquivocator(t, v);
    var a := v.r.sender;
    if p == t.voters[a].r.proposal {
      assert LoyalTo(u, p) == LoyalTo(t, p) - {a};
      WeighRemove(c.weight, LoyalTo(t, p), a);
      if b :| b in LoyalTo(u, p) {
        WeighRemove(c.weight, LoyalTo(u, p), b);
        assert u.counts[p].votes == (map x | x in LoyalTo(u, p) :: u.voters[x]);
      }
    } else {
      assert LoyalTo(u, p) == LoyalTo(t, p);
      assert p in t.counts ==> u.counts[p].votes == (map x | x in LoyalTo(u, p) :: u.voters[x]);
    }
  }

  lemma MarkConsistent(c: Committee, t: Tracker, v: Vote)
    requires Consistent(c, t) && c.Genuine(v)
    requires v.r.sender in t.voters && t.voters[v.r.sender].r.proposal != v.r.proposal
    ensures Consistent(c, MarkEquivocator(t, v))
  {
    MarkKeepsVotes(c, t, v);
    forall p ensures CountsExact(c, MarkEquivocator(t, v), p) { MarkKeepsCount(c, t, v, p); }
    WeighAdd(c.weight, t.equivocators.Keys, v.r.sender);
    assert MarkEquivocator(t, v).equivocators.Keys == t.equivocators.Keys + {v.r.sender};
  }

  lemma MarkSaw(t: Tracker, s: set<Ballot>, v: Vote)
    requires Saw(t, s) && v.r.sender in t.voters && t.voters[v.r.sender].r.proposal != v.r.proposal
    ensures Saw(MarkEquivocator(t, v), s + {BallotOf(v)})
  {
    forall a { EquivocatesAdd(s, BallotOf(v), a); }
    SendersAdd(s, BallotOf(v));
  }

  lemma MarkKeeps(c: Committee, t: Tracker, s: set<Ballot>, v: Vote)
    requires Consistent(c, t) && Saw(t, s) && c.Genuine(v)
    requires v.r.sender in t.voters && t.voters[v.r.sender].r.proposal != v.r.proposal
    ensures Consistent(c, MarkEquivocator(t, v))
    ensures Saw(MarkEquivocator(t, v), s + {BallotOf(v)})
  {
    MarkConsistent(c, t, v);
    MarkSaw(t, s, v);
  }

  /** Votes that the tracker drops change nothing it has to know. */
  lemma DropKeeps(t: Tracker, s: set<Ballot>, v: Vote)
    requires Saw(t, s)
    requires v.r.sender in t.equivocators
          || (v.r.sender in t.voters && t.voters[v.r.sender].r.proposal == v.r.proposal)
    ensures Saw(t, s + {BallotOf(v)})
  {
    forall a { EquivocatesAdd(s, BallotOf(v), a); }
    SendersAdd(s, BallotOf(v));
    if v.r.sender in t.voters {
      assert s + {BallotOf(v)} == s;
    }
  }

  // ---------------------------------------------------------------- what one vote does, in reference terms

  ghost predicate SomeElected(c: Committee, s: set<Ballot>) {
    exists p :: Elected(c, s, p)
  }

  lemma AnnounceExact(c: Committee, t: Tracker, s: set<Ballot>, t': Tracker, s': set<Ballot>)
    requires Consistent(c, t) && Saw(t, s) && Consistent(c, t') && Saw(t', s')
    ensures var out := Announce(c, t, t');
            && !out.TooManyEquivocators?
            && (out.SeveralValues? <==> SeveralElected(c, s'))
            && (out.Reached? <==> !SeveralElected(c, s') && !SomeElected(c, s) && SomeElected(c, s'))
            && (out.Reached? ==> Elected(c, s', out.proposal))
  {
    OverSetIsElected(c, t, s);
    OverSetIsElected(c, t', s');
    OverIffElected(c, t, s);
    OverIffElected(c, t', s');
    AnnounceMeans(c, t, t');
  }

  lemma OverIffElected(c: Committee, t: Tracker, s: set<Ballot>)
    requires forall p :: p in OverSet(c, t) <==> Elected(c, s, p)
    ensures OverSet(c, t) != {} <==> SomeElected(c, s)
  {
    if p :| Elected(c, s, p) { assert p in OverSet(c, t); }
  }

  lemma AnnounceMeans(c: Committee, t: Tracker, t': Tracker)
    ensures var out := Announce(c, t, t');
            && !out.TooManyEquivocators?
            && (out.SeveralValues? <==> Several(OverSet(c, t')))
            && (out.Reached? <==> !Several(OverSet(c, t')) && OverSet(c, t) == {} && OverSet(c, t') != {})
            && (out.Reached? ==> out.proposal in OverSet(c, t'))
  {
  }

  /** Marking one more equivocator makes no value elected when no loyal voter is left. */
  lemma NoLoyalNoneElected(c: Committee, t: Tracker, s: set<Ballot>)
    requires Consistent(c, t) && Saw(t, s) && t.voters == map[]
    ensures !SomeElected(c, s)
  {
    forall p ensures !Elected(c, s, p) {
      LoyalToIsLoyal(t, s, p);
    }
  }

  ghost predicate StepExact(c: Committee, s: set<Ballot>, s': set<Ballot>, u: Tracker, out: Outcome) {
    && (out.Panic() <==> Broken(c, s'))
    && (!out.Panic() ==> Consistent(c, u) && Saw(u, s'))
    && (out.Reached? <==> !Broken(c, s') && !SomeElected(c, s) && SomeElected(c, s'))
    && (out.Reached? ==> Elected(c, s', out.proposal))
  }

  lemma RecordExact(c: Committee, t: Tracker, s: set<Ballot>, v: Vote)
    requires Consistent(c, t) && Saw(t, s) && !Broken(c, s) && c.Genuine(v)
    requires v.r.sender !in t.voters && v.r.sender !in t.equivocators
    ensures var (u, out) := Next(c, t, v); StepExact(c, s, s + {BallotOf(v)}, u, out)
  {
    OverSetIsElected(c, t, s);
    RecordKeeps(c, t, s, v);
    AnnounceExact(c, t, s, Record(t, v), s + {BallotOf(v)});
    assert Equivocating(s + {BallotOf(v)}) == Record(t, v).equivocators.Keys == Equivocating(s);
  }

  lemma MarkExact(c: Committee, t: Tracker, s: set<Ballot>, v: Vote)
    requires Consistent(c, t) && Saw(t, s) && !Broken(c, s) && c.Genuine(v)
    requires v.r.sender in t.voters && t.voters[v.r.sender].r.proposal != v.r.proposal
    ensures var (u, out) := Next(c, t, v); StepExact(c, s, s + {BallotOf(v)}, u, out)
  {
    OverSetIsElected(c, t, s);
    MarkKeeps(c, t, s, v);
    var u := MarkEquivocator(t, v);
    assert v.r.sender in u.equivocators;
    assert u.equivocatorsCount == Weigh(c.weight, Equivocating(s + {BallotOf(v)}));
    if u.voters == map[] {
      NoLoyalNoneElected(c, u, s + {BallotOf(v)});
    } else {
      AnnounceExact(c, t, s, u, s + {BallotOf(v)});
    }
  }

  /** One vote, whatever it is: the tracker panics exactly when the ballots seen so
      far are broken, and announces exactly when a value is elected for the first time. */
  lemma NextExact(c: Committee, t: Tracker, s: set<Ballot>, v: Vote)
    requires Consistent(c, t) && Saw(t, s) && !Broken(c, s) && c.Genuine(v)
    ensures var (u, out) := Next(c, t, v); StepExact(c, s, s + {BallotOf(v)}, u, out)
  {
    OverSetIsElected(c, t, s);
    if v.r.sender in t.equivocators
       || (v.r.sender in t.voters && t.voters[v.r.sender].r.proposal == v.r.proposal) {
      DropKeeps(t, s, v);
      OverSetIsElected(c, t, s + {BallotOf(v)});
      SameSaw(t, s, s + {BallotOf(v)});
    } else if v.r.sender !in t.voters {
      RecordExact(c, t, s, v);
    } else {
      MarkExact(c, t, s, v);
    }
  }

  /** Two sets of ballots that look alike to the tracker are alike. */
  lemma SameSaw(t: Tracker, s: set<Ballot>, s': set<Ballot>)
    requires Saw(t, s) && Saw(t, s')
    ensures Equivocating(s) == Equivocating(s')
    ensures forall p :: Loyal(s, p) == Loyal(s', p)
  {
    forall p ensures Loyal(s, p) == Loyal(s', p) {
      LoyalToIsLoyal(t, s, p);
      LoyalToIsLoyal(t, s', p);
    }
  }

  // ---------------------------------------------------------------- whole runs

  ghost predicate RunExactly(c: Committee, s: set<Ballot>, s': set<Ballot>, r: Result) {
    && (r.Halted? <==> Broken(c, s'))
    && (r.Ran? ==>
          && Consistent(c, r.tracker) && Saw(r.tracker, s')
          && (SomeElected(c, s) || !SomeElected(c, s') ==> r.announced == [])
          && (!SomeElected(c, s) && SomeElected(c, s') ==>
                |r.announced| == 1 && Elected(c, s', r.announced[0])))
  }

  lemma {:induction false} RunIsExact(c: Committee, t: Tracker, s: set<Ballot>, vs: seq<Vote>)
    requires Consistent(c, t) && Saw(t, s) && !Broken(c, s)
    requires forall v :: v in vs ==> c.Genuine(v)
    ensures RunExactly(c, s, s + Ballots(vs), Run(c, t, vs))
    decreases |vs|
  {
    if vs == [] {
      assert s + Ballots(vs) == s;
    } else {
      var init, v := vs[..|vs| - 1], vs[|vs| - 1];
      RunIsExact(c, t, s, init);
      BallotsLast(vs);
      Associates(s, Ballots(init), {BallotOf(v)});
      RunExtend(c, t, s, init, v);
      assert vs == init + [v];
    }
  }

  lemma Associates(x: set<Ballot>, y: set<Ballot>, z: set<Ballot>)
    ensures x + (y + z) == x + y + z
  {
  }

  lemma BallotsLast(vs: seq<Vote>)
    requires vs != []
    ensures Ballots(vs) == Ballots(vs[..|vs| - 1]) + {BallotOf(vs[|vs| - 1])}
  {
    var init, v := vs[..|vs| - 1], vs[|vs| - 1];
    assert vs == init + [v];
    assert v in vs;
    forall u | u in init ensures u in vs {}
  }

  lemma SomeElectedStays(c: Committee, s: set<Ballot>, t: set<Ballot>)
    requires s <= t && SomeElected(c, s) && !Broken(c, t)
    ensures SomeElected(c, t)
  {
    var p :| Elected(c, s, p);
    ElectedStays(c, s, t, p);
  }

  ghost function Extend(c: Committee, r: Result, v: Vote): Result {
    match r
    case Halted => Halted
    case Ran(u, announced) =>
      var (u', out) := Next(c, u, v);
      if out.Panic() then Halted
      else Ran(u', if out.Reached? then announced + [out.proposal] else announced)
  }

  lemma ExtendExactly(c: Committee, s: set<Ballot>, s1: set<Ballot>, r: Result, v: Vote)
    requires s <= s1 && c.Genuine(v) && RunExactly(c, s, s1, r) && r.Ran?
    ensures RunExactly(c, s, s1 + {BallotOf(v)}, Extend(c, r, v))
  {
    var s2 := s1 + {BallotOf(v)};
    NextExact(c, r.tracker, s1, v);
    if !Broken(c, s2) {
      if SomeElected(c, s) {
        SomeElectedStays(c, s, s1);
      }
      if SomeElected(c, s1) {
        SomeElectedStays(c, s1, s2);
        if !SomeElected(c, s) {
          ElectedStays(c, s1, s2, r.announced[0]);
        }
      }
    }
  }

  lemma RunExtend(c: Committee, t: Tracker, s: set<Ballot>, init: seq<Vote>, v: Vote)
    requires c.Genuine(v)
    requires RunExactly(c, s, s + Ballots(init), Run(c, t, init))
    ensures RunExactly(c, s, s + Ballots(init) + {BallotOf(v)}, Run(c, t, init + [v]))
  {
    assert (init + [v])[..|init|] == init;
    assert Run(c, t, init + [v]) == Extend(c, Run(c, t, init), v);
    if Run(c, t, init).Halted? {
      BrokenStays(c, s + Ballots(init), s + Ballots(init) + {BallotOf(v)});
    } else {
      ExtendExactly(c, s, s + Ballots(init), Run(c, t, init), v);
    }
  }

  lemma EmptyIsConsistent(c: Committee)
    ensures Consistent(c, EMPTY) && Saw(EMPTY, {}) && !Broken(c, {}) && !SomeElected(c, {})
  {
  }

  // ---------------------------------------------------------------- main results

  /** Any run of genuine votes, from the start: it panics exactly when its ballots are
      broken; otherwise it announces one value if some value is elected and none if not,
      and every stored count is the support of its value. */
  lemma RunDecides(c: Committee, vs: seq<Vote>)
    requires forall v :: v in vs ==> c.Genuine(v)
    ensures var r := Run(c, EMPTY, vs);
            && (r.Halted? <==> Broken(c, Ballots(vs)))
            && (r.Ran? ==> forall p :: Count(r.tracker, p) == Support(c, Ballots(vs), p))
            && (r.Ran? ==> |r.announced| <= 1)
            && (r.Ran? ==> (r.announced != [] <==> exists p :: Elected(c, Ballots(vs), p)))
            && (r.Ran? ==> forall p :: Elected(c, Ballots(vs), p) <==> r.announced == [p])
  {
    EmptyIsConsistent(c);
    RunIsExact(c, EMPTY, {}, vs);
    assert {} + Ballots(vs) == Ballots(vs);
    var r := Run(c, EMPTY, vs);
    if r.Ran? {
      forall p ensures Count(r.tracker, p) == Support(c, Ballots(vs), p) {
        CountIsSupport(c, r.tracker, Ballots(vs), p);
      }
    }
  }

  /** Order does not matter: two nodes fed the same votes, each in its own order and
      with its own repetitions, both panic or announce the same values with the same counts. */
  lemma OrderIrrelevant(c: Committee, vs: seq<Vote>, ws: seq<Vote>)
    requires forall v :: v in vs ==> c.Genuine(v)
    requires forall v :: v in vs <==> v in ws
    ensures var r, r' := Run(c, EMPTY, vs), Run(c, EMPTY, ws);
            && (r.Halted? <==> r'.Halted?)
            && (r.Ran? ==> r.announced == r'.announced && forall p :: Count(r.tracker, p) == Count(r'.tracker, p))
  {
    assert Ballots(vs) == Ballots(ws);
    RunDecides(c, vs);
    RunDecides(c, ws);
    var r, r' := Run(c, EMPTY, vs), Run(c, EMPTY, ws);
    if r.Ran? && r.announced != [] {
      assert r.announced == [r.announced[0]];
    }
  }

  /** Support of every value only grows along a run. */
  lemma SupportNeverDecreases(c: Committee, vs: seq<Vote>, k: nat, p: ProposalValue)
    requires forall v :: v in vs ==> c.Genuine(v)
    requires k <= |vs| && Run(c, EMPTY, vs).Ran?
    ensures Run(c, EMPTY, vs[..k]).Ran?
    ensures Count(Run(c, EMPTY, vs[..k]).tracker, p) <= Count(Run(c, EMPTY, vs).tracker, p)
  {
    RunDecides(c, vs);
    RunDecides(c, vs[..k]);
    assert Ballots(vs[..k]) <= Ballots(vs);
    if Broken(c, Ballots(vs[..k])) {
      BrokenStays(c, Ballots(vs[..k]), Ballots(vs));
    }
    SupportGrows(c, Ballots(vs[..k]), Ballots(vs), p);
  }

  lemma VouchersOverlap(cast: set<Ballot>, b: set<Ballot>, b': set<Ballot>, p: ProposalValue, q: ProposalValue)
    requires b <= cast && b' <= cast && p != q
    ensures (VotersFor(b, p) + Equivocating(b)) * (VotersFor(b', q) + Equivocating(b')) <= Equivocating(cast)
  {
    BallotsGrow(b, cast, p);
    BallotsGrow(b', cast, q);
  }

  lemma ElectionsIntersect(c: Committee, cast: set<Ballot>, committee: set<Address>,
                           b: set<Ballot>, b': set<Ballot>, p: ProposalValue, q: ProposalValue)
    requires b <= cast && b' <= cast && p != q && Senders(cast) <= committee
    requires Elected(c, b, p) && Elected(c, b', q)
    ensures Weigh(c.weight, Equivocating(cast)) + Weigh(c.weight, committee) >= 2 * c.threshold
  {
    var x, y := VotersFor(b, p) + Equivocating(b), VotersFor(b', q) + Equivocating(b');
    VouchersBelong(cast, committee, b, p);
    VouchersBelong(cast, committee, b', q);
    VouchersOverlap(cast, b, b', p, q);
    LargeSetsOverlap(c.weight, x, y, committee, Equivocating(cast), c.threshold);
  }

  lemma VouchersBelong(cast: set<Ballot>, committee: set<Address>, b: set<Ballot>, p: ProposalValue)
    requires b <= cast && Senders(cast) <= committee
    ensures VotersFor(b, p) + Equivocating(b) <= committee
  {
    BallotsGrow(b, cast, p);
  }

  lemma LargeSetsOverlap(w: Address -> nat, x: set<Address>, y: set<Address>, all: set<Address>, both: set<Address>, n: nat)
    requires x <= all && y <= all && x * y <= both && Weigh(w, x) >= n && Weigh(w, y) >= n
    ensures Weigh(w, both) + Weigh(w, all) >= 2 * n
  {
    WeighOverlap(w, x, y);
    WeighSubset(w, x + y, all);
    WeighSubset(w, x * y, both);
  }

  /** Agreement within a step.  Two nodes see any parts of the votes that were cast,
      in any order.  If they announce different values, then the senders who cast votes
      for two values weigh at least twice the threshold less the whole committee. */
  lemma QuorumsIntersect(c: Committee, cast: set<Ballot>, committee: set<Address>,
                         vs: seq<Vote>, ws: seq<Vote>, p: ProposalValue, q: ProposalValue)
    requires forall v :: v in vs ==> c.Genuine(v) && BallotOf(v) in cast
    requires forall v :: v in ws ==> c.Genuine(v) && BallotOf(v) in cast
    requires Senders(cast) <= committee
    requires Run(c, EMPTY, vs).Ran? && p in Run(c, EMPTY, vs).announced
    requires Run(c, EMPTY, ws).Ran? && q in Run(c, EMPTY, ws).announced
    requires p != q
    ensures Weigh(c.weight, Equivocating(cast)) + Weigh(c.weight, committee) >= 2 * c.threshold
  {
    RunDecides(c, vs);
    RunDecides(c, ws);
    assert Run(c, EMPTY, vs).announced == [p];
    assert Run(c, EMPTY, ws).announced == [q];
    ElectionsIntersect(c, cast, committee, Ballots(vs), Ballots(ws), p, q);
  }

  /** No count ever exceeds the weight of the senders seen, so that 64-bit counters do
      not wrap while the committee weighs less than 2^64. */
  lemma CountBounded(c: Committee, vs: seq<Vote>, p: ProposalValue)
    requires forall v :: v in vs ==> c.Genuine(v)
    requires Run(c, EMPTY, vs).Ran?
    ensures Count(Run(c, EMPTY, vs).tracker, p) <= Weigh(c.weight, Senders(Ballots(vs)))
  {
    RunDecides(c, vs);
    WeighSubset(c.weight, VotersFor(Ballots(vs), p) + Equivocating(Ballots(vs)), Senders(Ballots(vs)));
  }
}
