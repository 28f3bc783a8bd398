/** When a staged value with its payload stays votable until the period ends. */
module PlayerLock {
  import opened Options
  import opened Weights
  import opened AgreementTypes
  import opened Proposals
  import opened Players
  import opened PlayerSafety

  /** v is staged in the player's period and its payload is here: next and late votes
      of the period are for v. */
  predicate Has(st: State, v: ProposalValue) {
    v != BOTTOM && st.Now().Staged(st.p.period) == v && st.Now().store.Assembled(v)
  }

  /** The proposal tracker of period x accepts no further proposal-votes. */
  predicate Settled(rs: RoundState, x: Period) {
    rs.Period(x).freezer.frozen || rs.Staged(x) != BOTTOM
  }

  predicate HeldBy(rs: RoundState, v: ProposalValue, x: Period) {
    x in rs.store.relevant && rs.store.relevant[x] == v && Settled(rs, x)
  }

  /** v is pinned, or it is the relevant value of a settled period; the player's own
      period is settled as soon as a value is staged in it. */
  predicate Held(st: State, v: ProposalValue) {
    st.Now().store.pinned == v || (exists x :: x in st.Now().store.relevant && HeldBy(st.Now(), v, x))
  }

  // ---------------------------------------------------------------- the relevant periods

  /** Only periods next to the player's are relevant, and only relevant or pinned values
      have assemblers. */
  ghost predicate StoreWindow(s: Store, now: Period) {
    && (forall x :: x in s.relevant ==> now <= x + 1 && x <= now + 1)
    && (forall v :: v in s.assemblers ==> v in s.Kept())
  }

  ghost predicate StoreAhead(s: Store) {
    && s.pinned == BOTTOM
    && (forall x :: x in s.relevant ==> x == 0)
    && (forall v :: v in s.assemblers ==> v in s.Kept())
  }

  ghost predicate Window(st: State) {
    && StoreWindow(st.Now().store, st.p.period)
    && (forall r: Round :: r > st.p.round ==> StoreAhead(st.Round(r).store))
  }

  lemma InitialWindow(t: Timing, r: Round)
    ensures Window(Initial(t, r))
  {
  }

  lemma KeptBy(s: Store, v: ProposalValue)
    requires v in s.Kept()
    ensures v != BOTTOM && (s.pinned == v || exists x :: x in s.relevant && s.relevant[x] == v)
  {
  }

  /** The check made on entering a round, that its store has at most one assembler,
      cannot fail. */
  lemma AtMostOneAssembler(st: State, target: Round)
    requires Window(st) && target > st.p.round
    ensures |st.Round(target).store.assemblers| <= 1
  {
    var s := st.Round(target).store;
    assert StoreAhead(s);
    if v :| v in s.assemblers {
      KeptBy(s, v);
      forall w | w in s.assemblers ensures w == v { KeptBy(s, w); }
      SubsetSize(s.assemblers.Keys, {v});
    }
  }

  lemma StoreProposalWindow(s: Store, v: ProposalVote, now: Period)
    requires StoreWindow(s, now) && now <= v.period + 1 && v.period <= now + 1
    ensures StoreWindow(StoreProposal(s, v, now), now)
  {
  }

  lemma ProposalVoteWindow(st: State, v: ProposalVote)
    requires Window(st)
    ensures Window(HandleProposalVote(st, v))
  {
    if ProposalFresh(st.p, v) {
      var rs := st.Round(v.round);
      var (tracker, accepted) := TrackProposal(rs.Period(v.period), v);
      if v.round == st.p.round {
        StoreProposalWindow(rs.store, v, st.p.period);
      }
      var st' := HandleProposalVote(st, v);
      forall r: Round | r > st.p.round ensures StoreAhead(st'.Round(r).store) {
        assert StoreAhead(st.Round(r).store);
      }
    }
  }

  lemma PayloadWindow(st: State, r: Round, s: Store)
    requires Window(st) && r >= st.p.round
    requires s.relevant == st.Round(r).store.relevant && s.pinned == st.Round(r).store.pinned
    requires s.assemblers.Keys == st.Round(r).store.assemblers.Keys
    ensures Window(st.WithRound(r, st.Round(r).(store := s)))
  {
    var st' := st.WithRound(r, st.Round(r).(store := s));
    assert s.Kept() == st.Round(r).store.Kept();
    forall x: Round | x > st.p.round ensures StoreAhead(st'.Round(x).store) {
      assert StoreAhead(st.Round(x).store);
    }
  }

  lemma SameStoresWindow(st: State, st': State)
    requires Window(st) && SamePeriod(st.p, st'.p)
    requires forall r: Round :: r >= st.p.round ==> st'.Round(r).store == st.Round(r).store
    ensures Window(st')
  {
    forall x: Round | x > st.p.round ensures StoreAhead(st'.Round(x).store) {
      assert StoreAhead(st.Round(x).store);
    }
  }

  lemma StageSoftWindow(st: State, e: ThresholdEvent, now: Period)
    requires StoreWindow(st.Now().store, now) && e.round == st.p.round && e.proposal != BOTTOM && e.period == now
    ensures StoreWindow(StageSoft(st, e).0.Now().store, now)
  {
  }

  lemma OpenNextWindow(st: State, e: ThresholdEvent, target: Period)
    requires Window(st) && e.round == st.p.round && target > st.p.period
    ensures StoreWindow(OpenNext(st, e, target).Now().store, target)
  {
  }

  lemma EnterPeriodWindow(t: Timing, st: State, e: ThresholdEvent, target: Period)
    requires Window(st) && e.round == st.p.round && target > st.p.period
    requires e.Kind().SoftThreshold? ==> target == e.period && e.proposal != BOTTOM
    ensures Window(EnterPeriod(t, st, e, target).0)
  {
    OpenNextWindow(st, e, target);
    var advanced := OpenNext(st, e, target);
    if e.Kind().SoftThreshold? { StageSoftWindow(advanced, e, target); }
    var st' := EnterPeriod(t, st, e, target).0;
    forall x: Round | x > st.p.round ensures StoreAhead(st'.Round(x).store) {
      assert st'.Round(x) == st.Round(x);
    }
  }

  lemma StagedWindow(st: State, e: ThresholdEvent)
    requires Window(st) && e.round == st.p.round && e.proposal != BOTTOM && e.period == st.p.period
    ensures Window(StageSoft(st, e).0)
  {
    StageSoftWindow(st, e, e.period);
    var st' := StageSoft(st, e).0;
    forall x: Round | x > st.p.round ensures StoreAhead(st'.Round(x).store) {
      assert st'.Round(x) == st.Round(x);
    }
  }

  lemma ThresholdWindow(q: NextValues, t: Timing, st: State, e: ThresholdEvent)
    requires Inv(q, st) && Newest(q, st, e) && Window(st)
    ensures Window(HandleThreshold(t, st, e).0)
    decreases |st.Ahead()|, 1
  {
    if e.Kind().CertThreshold? {
      EnterRoundWindow(q, t, st, st.p.round + 1);
    } else {
      PeriodThresholdWindow(t, st, e);
    }
  }

  lemma PeriodThresholdWindow(t: Timing, st: State, e: ThresholdEvent)
    requires Window(st) && e.round == st.p.round && !e.Kind().CertThreshold? && (e.Kind().SoftThreshold? ==> e.proposal != BOTTOM)
    ensures Window(HandleThreshold(t, st, e).0)
  {
    if st.p.period >= e.period + 1 {
    } else if e.Kind().SoftThreshold? && st.p.period == e.period {
      StagedWindow(st, e);
    } else if e.Kind().SoftThreshold? {
      EnterPeriodWindow(t, st, e, e.period);
    } else {
      EnterPeriodWindow(t, st, e, e.period + 1);
    }
  }

  lemma EnterRoundWindow(q: NextValues, t: Timing, st: State, target: Round)
    requires Inv(q, st) && Window(st) && target > st.p.round
    ensures Window(EnterRound(t, st, target).0)
    decreases |st.Ahead()|, 0
  {
    var mid := st.(p := MovedTo(t, st.p, target, 0));
    MovedPlayer(q, st, mid.p);
    assert StoreAhead(st.Round(target).store);
    forall x: Round | x >= target ensures mid.Round(x) == st.Round(x) {}
    assert RoundOk(q, target, st.Round(target));
    match st.Round(target).freshest
    case None =>
    case Some(e) =>
      AheadShrinks(st, mid);
      ThresholdWindow(q, t, mid, e);
  }

  lemma QuorumWindow(t: Timing, st: State, e: ThresholdEvent)
    requires Inv(ANY, st) && Sound(ANY, e) && Window(st)
    ensures Window(HandleQuorum(t, st, e).0)
  {
    if Fresh(st.p, e) {
      var (rs, fresher) := NoteQuorum(st.Round(e.round), e);
      NoteQuorumOk(ANY, st.Round(e.round), e);
      RoundReplaced(ANY, st, e.round, rs);
      var noted := st.WithRound(e.round, rs);
      SameStoresWindow(st, noted);
      if fresher && e.round == st.p.round { ThresholdWindow(ANY, t, noted, e); }
    }
  }

  /** What an event that is only about time or memory leaves as it was. */
  ghost predicate StoresKept(st: State, st': State) {
    && SamePeriod(st.p, st'.p)
    && (forall r: Round :: r >= st.p.round ==> st'.Round(r).store == st.Round(r).store)
    && st'.Now().Staged(st.p.period) == st.Now().Staged(st.p.period)
    && (forall x :: x in st.Now().store.relevant && Settled(st.Now(), x) && st.p.period <= x + 1 ==> Settled(st'.Now(), x))
  }

  predicate Quiet(ev: Event) { ev.Timeout? || ev.FastTimeout? || ev.Checkpoint? || ev.Collect? }

  lemma SoftKeepsStores(t: Timing, st: State)
    ensures StoresKept(st, IssueSoftVote(t, st).0)
  {
  }

  lemma SamePlayerStores(st: State, p: Player)
    requires SamePeriod(st.p, p)
    ensures StoresKept(st, st.(p := p))
  {
  }

  lemma StoresKeptMoved(st: State, st': State, p: Player)
    requires StoresKept(st, st') && SamePeriod(st'.p, p)
    ensures StoresKept(st, st'.(p := p))
  {
  }

  lemma TimeoutKeepsStores(t: Timing, st: State, entropy: nat)
    ensures StoresKept(st, HandleTimeout(t, st, entropy).0)
  {
    var st' := HandleTimeout(t, st, entropy).0;
    if st.p.step == SOFT {
      SoftKeepsStores(t, st);
      StoresKeptMoved(st, IssueSoftVote(t, st).0, st'.p);
    } else {
      assert st' == st.(p := st'.p);
      SamePlayerStores(st, st'.p);
    }
  }

  lemma CollectKeepsStores(st: State)
    ensures StoresKept(st, HandleCollect(st))
  {
  }

  lemma QuietKeepsStores(t: Timing, st: State, ev: Event)
    requires Quiet(ev) && Admissible(st, ev)
    ensures StoresKept(st, Handle(t, st, ev).0)
  {
    match ev
    case Timeout(entropy) => TimeoutKeepsStores(t, st, entropy);
    case FastTimeout(entropy, lambda) => SamePlayerStores(st, HandleFastTimeout(st, entropy, lambda).0.p);
    case Checkpoint =>
    case Collect => CollectKeepsStores(st);
  }

  lemma HandleWindow(t: Timing, st: State, ev: Event)
    requires Inv(ANY, st) && Admissible(st, ev) && Window(st)
    ensures Window(Handle(t, st, ev).0)
  {
    if Quiet(ev) {
      QuietKeepsStores(t, st, ev);
      SameStoresWindow(st, Handle(t, st, ev).0);
    } else {
      LoudWindow(t, st, ev);
    }
  }

  lemma LoudWindow(t: Timing, st: State, ev: Event)
    requires Inv(ANY, st) && Admissible(st, ev) && Window(st) && !Quiet(ev)
    ensures Window(Handle(t, st, ev).0)
  {
    match ev
    case ProposalVoteVerified(v) => ProposalVoteWindow(st, v);
    case PayloadPresent(v, round) =>
      var r := if round == st.p.round then st.p.round else st.p.round + 1;
      PayloadWindow(st, r, StorePayload(st.Round(r).store, v));
    case PayloadVerified(v) => PayloadWindow(st, st.p.round, BindPayload(st.Now().store, v).0);
    case Threshold(e) => QuorumWindow(t, st, e);
    case RoundInterruption(target) => EnterRoundWindow(ANY, t, st, target);
  }

  // ---------------------------------------------------------------- the lock

  lemma HeldProposalVote(st: State, v: ProposalValue, pv: ProposalVote)
    requires Has(st, v) && Held(st, v)
    ensures Has(HandleProposalVote(st, pv), v) && Held(HandleProposalVote(st, pv), v)
  {
    var st' := HandleProposalVote(st, pv);
    if ProposalFresh(st.p, pv) && pv.round == st.p.round {
      var s, s' := st.Now().store, st'.Now().store;
      if s.pinned == v {
        assert v in s'.Kept() || s' == s;
      } else {
        var x :| x in s.relevant && HeldBy(st.Now(), v, x);
        assert x in s'.relevant && s'.relevant[x] == v;
        assert HeldBy(st'.Now(), v, x);
        assert v in s'.Kept();
      }
    }
  }

  lemma HeldSame(st: State, st': State, v: ProposalValue)
    requires Window(st) && Has(st, v) && Held(st, v) && StoresKept(st, st')
    ensures Has(st', v) && Held(st', v)
  {
    if st.Now().store.pinned != v {
      var x :| x in st.Now().store.relevant && HeldBy(st.Now(), v, x);
      assert HeldBy(st'.Now(), v, x);
    }
  }

  lemma HeldPayload(st: State, v: ProposalValue, r: Round, s: Store)
    requires Has(st, v) && Held(st, v)
    requires r == st.p.round ==> s.relevant == st.Now().store.relevant && s.pinned == st.Now().store.pinned && s.Assembled(v)
    ensures var st' := st.WithRound(r, st.Round(r).(store := s)); Has(st', v) && Held(st', v)
  {
    var st' := st.WithRound(r, st.Round(r).(store := s));
    if st.Now().store.pinned != v {
      var x :| x in st.Now().store.relevant && HeldBy(st.Now(), v, x);
      assert HeldBy(st'.Now(), v, x);
    }
  }

  /** A quorum that leaves the player in its period changes no more than what the vote
      machines note. */
  lemma QuorumInPeriod(t: Timing, st: State, e: ThresholdEvent)
    requires Inv(ANY, st) && Newest(ANY, st, e) && st.Now().Staged(st.p.period) != BOTTOM
    requires SamePeriod(st.p, HandleThreshold(t, st, e).0.p)
    ensures HandleThreshold(t, st, e).0 == st
  {
    if e.Kind().CertThreshold? { EnterRoundStep(ANY, t, st, st.p.round + 1); }
  }

  lemma NotedKeepsStores(st: State, e: ThresholdEvent)
    ensures StoresKept(st, st.WithRound(e.round, NoteQuorum(st.Round(e.round), e).0))
  {
  }

  lemma HeldQuorum(t: Timing, st: State, v: ProposalValue, e: ThresholdEvent)
    requires Inv(ANY, st) && Window(st) && Sound(ANY, e) && Has(st, v) && Held(st, v)
    requires SamePeriod(st.p, HandleQuorum(t, st, e).0.p)
    ensures Has(HandleQuorum(t, st, e).0, v) && Held(HandleQuorum(t, st, e).0, v)
  {
    if Fresh(st.p, e) {
      var (rs, fresher) := NoteQuorum(st.Round(e.round), e);
      NoteQuorumOk(ANY, st.Round(e.round), e);
      RoundReplaced(ANY, st, e.round, rs);
      var noted := st.WithRound(e.round, rs);
      NotedKeepsStores(st, e);
      SameStoresWindow(st, noted);
      HeldSame(st, noted, v);
      if fresher && e.round == st.p.round { QuorumInPeriod(t, noted, e); }
    }
  }

  lemma HeldStep(t: Timing, st: State, ev: Event, v: ProposalValue)
    requires Inv(ANY, st) && Window(st) && Admissible(st, ev) && Has(st, v) && Held(st, v)
    requires SamePeriod(st.p, Handle(t, st, ev).0.p)
    ensures Has(Handle(t, st, ev).0, v) && Held(Handle(t, st, ev).0, v)
  {
    if Quiet(ev) {
      QuietKeepsStores(t, st, ev);
      HeldSame(st, Handle(t, st, ev).0, v);
    } else {
      HeldLoudStep(t, st, ev, v);
    }
  }

  lemma HeldLoudStep(t: Timing, st: State, ev: Event, v: ProposalValue)
    requires Inv(ANY, st) && Window(st) && Admissible(st, ev) && Has(st, v) && Held(st, v) && !Quiet(ev)
    requires SamePeriod(st.p, Handle(t, st, ev).0.p)
    ensures Has(Handle(t, st, ev).0, v) && Held(Handle(t, st, ev).0, v)
  {
    match ev
    case ProposalVoteVerified(pv) => HeldProposalVote(st, v, pv);
    case PayloadPresent(pv, round) =>
      var r := if round == st.p.round then st.p.round else st.p.round + 1;
      HeldPayload(st, v, r, StorePayload(st.Round(r).store, pv));
    case PayloadVerified(pv) => HeldPayload(st, v, st.p.round, BindPayload(st.Now().store, pv).0);
    case Threshold(e) => HeldQuorum(t, st, v, e);
    case RoundInterruption(target) => EnterRoundStep(ANY, t, st, target);
  }

  // ---------------------------------------------------------------- runs

  lemma {:induction false} RunReaches(t: Timing, st: State, evs: seq<Event>)
    requires Inv(ANY, st) && Window(st) && Runnable(t, st, evs)
    ensures var st' := Run(t, st, evs).0; Inv(ANY, st') && Window(st') && Onward(st.p, st'.p)
  {
    if evs != [] {
      RunReaches(t, st, evs[..|evs| - 1]);
      var mid := Run(t, st, evs[..|evs| - 1]).0;
      HandleKeeps(ANY, t, mid, evs[|evs| - 1]);
      HandleWindow(t, mid, evs[|evs| - 1]);
    }
  }

  lemma VotesInPeriod(t: Timing, st: State, ev: Event, a: Action)
    requires Inv(ANY, st) && Admissible(st, ev) && a in Handle(t, st, ev).1 && a.Attest?
    ensures var p' := Handle(t, st, ev).0.p; a.round == p'.round && a.period == p'.period
    ensures a.step >= NEXT && st.Now().Committable(st.p.period) ==> a.proposal == st.Now().Staged(st.p.period)
  {
    if !ev.Timeout? {
      HandleStep(ANY, t, st, ev);
      var (st', acts) := Handle(t, st, ev);
      assert NewAttest(ANY, st, st', a);
    }
  }

  /** A next, late, redo or down vote of the period that p is in. */
  predicate NextVoteIn(p: Player, a: Action) {
    a.Attest? && a.round == p.round && a.period == p.period && a.step >= NEXT
  }

  /** Once v is staged with its payload and held, every event that leaves the player in
      its period leaves it so, and every later next or late vote of the period is for v. */
  lemma {:induction false} LockHolds(t: Timing, st: State, v: ProposalValue, evs: seq<Event>)
    requires Inv(ANY, st) && Window(st) && Has(st, v) && Held(st, v) && Runnable(t, st, evs)
    ensures SamePeriod(st.p, Run(t, st, evs).0.p) ==> Has(Run(t, st, evs).0, v) && Held(Run(t, st, evs).0, v)
    ensures forall a :: a in Run(t, st, evs).1 && NextVoteIn(st.p, a) ==> a.proposal == v
  {
    if evs != [] {
      var head, ev := evs[..|evs| - 1], evs[|evs| - 1];
      LockHolds(t, st, v, head);
      RunReaches(t, st, head);
      var mid := Run(t, st, head).0;
      HandleKeeps(ANY, t, mid, ev);
      var (st', more) := Handle(t, mid, ev);
      if SamePeriod(st.p, st'.p) { HeldStep(t, mid, ev, v); }
      forall a | a in more && NextVoteIn(st.p, a) ensures a.proposal == v {
        VotesInPeriod(t, mid, ev, a);
      }
    }
  }

  // ---------------------------------------------------------------- losing the payload

  ghost function FreshSender(s: set<Address>): (a: Address)
    ensures forall x :: x in s ==> x < a
  {
    if s == {} then 0
    else
      var x :| x in s;
      var a := FreshSender(s - {x});
      assert forall y :: y in s ==> y == x || y in s - {x};
      if x < a then a else x + 1
  }

  /** A block of the given proposer and period that is neither v nor bottom. */
  function Rival(v: ProposalValue, x: Period, proposer: Address): (u: ProposalValue)
    ensures u != v && u != BOTTOM
  {
    ProposalValue(x, proposer, v.blockDigest + 1, v.encodingDigest + 1)
  }

  /** A proposal-vote that displaces v from period x. */
  ghost function Displacing(st: State, x: Period, v: ProposalValue): ProposalVote {
    var tracker := st.Now().Period(x);
    var sender := FreshSender(tracker.duplicate);
    ProposalVote(sender, st.p.round, x, Rival(v, x, sender), tracker.freezer.credential - 1)
  }

  /** In the store of st', period x has another value than v and nothing else has changed. */
  ghost predicate Displaced(st: State, st': State, v: ProposalValue, x: Period) {
    && st'.p == st.p && Window(st') && st'.Now().store.pinned == st.Now().store.pinned
    && (x in st'.Now().store.relevant ==> st'.Now().store.relevant[x] != v)
    && (forall y: Period :: y != x ==> SameAt(st.Now(), st'.Now(), y))
  }

  predicate SameAt(rs: RoundState, rs': RoundState, y: Period) {
    && rs'.Period(y) == rs.Period(y)
    && (y in rs'.store.relevant <==> y in rs.store.relevant)
    && (y in rs.store.relevant ==> rs'.store.relevant[y] == rs.store.relevant[y])
  }

  lemma Displaces(st: State, v: ProposalValue, x: Period)
    requires Window(st) && !Settled(st.Now(), x)
    requires st.p.period <= x + 1 && x <= st.p.period + 1
    ensures Genuine(Displacing(st, x, v)) && Displaced(st, HandleProposalVote(st, Displacing(st, x, v)), v, x)
  {
    var pv := Displacing(st, x, v);
    assert pv.sender !in st.Now().Period(x).duplicate;
    ProposalVoteWindow(st, pv);
    var st' := HandleProposalVote(st, pv);
    assert st'.Now().store.relevant == st.Now().store.relevant[x := pv.proposal];
  }

  /** After the events pre, displace v from period x if it is there. */
  lemma Dropped(t: Timing, st0: State, pre: seq<Event>, v: ProposalValue, x: Period) returns (evs: seq<Event>)
    requires Runnable(t, st0, pre)
    requires var st := Run(t, st0, pre).0;
      && Window(st) && st.p.period <= x + 1 && x <= st.p.period + 1
      && (x in st.Now().store.relevant && st.Now().store.relevant[x] == v ==> !Settled(st.Now(), x))
    ensures Runnable(t, st0, evs) && Displaced(Run(t, st0, pre).0, Run(t, st0, evs).0, v, x)
  {
    var st := Run(t, st0, pre).0;
    if x in st.Now().store.relevant && st.Now().store.relevant[x] == v {
      Displaces(st, v, x);
      var ev := ProposalVoteVerified(Displacing(st, x, v));
      RunSnoc(t, st0, pre, ev);
      evs := pre + [ev];
    } else {
      evs := pre;
    }
  }

  /** If v is not held, at most two proposal-votes make the player drop its payload. */
  lemma LockCanFail(t: Timing, st: State, v: ProposalValue) returns (evs: seq<Event>)
    requires Window(st) && Has(st, v) && !Held(st, v)
    ensures Runnable(t, st, evs)
    ensures var st' := Run(t, st, evs).0;
      st'.p == st.p && st'.Now().Staged(st.p.period) == v && !st'.Now().store.Assembled(v)
  {
    var p := st.p.period;
    NotSettled(st, v, p + 1);
    NotSettled(st, v, p);
    evs := Dropped(t, st, [], v, p + 1);
    var mid := Run(t, st, evs).0;
    assert SameAt(st.Now(), mid.Now(), p);
    if p > 0 {
      NotSettled(st, v, p - 1);
      assert SameAt(st.Now(), mid.Now(), p - 1);
      evs := Dropped(t, st, evs, v, p - 1);
      var last := Run(t, st, evs).0;
      assert SameAt(mid.Now(), last.Now(), p) && SameAt(mid.Now(), last.Now(), p + 1);
    }
    NotRelevant(Run(t, st, evs).0, v);
  }

  lemma NotRelevant(st: State, v: ProposalValue)
    requires StoreWindow(st.Now().store, st.p.period) && st.Now().store.pinned != v
    requires forall x: Period :: x in st.Now().store.relevant && st.p.period <= x + 1 && x <= st.p.period + 1 ==> st.Now().store.relevant[x] != v
    ensures !st.Now().store.Assembled(v)
  {
    var s := st.Now().store;
    if v in s.assemblers { KeptBy(s, v); }
  }

  lemma NotSettled(st: State, v: ProposalValue, x: Period)
    requires !Held(st, v)
    ensures x in st.Now().store.relevant && st.Now().store.relevant[x] == v ==> !Settled(st.Now(), x)
  {
    assert x in st.Now().store.relevant ==> !HeldBy(st.Now(), v, x);
  }

  /** A late quorum of the period before for bottom only frees the next vote. */
  lemma BottomSeen(t: Timing, st: State)
    requires st.p.period > 0
    ensures var (st', acts) := Handle(t, st, Threshold(ThresholdEvent(st.p.round, st.p.period - 1, NEXT, BOTTOM)));
      && st'.p == st.p && st'.PriorBottom() && st'.Now().store == st.Now().store
      && st'.Now().Staged(st.p.period) == st.Now().Staged(st.p.period)
  {
  }

  lemma SoftKeepsValue(t: Timing, st: State)
    ensures var st' := IssueSoftVote(t, st).0; SamePeriod(st.p, st'.p) && NextVoteValue(st') == NextVoteValue(st)
  {
    var st' := IssueSoftVote(t, st).0;
    assert st'.Now().store == st.Now().store && st'.Now().Staged(st.p.period) == st.Now().Staged(st.p.period);
  }

  lemma SamePlayerValue(st: State, p: Player)
    requires SamePeriod(st.p, p)
    ensures NextVoteValue(st.(p := p)) == NextVoteValue(st)
  {
  }

  /** A timeout does not change what a next vote would be for. */
  lemma TimeoutKeepsValue(t: Timing, st: State)
    ensures var st' := Handle(t, st, Timeout(0)).0; SamePeriod(st.p, st'.p) && NextVoteValue(st') == NextVoteValue(st)
  {
    var st' := Handle(t, st, Timeout(0)).0;
    if st.p.step == SOFT {
      SoftKeepsValue(t, st);
      SamePlayerValue(IssueSoftVote(t, st).0, st'.p);
    } else {
      assert st' == st.(p := st'.p);
      SamePlayerValue(st, st'.p);
    }
  }

  ghost predicate VotesNext(t: Timing, st0: State, evs: seq<Event>, p: Player, v: ProposalValue)
    requires Runnable(t, st0, evs)
  {
    exists a :: a in Run(t, st0, evs).1 && NextVoteIn(p, a) && a.proposal == v
  }

  /** With timeouts alone the player comes to make a next vote. */
  lemma NextVoteComes(t: Timing, st0: State, pre: seq<Event>) returns (evs: seq<Event>)
    requires Runnable(t, st0, pre) && PlayerOk(Run(t, st0, pre).0.p)
    ensures Runnable(t, st0, evs)
    ensures VotesNext(t, st0, evs, Run(t, st0, pre).0.p, NextVoteValue(Run(t, st0, pre).0))
    decreases var p := Run(t, st0, pre).0.p; if p.step == CERT || p.napping then 0 else 1
  {
    var st := Run(t, st0, pre).0;
    RunSnoc(t, st0, pre, Timeout(0));
    evs := pre + [Timeout(0)];
    if st.p.step == CERT || st.p.napping {
      TimeoutVotes(t, st);
      var a := Handle(t, st, Timeout(0)).1[0];
      assert a in Run(t, st0, evs).1;
    } else {
      TimeoutKeepsValue(t, st);
      TimeoutWaits(t, st);
      evs := NextVoteComes(t, st0, evs);
      SameVotes(t, st0, evs, st.p, Handle(t, st, Timeout(0)).0.p, NextVoteValue(st));
    }
  }

  lemma TimeoutVotes(t: Timing, st: State)
    requires PlayerOk(st.p) && (st.p.step == CERT || st.p.napping)
    ensures var acts := Handle(t, st, Timeout(0)).1;
      |acts| == 1 && NextVoteIn(st.p, acts[0]) && acts[0].proposal == NextVoteValue(st)
  {
    SamePlayerValue(st, st.p.(step := NEXT));
  }

  lemma TimeoutWaits(t: Timing, st: State)
    requires PlayerOk(st.p) && st.p.step != CERT && !st.p.napping
    ensures var p' := Handle(t, st, Timeout(0)).0.p; PlayerOk(p') && (p'.step == CERT || p'.napping)
  {
  }

  lemma SameVotes(t: Timing, st0: State, evs: seq<Event>, p: Player, p': Player, v: ProposalValue)
    requires Runnable(t, st0, evs) && SamePeriod(p, p') && VotesNext(t, st0, evs, p', v)
    ensures VotesNext(t, st0, evs, p, v)
  {
    var a :| a in Run(t, st0, evs).1 && NextVoteIn(p', a) && a.proposal == v;
    assert NextVoteIn(p, a);
  }

  /** If v is not held, some run in the period makes a next vote that is not for v. */
  lemma VotesOtherwise(t: Timing, st: State, v: ProposalValue) returns (evs: seq<Event>)
    requires Inv(ANY, st) && Window(st) && Has(st, v) && !Held(st, v)
    ensures Runnable(t, st, evs) && VotesNext(t, st, evs, st.p, BOTTOM)
  {
    evs := LockCanFail(t, st, v);
    var mid := Run(t, st, evs).0;
    if st.p.period > 0 {
      BottomSeen(t, mid);
      var ev := Threshold(ThresholdEvent(st.p.round, st.p.period - 1, NEXT, BOTTOM));
      RunSnoc(t, st, evs, ev);
      evs := evs + [ev];
    }
    evs := NextVoteComes(t, st, evs);
  }

  /** Along a run, v keeps its payload as long as the period lasts. */
  predicate KeepsPayload(t: Timing, st: State, v: ProposalValue, evs: seq<Event>)
    requires Runnable(t, st, evs)
  {
    var st' := Run(t, st, evs).0;
    SamePeriod(st.p, st'.p) ==> st'.Now().store.Assembled(v)
  }

  /** Every next, late, redo or down vote that a run makes in the period is for v. */
  ghost predicate VotesOnlyFor(t: Timing, st: State, v: ProposalValue, evs: seq<Event>)
    requires Runnable(t, st, evs)
  {
    forall a :: a in Run(t, st, evs).1 && NextVoteIn(st.p, a) ==> a.proposal == v
  }

  /** A staged value keeps its payload until the period ends, whatever happens, if and only
      if it is held; and that is also exactly when the player cannot vote otherwise. */
  lemma LockExact(t: Timing, st: State, v: ProposalValue)
    requires Inv(ANY, st) && Window(st) && Has(st, v)
    ensures Held(st, v) <==> forall evs :: Runnable(t, st, evs) ==> KeepsPayload(t, st, v, evs)
    ensures Held(st, v) <==> forall evs :: Runnable(t, st, evs) ==> VotesOnlyFor(t, st, v, evs)
  {
    if Held(st, v) {
      forall evs | Runnable(t, st, evs) ensures KeepsPayload(t, st, v, evs) && VotesOnlyFor(t, st, v, evs) {
        LockHolds(t, st, v, evs);
      }
    } else {
      var evs := LockCanFail(t, st, v);
      assert !KeepsPayload(t, st, v, evs);
      var more := VotesOtherwise(t, st, v);
      assert !VotesOnlyFor(t, st, v, more);
    }
  }

  /** The same for whatever state a player has come to from its start. */
  lemma LockDecides(t: Timing, r: Round, evs: seq<Event>, v: ProposalValue)
    requires Runnable(t, Initial(t, r), evs) && Has(Run(t, Initial(t, r), evs).0, v)
    ensures var st := Run(t, Initial(t, r), evs).0;
      && (Held(st, v) <==> forall more :: Runnable(t, st, more) ==> KeepsPayload(t, st, v, more))
      && (Held(st, v) <==> forall more :: Runnable(t, st, more) ==> VotesOnlyFor(t, st, v, more))
  {
    InitialInv(ANY, t, r);
    InitialWindow(t, r);
    RunReaches(t, Initial(t, r), evs);
    LockExact(t, Run(t, Initial(t, r), evs).0, v);
  }

  // ---------------------------------------------------------------- the pinned value

  /** v is pinned with its payload, and nothing else is staged. */
  predicate Pinned(st: State, v: ProposalValue) {
    && v != BOTTOM && st.Now().store.pinned == v && st.Now().store.Assembled(v)
    && (st.Now().Staged(st.p.period) == v || st.Now().Staged(st.p.period) == BOTTOM)
  }

  predicate ForOrBottom(v: ProposalValue, r: Round, ev: Event) {
    ev.Threshold? && ev.e.round == r ==> ev.e.proposal == v || ev.e.proposal == BOTTOM
  }

  lemma PinnedEnterPeriod(t: Timing, st: State, e: ThresholdEvent, target: Period, v: ProposalValue)
    requires Inv(ANY, st) && Newest(ANY, st, e) && target > st.p.period && !e.Kind().CertThreshold?
    requires target == if e.Kind().SoftThreshold? then e.period else e.period + 1
    requires e.proposal == v || e.proposal == BOTTOM
    requires Has(st, v) || Pinned(st, v)
    ensures Pinned(EnterPeriod(t, st, e, target).0, v)
  {
    var s := st.Now().store;
    var s' := OpenPeriod(s, e.proposal, st.Now().Staged(st.p.period), target, st.p.period);
    assert s'.pinned == v;
    assert v in s'.Kept() && s'.Assembled(v);
    assert RoundOk(ANY, st.p.round, st.Now());
    assert PeriodOk(ANY, st.p.round, st.Now(), target);
  }

  lemma PinnedThreshold(t: Timing, st: State, e: ThresholdEvent, v: ProposalValue)
    requires Inv(ANY, st) && Newest(ANY, st, e)
    requires e.proposal == v || e.proposal == BOTTOM
    requires Has(st, v) || Pinned(st, v)
    ensures var st' := HandleThreshold(t, st, e).0;
      st'.p.round == st.p.round && (st'.p.period != st.p.period || Pinned(st, v)) ==> Pinned(st', v)
  {
    if e.Kind().CertThreshold? {
      EnterRoundStep(ANY, t, st, st.p.round + 1);
    } else if st.p.period < e.period + 1 && !(e.Kind().SoftThreshold? && st.p.period == e.period) {
      PinnedEnterPeriod(t, st, e, if e.Kind().SoftThreshold? then e.period else e.period + 1, v);
    }
  }

  lemma PinnedQuorum(t: Timing, st: State, e: ThresholdEvent, v: ProposalValue)
    requires Inv(ANY, st) && Sound(ANY, e) && ForOrBottom(v, st.p.round, Threshold(e))
    requires Has(st, v) || Pinned(st, v)
    ensures var st' := HandleQuorum(t, st, e).0;
      st'.p.round == st.p.round && (st'.p.period != st.p.period || Pinned(st, v)) ==> Pinned(st', v)
  {
    if Fresh(st.p, e) {
      var (rs, fresher) := NoteQuorum(st.Round(e.round), e);
      NoteQuorumOk(ANY, st.Round(e.round), e);
      RoundReplaced(ANY, st, e.round, rs);
      var noted := st.WithRound(e.round, rs);
      if fresher && e.round == st.p.round { PinnedThreshold(t, noted, e, v); }
    }
  }

  lemma PinnedProposalVote(st: State, v: ProposalValue, pv: ProposalVote)
    requires Pinned(st, v)
    ensures Pinned(HandleProposalVote(st, pv), v)
  {
    var s' := HandleProposalVote(st, pv).Now().store;
    assert s' == st.Now().store || v in s'.Kept();
  }

  /** A period change started by v, or by bottom while v is staged or already pinned, pins
      v with its payload; nothing but a quorum for another value unpins it in the round. */
  lemma PinnedStep(t: Timing, st: State, ev: Event, v: ProposalValue)
    requires Inv(ANY, st) && Admissible(st, ev) && ForOrBottom(v, st.p.round, ev)
    requires Has(st, v) || Pinned(st, v)
    ensures var st' := Handle(t, st, ev).0;
      st'.p.round == st.p.round && (st'.p.period != st.p.period || Pinned(st, v)) ==> Pinned(st', v)
  {
    match ev
    case Threshold(e) => PinnedQuorum(t, st, e, v);
    case ProposalVoteVerified(pv) => if Pinned(st, v) { PinnedProposalVote(st, v, pv); }
    case RoundInterruption(target) => EnterRoundStep(ANY, t, st, target);
    case _ =>
  }

  /** A pinned value stays pinned with its payload through every later period of its
      round, as long as all quorums of the round are for it or for bottom. */
  lemma {:induction false} PinnedRun(t: Timing, st: State, v: ProposalValue, evs: seq<Event>)
    requires Inv(ANY, st) && Window(st) && Pinned(st, v) && Runnable(t, st, evs)
    requires forall ev :: ev in evs ==> ForOrBottom(v, st.p.round, ev)
    requires Run(t, st, evs).0.p.round == st.p.round
    ensures Pinned(Run(t, st, evs).0, v)
  {
    if evs != [] {
      var head, ev := evs[..|evs| - 1], evs[|evs| - 1];
      RunReaches(t, st, head);
      var mid := Run(t, st, head).0;
      HandleKeeps(ANY, t, mid, ev);
      PinnedRun(t, st, v, head);
      assert ev in evs;
      PinnedStep(t, mid, ev, v);
    }
  }

  // ---------------------------------------------------------------- a run that loses the lock

  /** A block first proposed in period 0, and the vote that proposes it. */
  predicate Original(v: ProposalValue) { v != BOTTOM && v.originalPeriod == 0 }

  function Proposing(v: ProposalValue, credential: int): Event {
    ProposalVoteVerified(ProposalVote(v.originalProposer, 0, 0, v, credential))
  }

  /** The events of a run in which the player votes to certify one value in period 1, and
      then loses its payload to a proposal-vote of period 0 for another. */
  function Losing(one: ProposalValue, two: ProposalValue): seq<Event> {
    [ Proposing(one, 5),
      PayloadVerified(one),
      Threshold(ThresholdEvent(0, 0, NEXT, BOTTOM)),
      Threshold(ThresholdEvent(0, 1, SOFT, one)),
      Proposing(two, 3),
      Timeout(0),
      Timeout(0) ]
  }

  /** Period 0 is open, prefers a value, and its payload is here. */
  predicate Open(st: State, one: ProposalValue) {
    var rs := st.Now();
    && st.p.round == 0 && !st.p.napping && st.p.step == SOFT
    && rs.store.relevant == map[0 := one] && rs.store.pinned == BOTTOM && rs.store.Assembled(one)
    && rs.Period(0).duplicate == {one.originalProposer} && rs.Period(0).freezer == Seeker(true, 5, one, false)
    && rs.Staged(0) == BOTTOM && rs.Period(1).freezer == Seeker(false, 0, BOTTOM, false)
  }

  predicate Moved(st: State, one: ProposalValue) {
    && Open(st, one) && st.p.period == 1 && st.PriorBottom()
    && st.Now().freshest == Some(ThresholdEvent(0, 0, NEXT, BOTTOM)) && st.Now().Staged(1) == BOTTOM
  }

  lemma LosingOpens(t: Timing, one: ProposalValue, two: ProposalValue)
    requires Original(one)
    ensures Runnable(t, Initial(t, 0), Losing(one, two)[..2])
    ensures var (st, acts) := Run(t, Initial(t, 0), Losing(one, two)[..2]);
      && Open(st, one) && st.p.period == 0 && st.Now().freshest == None && st.Now().Staged(1) == BOTTOM
  {
    var evs := Losing(one, two);
    var st0 := Initial(t, 0);
    RunSnoc(t, st0, [], evs[0]);
    assert evs[..1] == [] + [evs[0]];
    RunSnoc(t, st0, evs[..1], evs[1]);
    assert evs[..2] == evs[..1] + [evs[1]];
  }

  lemma LosingMoves(t: Timing, st: State, one: ProposalValue)
    requires one != BOTTOM && Open(st, one) && st.p.period == 0 && st.Now().freshest == None && st.Now().Staged(1) == BOTTOM
    ensures var e := ThresholdEvent(0, 0, NEXT, BOTTOM);
      Moved(Handle(t, st, Threshold(e)).0, one)
  {
    var e := ThresholdEvent(0, 0, NEXT, BOTTOM);
    var st' := Handle(t, st, Threshold(e)).0;
    var s' := st'.Now().store;
    assert s'.relevant == map[0 := one];
    assert 0 in s'.relevant && s'.relevant[0] == one;
  }

  lemma LosingCertifies(t: Timing, st: State, one: ProposalValue)
    requires one != BOTTOM && Moved(st, one)
    ensures var (st', acts) := Handle(t, st, Threshold(ThresholdEvent(0, 1, SOFT, one)));
      && Open(st', one) && st'.p.period == 1 && st'.PriorBottom() && st'.Now().Staged(1) == one
      && acts == [Attest(0, 1, CERT, one)]
  {
  }

  lemma LosingDrops(t: Timing, st: State, one: ProposalValue, two: ProposalValue)
    requires Original(one) && Original(two) && one.originalProposer != two.originalProposer
    requires Open(st, one) && st.p.period == 1 && st.PriorBottom() && st.Now().Staged(1) == one
    ensures var st' := Handle(t, st, Proposing(two, 3)).0;
      && st'.p == st.p && st'.PriorBottom() && st'.Now().Staged(1) == one && !st'.Now().store.Assembled(one)
      && st'.Now().Period(1).freezer.proposal == BOTTOM
  {
  }

  lemma LosingVotes(t: Timing, st: State, one: ProposalValue)
    requires st.p.round == 0 && st.p.period == 1 && st.p.step == SOFT && !st.p.napping
    requires st.PriorBottom() && st.Now().Staged(1) == one && !st.Now().store.Assembled(one)
    requires st.Now().Period(1).freezer.proposal == BOTTOM
    ensures var (mid, acts) := Handle(t, st, Timeout(0));
      acts == [] && Handle(t, mid, Timeout(0)).1 == [Attest(0, 1, NEXT, BOTTOM)]
  {
  }

  predicate Certified(st: State, one: ProposalValue) {
    Open(st, one) && st.p.period == 1 && st.PriorBottom() && st.Now().Staged(1) == one
  }

  lemma LosingThird(t: Timing, one: ProposalValue, two: ProposalValue)
    requires Original(one)
    ensures Runnable(t, Initial(t, 0), Losing(one, two)[..3]) && Moved(Run(t, Initial(t, 0), Losing(one, two)[..3]).0, one)
  {
    var evs := Losing(one, two);
    LosingOpens(t, one, two);
    LosingMoves(t, Run(t, Initial(t, 0), evs[..2]).0, one);
    RunSnoc(t, Initial(t, 0), evs[..2], evs[2]);
    assert evs[..3] == evs[..2] + [evs[2]];
  }

  lemma LosingHalf(t: Timing, one: ProposalValue, two: ProposalValue)
    requires Original(one)
    ensures Runnable(t, Initial(t, 0), Losing(one, two)[..4])
    ensures var (st, acts) := Run(t, Initial(t, 0), Losing(one, two)[..4]);
      Certified(st, one) && Attest(0, 1, CERT, one) in acts
  {
    var evs := Losing(one, two);
    LosingThird(t, one, two);
    LosingCertifies(t, Run(t, Initial(t, 0), evs[..3]).0, one);
    RunSnoc(t, Initial(t, 0), evs[..3], evs[3]);
    assert evs[..4] == evs[..3] + [evs[3]];
  }

  lemma LosingRest(t: Timing, st0: State, evs: seq<Event>, one: ProposalValue, two: ProposalValue)
    requires Original(one) && Original(two) && one.originalProposer != two.originalProposer
    requires Runnable(t, st0, evs) && Certified(Run(t, st0, evs).0, one)
    ensures var all := evs + [Proposing(two, 3)] + [Timeout(0)] + [Timeout(0)];
      && Runnable(t, st0, all)
      && Run(t, st0, all).1 == Run(t, st0, evs).1 + [Attest(0, 1, NEXT, BOTTOM)]
  {
    var st4 := Run(t, st0, evs).0;
    var ev := Proposing(two, 3);
    LosingDrops(t, st4, one, two);
    RunSnoc(t, st0, evs, ev);
    LosingVotes(t, Handle(t, st4, ev).0, one);
    TwoTimeouts(t, st0, evs + [ev]);
  }

  lemma TwoTimeouts(t: Timing, st0: State, evs: seq<Event>)
    requires Runnable(t, st0, evs)
    ensures var (st, acts) := Run(t, st0, evs);
      var (mid, more) := Handle(t, st, Timeout(0));
      && Runnable(t, st0, evs + [Timeout(0)] + [Timeout(0)])
      && Run(t, st0, evs + [Timeout(0)] + [Timeout(0)]).1 == acts + more + Handle(t, mid, Timeout(0)).1
  {
    RunSnoc(t, st0, evs, Timeout(0));
    RunSnoc(t, st0, evs + [Timeout(0)], Timeout(0));
  }

  /** Without the condition the lock is lost: in one period the player votes to certify
      a value and then votes bottom in the next step, although no quorum was for any
      other value. */
  lemma LockLost(t: Timing, one: ProposalValue, two: ProposalValue)
    requires Original(one) && Original(two) && one.originalProposer != two.originalProposer
    ensures Runnable(t, Initial(t, 0), Losing(one, two))
    ensures Attest(0, 1, CERT, one) in Run(t, Initial(t, 0), Losing(one, two)).1
    ensures Attest(0, 1, NEXT, BOTTOM) in Run(t, Initial(t, 0), Losing(one, two)).1
  {
    var evs := Losing(one, two);
    LosingHalf(t, one, two);
    LosingRest(t, Initial(t, 0), evs[..4], one, two);
    assert evs == evs[..4] + [evs[4]] + [evs[5]] + [evs[6]];
  }
}
