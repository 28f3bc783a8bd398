/** What every event keeps of a player's state, and that no run of a player contradicts itself. */
module PlayerSafety {
  import opened Options
  import opened AgreementTypes
  import opened Proposals
  import opened Players

  /** Which non-bottom values may reach a next threshold in a round and period. */
  type NextValues = (Round, Period, ProposalValue) -> bool

  /** Any value may. */
  const ANY: NextValues := (r, p, v) => true

  /** At most one value may. */
  ghost predicate Unique(q: NextValues) {
    forall r: Round, p: Period, v: ProposalValue, w: ProposalValue :: q(r, p, v) && q(r, p, w) ==> v == w
  }

  // ---------------------------------------------------------------- the invariant

  /** A quorum event is well formed and agrees with the next-values. */
  predicate Sound(q: NextValues, e: ThresholdEvent) {
    && e.step != PROPOSE
    && (e.step <= CERT ==> e.proposal != BOTTOM)
    && (e.step >= NEXT ==> e.proposal == BOTTOM || q(e.round, e.period, e.proposal))
  }

  predicate SoundEvent(q: NextValues, st: State, ev: Event) {
    Admissible(st, ev) && (ev.Threshold? ==> Sound(q, ev.e))
  }

  /** The freshest quorum is a certificate or at least as late as period p. */
  predicate Covered(f: Option<ThresholdEvent>, p: Period) {
    f.Some? && (f.value.Kind().CertThreshold? || f.value.period >= p)
  }

  predicate PeriodOk(q: NextValues, r: Round, rs: RoundState, p: Period) {
    && (rs.Staged(p) != BOTTOM ==> Covered(rs.freshest, p))
    && (rs.Period(p).cachedProposal == BOTTOM || q(r, p, rs.Period(p).cachedProposal))
  }

  ghost predicate RoundOk(q: NextValues, r: Round, rs: RoundState) {
    && BOTTOM !in rs.store.assemblers
    && (rs.freshest.Some? ==> rs.freshest.value.round == r && Sound(q, rs.freshest.value))
    && (forall p: Period :: PeriodOk(q, r, rs, p))
  }

  predicate PlayerOk(p: Player) {
    p.step >= SOFT && (p.napping ==> p.step > NEXT)
  }

  /** Nothing is staged in a round that the player has not entered. */
  ghost predicate Untouched(rs: RoundState) {
    forall p: Period :: rs.Staged(p) == BOTTOM
  }

  ghost predicate Inv(q: NextValues, st: State) {
    && PlayerOk(st.p)
    && (forall r: Round :: RoundOk(q, r, st.Round(r)))
    && (forall r: Round :: r > st.p.round ==> Untouched(st.Round(r)))
  }

  lemma InitialInv(q: NextValues, t: Timing, r: Round)
    ensures Inv(q, Initial(t, r))
  {
  }

  // ---------------------------------------------------------------- order

  /** How far a player is inside its period. */
  function Rank(p: Player): nat { 2 * p.step + if p.napping then 0 else 1 }

  predicate SamePeriod(a: Player, b: Player) { a.round == b.round && a.period == b.period }

  predicate LaterPeriod(a: Player, b: Player) {
    a.round < b.round || (a.round == b.round && a.period < b.period)
  }

  /** The lexicographic order on (round, period, step), in which waking up counts as
      progress in a step. */
  predicate Onward(a: Player, b: Player) {
    LaterPeriod(a, b) || (SamePeriod(a, b) && Rank(a) <= Rank(b))
  }

  // ---------------------------------------------------------------- attests

  predicate Once(s: Step) { s == SOFT || NEXT <= s < LATE }

  /** The player is past the point where it votes in step s of its period. */
  predicate Voted(p: Player, s: Step) {
    p.step > s || (p.step == s && s >= NEXT && !p.napping)
  }

  /** What the value of an attest may be, by its step. */
  predicate Lawful(q: NextValues, a: Action)
    requires a.Attest?
  {
    && (a.step == SOFT || a.step == CERT || a.step == LATE || a.step == REDO ==> a.proposal != BOTTOM)
    && (a.step == DOWN ==> a.proposal == BOTTOM)
    && (a.step == REDO ==> a.period > 0 && q(a.round, a.period - 1, a.proposal))
    && SOFT <= a.step <= DOWN
  }

  /** An attest made by an event that took a player from st to st'. */
  predicate NewAttest(q: NextValues, st: State, st': State, a: Action)
    requires a.Attest?
  {
    && Lawful(q, a)
    && a.round == st'.p.round && a.period == st'.p.period
    && (a.step == CERT || a.step == LATE ==> a.proposal == st'.Now().Staged(a.period))
    && (Once(a.step) ==> SamePeriod(st.p, st'.p) && !Voted(st.p, a.step) && Voted(st'.p, a.step))
    && (a.step >= NEXT && st.Now().Committable(st.p.period) ==> a.proposal == st.Now().Staged(st.p.period))
  }

  ghost predicate OneAttest(acts: seq<Action>) {
    forall i, j :: 0 <= i < j < |acts| ==> !(acts[i].Attest? && acts[j].Attest?)
  }

  predicate StagedKept(st: State, st': State) {
    SamePeriod(st.p, st'.p) ==>
      st.Now().Staged(st.p.period) == BOTTOM || st'.Now().Staged(st.p.period) == st.Now().Staged(st.p.period)
  }

  ghost predicate GoodStep(q: NextValues, st: State, st': State, acts: seq<Action>) {
    && Inv(q, st')
    && Onward(st.p, st'.p)
    && StagedKept(st, st')
    && OneAttest(acts)
    && (forall a :: a in acts && a.Attest? ==> NewAttest(q, st, st', a))
  }

  // ---------------------------------------------------------------- the small machines

  /** Replacing one round by a good one keeps the invariant. */
  lemma RoundReplaced(q: NextValues, st: State, r: Round, rs: RoundState)
    requires Inv(q, st) && RoundOk(q, r, rs) && (r > st.p.round ==> Untouched(rs))
    ensures Inv(q, st.WithRound(r, rs))
  {
    var st' := st.WithRound(r, rs);
    forall x: Round ensures RoundOk(q, x, st'.Round(x)) && (x > st'.p.round ==> Untouched(st'.Round(x))) {
      if x != r { assert st'.Round(x) == st.Round(x); }
    }
  }

  lemma StoreReplaced(q: NextValues, st: State, r: Round, s: Store)
    requires Inv(q, st) && BOTTOM !in s.assemblers
    ensures Inv(q, st.WithRound(r, st.Round(r).(store := s)))
  {
    var rs := st.Round(r).(store := s);
    assert RoundOk(q, r, st.Round(r));
    forall p: Period ensures PeriodOk(q, r, rs, p) && rs.Staged(p) == st.Round(r).Staged(p) {
      assert PeriodOk(q, r, st.Round(r), p);
    }
    RoundReplaced(q, st, r, rs);
  }

  lemma PeriodReplaced(q: NextValues, r: Round, rs: RoundState, p: Period, t: PeriodState)
    requires RoundOk(q, r, rs)
    requires t.staging == rs.Staged(p) && t.cachedProposal == rs.Period(p).cachedProposal
    ensures RoundOk(q, r, rs.WithPeriod(p, t))
    ensures forall x: Period :: rs.WithPeriod(p, t).Staged(x) == rs.Staged(x)
  {
    forall x: Period ensures PeriodOk(q, r, rs.WithPeriod(p, t), x) && rs.WithPeriod(p, t).Staged(x) == rs.Staged(x) {
      assert PeriodOk(q, r, rs, x);
    }
  }

  // ---------------------------------------------------------------- timeouts

  lemma SoftVoteStep(q: NextValues, t: Timing, st: State)
    requires Inv(q, st) && st.p.step == SOFT
    ensures var (st', acts) := HandleTimeout(t, st, 0); GoodStep(q, st, st', acts)
  {
    var p := st.p;
    var tracker := st.Now().Period(p.period);
    var t' := tracker.(freezer := tracker.freezer.Freeze());
    assert RoundOk(q, p.round, st.Now());
    PeriodReplaced(q, p.round, st.Now(), p.period, t');
    RoundReplaced(q, st, p.round, st.Now().WithPeriod(p.period, t'));
    var (st', acts) := HandleTimeout(t, st, 0);
    MovedPlayer(q, st.WithRound(p.round, st.Now().WithPeriod(p.period, t')), st'.p);
  }

  lemma MovedPlayer(q: NextValues, st: State, p: Player)
    requires Inv(q, st) && PlayerOk(p) && p.round >= st.p.round
    ensures Inv(q, st.(p := p))
  {
    var st' := st.(p := p);
    forall r: Round ensures RoundOk(q, r, st'.Round(r)) && (r > p.round ==> Untouched(st'.Round(r))) {
      assert st'.Round(r) == st.Round(r);
    }
  }

  /** A committable value is not bottom. */
  lemma CommittableStaged(q: NextValues, st: State)
    requires Inv(q, st) && st.Now().Committable(st.p.period)
    ensures st.Now().Staged(st.p.period) != BOTTOM
  {
    assert RoundOk(q, st.p.round, st.Now());
  }

  lemma PriorIsNextValue(q: NextValues, st: State)
    requires Inv(q, st) && st.PriorProposal() != BOTTOM
    ensures st.p.period > 0 && q(st.p.round, st.p.period - 1, st.PriorProposal())
  {
    assert RoundOk(q, st.p.round, st.Now());
    assert PeriodOk(q, st.p.round, st.Now(), st.p.period - 1);
  }

  lemma NextVoteStep(q: NextValues, t: Timing, st: State, entropy: nat)
    requires Inv(q, st) && st.p.step >= CERT && HandleTimeout(t, st, entropy).0.p.step < LATE
    ensures var (st', acts) := HandleTimeout(t, st, entropy); GoodStep(q, st, st', acts)
  {
    var (st', acts) := HandleTimeout(t, st, entropy);
    MovedPlayer(q, st, st'.p);
  }

  lemma FastVoteStep(q: NextValues, st: State, entropy: nat, lambda: nat)
    requires Inv(q, st) && lambda > 0
    ensures var (st', acts) := HandleFastTimeout(st, entropy, lambda); GoodStep(q, st, st', acts)
  {
    var (st', acts) := HandleFastTimeout(st, entropy, lambda);
    MovedPlayer(q, st, st'.p);
    if st'.Now().Committable(st'.p.period) { CommittableStaged(q, st'); }
    if st'.PriorProposal() != BOTTOM { PriorIsNextValue(q, st'); }
  }

  // ---------------------------------------------------------------- proposals and payloads

  lemma ProposalVoteStep(q: NextValues, st: State, v: ProposalVote)
    requires Inv(q, st)
    ensures GoodStep(q, st, HandleProposalVote(st, v), [])
  {
    if ProposalFresh(st.p, v) {
      var rs := st.Round(v.round);
      var (tracker, accepted) := TrackProposal(rs.Period(v.period), v);
      assert RoundOk(q, v.round, rs);
      PeriodReplaced(q, v.round, rs, v.period, tracker);
      var rs' := rs.WithPeriod(v.period, tracker);
      RoundReplaced(q, st, v.round, rs');
      if accepted {
        var mid := st.WithRound(v.round, rs');
        var store := StoreProposal(rs'.store, v, st.p.period);
        StoreReplaced(q, mid, v.round, store);
        assert mid.WithRound(v.round, mid.Round(v.round).(store := store)) == HandleProposalVote(st, v);
      }
    }
  }

  lemma PayloadPresentStep(q: NextValues, st: State, v: ProposalValue, round: Round)
    requires Inv(q, st)
    ensures GoodStep(q, st, HandlePayloadPresent(st, v, round), [])
  {
    var r := if round == st.p.round then st.p.round else st.p.round + 1;
    assert RoundOk(q, r, st.Round(r));
    StoreReplaced(q, st, r, StorePayload(st.Round(r).store, v));
  }

  lemma PayloadVerifiedStep(q: NextValues, st: State, v: ProposalValue)
    requires Inv(q, st) && v != BOTTOM
    ensures var (st', acts) := HandlePayloadVerified(st, v); GoodStep(q, st, st', acts)
  {
    assert RoundOk(q, st.p.round, st.Now());
    var (store, taken) := BindPayload(st.Now().store, v);
    StoreReplaced(q, st, st.p.round, store);
  }

  lemma CollectStep(q: NextValues, st: State)
    requires Inv(q, st)
    ensures GoodStep(q, st, HandleCollect(st), [])
  {
    var st' := HandleCollect(st);
    forall r: Round ensures RoundOk(q, r, st'.Round(r)) && (r > st.p.round ==> Untouched(st'.Round(r))) {
      var rs := st.Round(r);
      assert RoundOk(q, r, rs);
      forall p: Period
        ensures PeriodOk(q, r, st'.Round(r), p) && (r > st.p.round ==> st'.Round(r).Staged(p) == BOTTOM)
      {
        assert PeriodOk(q, r, rs, p);
        assert r > st.p.round ==> rs.Staged(p) == BOTTOM;
      }
    }
  }

  // ---------------------------------------------------------------- thresholds

  /** The event the player is about to handle is the freshest of its round, and a soft
      quorum is the first one staged for its period. */
  predicate Newest(q: NextValues, st: State, e: ThresholdEvent) {
    && e.round == st.p.round
    && Sound(q, e)
    && st.Now().freshest == Some(e)
    && (e.Kind().SoftThreshold? ==> st.Now().Staged(e.period) == BOTTOM)
  }

  lemma StageSoftInv(q: NextValues, st: State, e: ThresholdEvent)
    requires Inv(q, st) && Newest(q, st, e) && e.Kind().SoftThreshold?
    ensures var (st', committable) := StageSoft(st, e);
      && Inv(q, st') && st'.p == st.p && st'.Now().Staged(e.period) == e.proposal
  {
    var rs := st.Now();
    var t := rs.Period(e.period).(staging := e.proposal);
    var staged := rs.WithPeriod(e.period, t);
    assert RoundOk(q, e.round, rs);
    forall x: Period ensures PeriodOk(q, e.round, staged, x) {
      assert PeriodOk(q, e.round, rs, x);
    }
    RoundReplaced(q, st, e.round, staged);
    var (store, committable) := SoftReached(staged.store, e.proposal, e.period, st.p.period);
    var mid := st.WithRound(e.round, staged);
    StoreReplaced(q, mid, e.round, store);
    assert mid.WithRound(e.round, mid.Round(e.round).(store := store)) == StageSoft(st, e).0;
  }

  lemma OpenNextInv(q: NextValues, st: State, e: ThresholdEvent, target: Period)
    requires Inv(q, st) && Newest(q, st, e)
    ensures Inv(q, OpenNext(st, e, target)) && Newest(q, OpenNext(st, e, target), e)
  {
    var rs := st.Now();
    StoreReplaced(q, st, e.round, OpenPeriod(rs.store, e.proposal, rs.Staged(st.p.period), target, st.p.period));
  }

  ghost predicate OnlyCert(acts: seq<Action>) {
    forall a :: a in acts && a.Attest? ==> a.step == CERT
  }

  lemma EnterPeriodStep(q: NextValues, t: Timing, st: State, e: ThresholdEvent, target: Period)
    requires Inv(q, st) && Newest(q, st, e) && target > st.p.period
    requires !e.Kind().CertThreshold?
    requires e.Kind().SoftThreshold? ==> target == e.period
    ensures var (st', acts) := EnterPeriod(t, st, e, target); GoodStep(q, st, st', acts) && OnlyCert(acts)
  {
    OpenNextInv(q, st, e, target);
    var advanced := OpenNext(st, e, target);
    if e.Kind().SoftThreshold? { StageSoftInv(q, advanced, e); }
    var staged := if e.Kind().SoftThreshold? then StageSoft(advanced, e).0 else advanced;
    MovedPlayer(q, staged, MovedTo(t, st.p, st.p.round, target));
  }

  lemma ThresholdStep(q: NextValues, t: Timing, st: State, e: ThresholdEvent)
    requires Inv(q, st) && Newest(q, st, e)
    ensures var (st', acts) := HandleThreshold(t, st, e); GoodStep(q, st, st', acts) && OnlyCert(acts)
    decreases |st.Ahead()|, 1
  {
    if e.Kind().CertThreshold? {
      EnterRoundStep(q, t, st, st.p.round + 1);
    } else {
      PeriodThresholdStep(q, t, st, e);
    }
  }

  lemma PeriodThresholdStep(q: NextValues, t: Timing, st: State, e: ThresholdEvent)
    requires Inv(q, st) && Newest(q, st, e) && !e.Kind().CertThreshold?
    ensures var (st', acts) := HandleThreshold(t, st, e); GoodStep(q, st, st', acts) && OnlyCert(acts)
  {
    if st.p.period >= e.period + 1 {
    } else if e.Kind().SoftThreshold? && st.p.period == e.period {
      StageSoftInv(q, st, e);
    } else if e.Kind().SoftThreshold? {
      EnterPeriodStep(q, t, st, e, e.period);
    } else {
      EnterPeriodStep(q, t, st, e, e.period + 1);
    }
  }

  lemma EnterRoundStep(q: NextValues, t: Timing, st: State, target: Round)
    requires Inv(q, st) && target > st.p.round
    ensures var (st', acts) := EnterRound(t, st, target);
      GoodStep(q, st, st', acts) && OnlyCert(acts) && st'.p.round >= target
    decreases |st.Ahead()|, 0
  {
    var mid := st.(p := MovedTo(t, st.p, target, 0));
    MovedPlayer(q, st, mid.p);
    assert RoundOk(q, target, st.Round(target));
    match st.Round(target).freshest
    case None =>
    case Some(e) =>
      AheadShrinks(st, mid);
      ThresholdStep(q, t, mid, e);
  }

  lemma QuorumStep(q: NextValues, t: Timing, st: State, e: ThresholdEvent)
    requires Inv(q, st) && Sound(q, e)
    ensures var (st', acts) := HandleQuorum(t, st, e); GoodStep(q, st, st', acts)
  {
    if Fresh(st.p, e) {
      var (rs, fresher) := NoteQuorum(st.Round(e.round), e);
      NoteQuorumOk(q, st.Round(e.round), e);
      RoundReplaced(q, st, e.round, rs);
      var noted := st.WithRound(e.round, rs);
      if fresher && e.round == st.p.round {
        ThresholdStep(q, t, noted, e);
      }
    }
  }

  lemma NoteQuorumOk(q: NextValues, rs: RoundState, e: ThresholdEvent)
    requires RoundOk(q, e.round, rs) && Sound(q, e)
    ensures var (rs', fresher) := NoteQuorum(rs, e);
      && RoundOk(q, e.round, rs')
      && (forall p: Period :: rs'.Staged(p) == rs.Staged(p))
      && (fresher ==> rs'.freshest == Some(e))
      && (fresher && e.Kind().SoftThreshold? ==> rs.Staged(e.period) == BOTTOM)
  {
    var (rs', fresher) := NoteQuorum(rs, e);
    assert PeriodOk(q, e.round, rs, e.period);
    forall p: Period ensures PeriodOk(q, e.round, rs', p) && rs'.Staged(p) == rs.Staged(p) {
      assert PeriodOk(q, e.round, rs, p);
    }
  }

  /** Every event keeps the invariant, moves the player onward, keeps what is staged and
      makes at most one attest, which is lawful and new. */
  lemma HandleStep(q: NextValues, t: Timing, st: State, ev: Event)
    requires Inv(q, st) && SoundEvent(q, st, ev) && (ev.Timeout? ==> Handle(t, st, ev).0.p.step < LATE)
    ensures var (st', acts) := Handle(t, st, ev); GoodStep(q, st, st', acts)
  {
    match ev
    case Timeout(entropy) =>
      if st.p.step == SOFT { SoftVoteStep(q, t, st); } else { NextVoteStep(q, t, st, entropy); }
    case FastTimeout(entropy, lambda) => FastVoteStep(q, st, entropy, lambda);
    case ProposalVoteVerified(v) => ProposalVoteStep(q, st, v);
    case PayloadPresent(v, round) => PayloadPresentStep(q, st, v, round);
    case PayloadVerified(v) => PayloadVerifiedStep(q, st, v);
    case Threshold(e) => QuorumStep(q, t, st, e);
    case RoundInterruption(target) => EnterRoundStep(q, t, st, target);
    case Checkpoint =>
    case Collect => CollectStep(q, st);
  }

  /** Without the step bound, everything but the attests. */
  lemma HandleKeeps(q: NextValues, t: Timing, st: State, ev: Event)
    requires Inv(q, st) && SoundEvent(q, st, ev)
    ensures var st' := Handle(t, st, ev).0; Inv(q, st') && Onward(st.p, st'.p) && StagedKept(st, st')
  {
    var st' := Handle(t, st, ev).0;
    if ev.Timeout? && st'.p.step >= LATE {
      MovedPlayer(q, st, st'.p);
    } else {
      HandleStep(q, t, st, ev);
    }
  }

  // ---------------------------------------------------------------- runs

  /** Each event is admissible when it arrives. */
  predicate Runnable(t: Timing, st: State, evs: seq<Event>)
    decreases |evs|, 0
  {
    evs == [] ||
    (Runnable(t, st, evs[..|evs| - 1]) && Admissible(Run(t, st, evs[..|evs| - 1]).0, evs[|evs| - 1]))
  }

  /** The state after a series of events, and everything the player did on the way. */
  function Run(t: Timing, st: State, evs: seq<Event>): (State, seq<Action>)
    requires Runnable(t, st, evs)
    decreases |evs|, 1
  {
    if evs == [] then (st, [])
    else
      var (mid, acts) := Run(t, st, evs[..|evs| - 1]);
      var (st', more) := Handle(t, mid, evs[|evs| - 1]);
      (st', acts + more)
  }

  lemma RunSnoc(t: Timing, st: State, evs: seq<Event>, ev: Event)
    requires Runnable(t, st, evs) && Admissible(Run(t, st, evs).0, ev)
    ensures Runnable(t, st, evs + [ev])
    ensures var (mid, acts) := Run(t, st, evs);
      var (st', more) := Handle(t, mid, ev);
      Run(t, st, evs + [ev]) == (st', acts + more)
  {
    assert (evs + [ev])[..|evs + [ev]| - 1] == evs;
  }

  /** The player stays below the steps reserved for fast recovery. */
  predicate StepsBounded(t: Timing, st: State, evs: seq<Event>)
    requires Runnable(t, st, evs)
    decreases |evs|
  {
    && Run(t, st, evs).0.p.step < LATE
    && (evs == [] || StepsBounded(t, st, evs[..|evs| - 1]))
  }

  /** In no round and period do two different non-bottom values reach a next threshold. */
  ghost predicate NextUnanimous(evs: seq<Event>) {
    forall a: ThresholdEvent, b: ThresholdEvent ::
      Threshold(a) in evs && Threshold(b) in evs && NextRivals(a, b) ==> a.proposal == b.proposal
  }

  predicate NextRivals(a: ThresholdEvent, b: ThresholdEvent) {
    && a.round == b.round && a.period == b.period
    && a.step >= NEXT && b.step >= NEXT
    && a.proposal != BOTTOM && b.proposal != BOTTOM
  }

  ghost function NextValuesIn(evs: seq<Event>): NextValues {
    (r: Round, p: Period, v: ProposalValue) => exists e: ThresholdEvent :: NextQuorum(evs, e, r, p, v)
  }

  predicate NextQuorum(evs: seq<Event>, e: ThresholdEvent, r: Round, p: Period, v: ProposalValue) {
    Threshold(e) in evs && e.round == r && e.period == p && e.step >= NEXT && v != BOTTOM && e.proposal == v
  }

  /** What the value of a redo or down vote is follows from the quorums alone. */
  predicate Forced(s: Step) { s == REDO || s == DOWN }

  /** What is remembered of an attest once it is made. */
  predicate Remembered(q: NextValues, st: State, a: Action)
    requires a.Attest?
  {
    Lawful(q, a) && (Forced(a.step) || Bound(st, a))
  }

  predicate Bound(st: State, a: Action)
    requires a.Attest?
  {
    && (a.round < st.p.round || (a.round == st.p.round && a.period <= st.p.period))
    && (a.round == st.p.round && a.period == st.p.period ==>
          && (a.step == CERT || a.step == LATE ==> a.proposal == st.Now().Staged(a.period))
          && (Once(a.step) ==> Voted(st.p, a.step)))
  }

  /** Two attests of one step of one period are for one value. */
  predicate Agree(a: Action, b: Action)
    requires a.Attest? && b.Attest?
  {
    a.round == b.round && a.period == b.period && a.step == b.step ==> a.proposal == b.proposal
  }

  function ActsOf(acts: seq<Action>): set<Action> { set a | a in acts }

  ghost predicate Consistent(acts: set<Action>) {
    forall a, b :: a in acts && b in acts && a.Attest? && b.Attest? ==> Agree(a, b)
  }

  lemma RememberedStep(q: NextValues, st: State, st': State, acts: seq<Action>, a: Action)
    requires GoodStep(q, st, st', acts) && a.Attest?
    requires Remembered(q, st, a)
    ensures Remembered(q, st', a)
  {
  }

  lemma NewRemembered(q: NextValues, st: State, st': State, a: Action)
    requires a.Attest? && NewAttest(q, st, st', a)
    ensures Remembered(q, st', a)
  {
  }

  lemma NewAgrees(q: NextValues, st: State, st': State, acts: seq<Action>, a: Action, b: Action)
    requires GoodStep(q, st, st', acts) && a.Attest? && b.Attest? && Unique(q)
    requires Remembered(q, st, a) && NewAttest(q, st, st', b)
    ensures Agree(a, b)
  {
    RememberedStep(q, st, st', acts, a);
  }

  /** What a whole run of a player keeps. */
  ghost predicate GoodRun(q: NextValues, st: State, acts: set<Action>) {
    && Inv(q, st)
    && Consistent(acts)
    && (forall a :: a in acts && a.Attest? ==> Remembered(q, st, a))
  }

  lemma GoodRunStep(q: NextValues, st: State, acts: set<Action>, st': State, more: seq<Action>)
    requires Unique(q) && GoodRun(q, st, acts) && GoodStep(q, st, st', more)
    ensures GoodRun(q, st', acts + ActsOf(more))
  {
    forall a | a in acts + ActsOf(more) && a.Attest? ensures Remembered(q, st', a) {
      if a in acts { RememberedStep(q, st, st', more, a); } else { NewRemembered(q, st, st', a); }
    }
    forall a, b | a in acts + ActsOf(more) && b in acts + ActsOf(more) && a.Attest? && b.Attest? ensures Agree(a, b) {
      if a in acts && b !in acts { NewAgrees(q, st, st', more, a, b); }
      if b in acts && a !in acts { NewAgrees(q, st, st', more, b, a); }
      if a !in acts && b !in acts { assert a == b; }
    }
  }

  lemma {:induction false} RunKeeps(q: NextValues, t: Timing, st: State, evs: seq<Event>)
    requires Unique(q) && Inv(q, st) && Runnable(t, st, evs) && StepsBounded(t, st, evs)
    requires forall e :: Threshold(e) in evs ==> Sound(q, e)
    ensures var (st', acts) := Run(t, st, evs); GoodRun(q, st', ActsOf(acts)) && Onward(st.p, st'.p)
  {
    if evs != [] {
      var head, ev := evs[..|evs| - 1], evs[|evs| - 1];
      assert evs == head + [ev];
      RunKeeps(q, t, st, head);
      var (mid, acts) := Run(t, st, head);
      assert ev in evs;
      HandleStep(q, t, mid, ev);
      var (st', more) := Handle(t, mid, ev);
      GoodRunStep(q, mid, ActsOf(acts), st', more);
      assert ActsOf(acts + more) == ActsOf(acts) + ActsOf(more);
    }
  }

  lemma {:induction false} AdmissibleInRun(t: Timing, st: State, evs: seq<Event>, e: ThresholdEvent)
    requires Runnable(t, st, evs) && Threshold(e) in evs
    ensures e.step != PROPOSE && (e.step <= CERT ==> e.proposal != BOTTOM)
  {
    var head, ev := evs[..|evs| - 1], evs[|evs| - 1];
    assert evs == head + [ev];
    if Threshold(e) in head { AdmissibleInRun(t, st, head, e); }
  }

  lemma UnanimousIsUnique(evs: seq<Event>)
    requires NextUnanimous(evs)
    ensures Unique(NextValuesIn(evs))
  {
    var q := NextValuesIn(evs);
    forall r: Round, p: Period, v: ProposalValue, w: ProposalValue | q(r, p, v) && q(r, p, w) ensures v == w {
      var a :| NextQuorum(evs, a, r, p, v);
      var b :| NextQuorum(evs, b, r, p, w);
      assert NextRivals(a, b);
    }
  }

  lemma GoodRunMeans(q: NextValues, st: State, acts: seq<Action>)
    requires GoodRun(q, st, ActsOf(acts))
    ensures forall a, b :: a in acts && b in acts && a.Attest? && b.Attest? ==> Agree(a, b)
    ensures forall a :: a in acts && a.Attest? && a.step in {SOFT, CERT, LATE, REDO} ==> a.proposal != BOTTOM
    ensures forall a :: a in acts && a.Attest? && a.step == DOWN ==> a.proposal == BOTTOM
  {
    forall a | a in acts && a.Attest? ensures Lawful(q, a) {
      assert a in ActsOf(acts);
      assert Remembered(q, st, a);
    }
    forall a, b | a in acts && b in acts && a.Attest? && b.Attest? ensures Agree(a, b) {
      assert a in ActsOf(acts) && b in ActsOf(acts);
    }
  }

  /** Along every run of a player, for any order of timeouts, proposals, payloads, quorums
      and interruptions: all attests of one round, period and step name one value; soft,
      cert, late and redo votes are never for bottom and down votes always are. */
  lemma NoSelfContradiction(t: Timing, r: Round, evs: seq<Event>)
    requires Runnable(t, Initial(t, r), evs) && StepsBounded(t, Initial(t, r), evs)
    requires NextUnanimous(evs)
    ensures var acts := Run(t, Initial(t, r), evs).1;
      && (forall a, b :: a in acts && b in acts && a.Attest? && b.Attest? ==> Agree(a, b))
      && (forall a :: a in acts && a.Attest? && a.step in {SOFT, CERT, LATE, REDO} ==> a.proposal != BOTTOM)
      && (forall a :: a in acts && a.Attest? && a.step == DOWN ==> a.proposal == BOTTOM)
  {
    var q := NextValuesIn(evs);
    forall e | Threshold(e) in evs ensures Sound(q, e) {
      AdmissibleInRun(t, Initial(t, r), evs, e);
      assert e.step >= NEXT && e.proposal != BOTTOM ==> NextQuorum(evs, e, e.round, e.period, e.proposal);
    }
    UnanimousIsUnique(evs);
    InitialInv(q, t, r);
    RunKeeps(q, t, Initial(t, r), evs);
    var (st, acts) := Run(t, Initial(t, r), evs);
    GoodRunMeans(q, st, acts);
  }
}
