/** The player: a step machine over (round, period, step) that decides what to vote for. */
module Players {
  import opened Options
  import opened Weights
  import opened AgreementTypes
  import opened Proposals

  // ---------------------------------------------------------------- timing

  /** The two durations of the protocol's configuration, in any unit. */
  datatype Timing = Timing(small: nat, big: nat)
  {
    function Filter(): nat { 2 * small }
    function Deadline(): nat { big + small }
    function Extra(): nat { small }
  }

  function Pow2(n: nat): nat {
    if n == 0 then 1 else 2 * Pow2(n - 1)
  }

  /** When the next-vote of step s may be cast at the earliest, and when the step ends. */
  function Lower(t: Timing, s: Step): nat {
    if s < NEXT then t.Deadline() else t.Deadline() + t.Extra() * (Pow2(s - NEXT) - 1)
  }

  function Upper(t: Timing, s: Step): nat {
    if s < NEXT then t.Deadline() + t.Extra() else t.Deadline() + t.Extra() * (Pow2(s - NEXT + 1) - 1)
  }

  // ---------------------------------------------------------------- state

  datatype Kind = SoftThreshold | CertThreshold | NextThreshold

  /** A quorum that a vote tracker has seen. */
  datatype ThresholdEvent = ThresholdEvent(round: Round, period: Period, step: Step, proposal: ProposalValue)
  {
    function Kind(): Kind {
      if step == SOFT then SoftThreshold else if step == CERT then CertThreshold else NextThreshold
    }

    predicate FresherThan(o: ThresholdEvent) {
      if o.Kind().CertThreshold? then false
      else match Kind()
           case SoftThreshold => period > o.period
           case CertThreshold => true
           case NextThreshold =>
             if period > o.period then true
             else if period < o.period then false
             else if o.Kind().SoftThreshold? then true
             else proposal == BOTTOM && o.proposal != BOTTOM
    }
  }

  datatype Player = Player(
    round: Round,
    period: Period,
    step: Step,
    lastConcluding: Step,
    deadline: nat,
    napping: bool,
    fastRecoveryDeadline: nat)

  /** The state machines of one round below the player. */
  datatype RoundState = RoundState(
    store: Store,
    freshest: Option<ThresholdEvent>,
    periods: map<Period, PeriodState>)
  {
    function Period(p: Period): PeriodState {
      if p in periods then periods[p] else FRESH_PERIOD
    }

    function WithPeriod(p: Period, t: PeriodState): RoundState {
      this.(periods := periods[p := t])
    }

    /** The staged value of a period, and whether its payload is here. */
    function Staged(p: Period): ProposalValue { Period(p).staging }

    predicate Committable(p: Period) { store.Assembled(Staged(p)) }
  }

  const FRESH_ROUND := RoundState(FRESH_STORE, None, map[])

  datatype State = State(p: Player, rounds: map<Round, RoundState>)
  {
    function Round(r: Round): RoundState {
      if r in rounds then rounds[r] else FRESH_ROUND
    }

    function WithRound(r: Round, s: RoundState): State {
      this.(rounds := rounds[r := s])
    }

    /** The current round. */
    function Now(): RoundState { Round(p.round) }

    /** What the current round knows of next-thresholds in the period before the
        current one; there is none before period 0. */
    function PriorBottom(): bool {
      p.period > 0 && Now().Period(p.period - 1).cachedBottom
    }

    function PriorProposal(): ProposalValue {
      if p.period > 0 then Now().Period(p.period - 1).cachedProposal else BOTTOM
    }

    /** The rounds after the player's that have state. */
    function Ahead(): set<Round> {
      set r | r in rounds && r > p.round
    }
  }

  /** The actions that change what others or the disk see; messages that are relayed and
      checks that are requested are not among them. */
  datatype Action =
    | Attest(round: Round, period: Period, step: Step, proposal: ProposalValue)
    | Assemble(round: Round, period: Period)
    | Repropose(round: Round, period: Period, proposal: ProposalValue)
    | Ensure(round: Round, period: Period, proposal: ProposalValue, payloadOk: bool)
    | Rezero(round: Round)

  datatype Event =
    | Timeout(entropy: nat)
    | FastTimeout(entropy: nat, lambda: nat)
    | ProposalVoteVerified(vote: ProposalVote)
    | PayloadPresent(value: ProposalValue, round: Round)
    | PayloadVerified(value: ProposalValue)
    | Threshold(e: ThresholdEvent)
    | RoundInterruption(target: Round)
    | Checkpoint
    | Collect

  // ---------------------------------------------------------------- timeouts

  function IssueSoftVote(t: Timing, st: State): (State, seq<Action>) {
    var p := st.p;
    var frozen := st.Now().Period(p.period).freezer.proposal;
    var tracker := st.Now().Period(p.period);
    var st' := st.WithRound(p.round, st.Now().WithPeriod(p.period, tracker.(freezer := tracker.freezer.Freeze())))
                 .(p := p.(deadline := t.Deadline()));
    if p.period > 0 && !st.PriorBottom() && st.PriorProposal() != BOTTOM then
      (st', [Attest(p.round, p.period, SOFT, st.PriorProposal())])
    else if frozen == BOTTOM then (st', [])
    else if p.period > frozen.originalPeriod then
      (st', if st.PriorProposal() != BOTTOM && st.PriorProposal() == frozen
            then [Attest(p.round, p.period, SOFT, frozen)] else [])
    else (st', [Attest(p.round, p.period, SOFT, frozen)])
  }

  function NextVoteValue(st: State): ProposalValue {
    if st.Now().Committable(st.p.period) then st.Now().Staged(st.p.period)
    else if !st.PriorBottom() then st.PriorProposal()
    else BOTTOM
  }

  function IssueNextVote(t: Timing, st: State): (State, seq<Action>) {
    (st.(p := st.p.(napping := false, deadline := Upper(t, st.p.step))),
     [Attest(st.p.round, st.p.period, st.p.step, NextVoteValue(st))])
  }

  function FastVote(st: State): Action {
    var p := st.p;
    var (step, proposal) :=
      if st.Now().Committable(p.period) then (LATE, st.Now().Staged(p.period))
      else if !st.PriorBottom() then (REDO, st.PriorProposal())
      else (DOWN, BOTTOM);
    Attest(p.round, p.period, if proposal == BOTTOM then DOWN else step, proposal)
  }

  function HandleTimeout(t: Timing, st: State, entropy: nat): (State, seq<Action>) {
    if st.p.step == SOFT then
      var (st', a) := IssueSoftVote(t, st);
      (st'.(p := st'.p.(step := CERT)), a)
    else if st.p.step == CERT then
      IssueNextVote(t, st.(p := st.p.(step := NEXT)))
    else if st.p.napping then IssueNextVote(t, st)
    else
      var s := st.p.step + 1;
      var width := Upper(t, s) - Lower(t, s);
      var delta := if width > 0 then entropy % width else 0;
      (st.(p := st.p.(step := s, napping := true, deadline := Lower(t, s) + delta)), [])
  }

  function HandleFastTimeout(st: State, entropy: nat, lambda: nat): (State, seq<Action>)
    requires lambda > 0
  {
    var k := (st.p.fastRecoveryDeadline + lambda - 1) / lambda;
    var lower := k * lambda;
    var delta := entropy % lambda;
    if st.p.fastRecoveryDeadline == 0 then
      (st.(p := st.p.(fastRecoveryDeadline := lower + delta + lambda)), [])
    else
      var st' := st.(p := st.p.(fastRecoveryDeadline := lower + delta));
      (st', [FastVote(st')])
  }

  // ---------------------------------------------------------------- thresholds

  function CertVote(st: State, v: ProposalValue): Action {
    Attest(st.p.round, st.p.period, CERT, v)
  }

  /** The proposal machine learns of a soft threshold for the player's round. */
  function StageSoft(st: State, e: ThresholdEvent): (State, bool) {
    var rs := st.Round(e.round);
    var staged := rs.WithPeriod(e.period, rs.Period(e.period).(staging := e.proposal));
    var (store, committable) := SoftReached(staged.store, e.proposal, e.period, st.p.period);
    (st.WithRound(e.round, staged.(store := store)), committable)
  }

  function OpenNext(st: State, e: ThresholdEvent, target: Period): State {
    var rs := st.Round(e.round);
    st.WithRound(e.round, rs.(store := OpenPeriod(rs.store, e.proposal, st.Now().Staged(st.p.period), target, st.p.period)))
  }

  function MovedTo(t: Timing, p: Player, round: Round, period: Period): Player {
    Player(round, period, SOFT, p.step, t.Filter(), false, 0)
  }

  function EnterPeriod(t: Timing, st: State, e: ThresholdEvent, target: Period): (State, seq<Action>) {
    var advanced := OpenNext(st, e, target);
    var (staged, committable) :=
      if e.Kind().SoftThreshold? then StageSoft(advanced, e) else (advanced, false);
    var st' := staged.(p := MovedTo(t, st.p, st.p.round, target));
    var rezero := [Rezero(st.p.round)];
    if committable then (st', rezero + [CertVote(st', e.proposal)])
    else if e.Kind().NextThreshold? then
      if e.proposal == BOTTOM then (st', rezero + [Assemble(st'.p.round, target)])
      else (st', rezero + [Repropose(st'.p.round, target, e.proposal)])
    else (st', rezero)
  }

  /** A threshold event that reaches the player. */
  function HandleThreshold(t: Timing, st: State, e: ThresholdEvent): (State, seq<Action>)
    decreases |st.Ahead()|, 1
  {
    if e.Kind().CertThreshold? then
      var rs := st.Round(e.round);
      var ensured := Ensure(e.round, e.period, e.proposal, rs.Committable(e.period));
      var (st', a) := EnterRound(t, st, st.p.round + 1);
      (st', [ensured] + a)
    else if st.p.period >= e.period + 1 then (st, [])
    else if e.Kind().SoftThreshold? then
      if st.p.period == e.period then
        var (st', committable) := StageSoft(st, e);
        (st', if committable && st.p.step <= CERT then [CertVote(st', e.proposal)] else [])
      else EnterPeriod(t, st, e, e.period)
    else EnterPeriod(t, st, e, e.period + 1)
  }

  /** A new round; a quorum already seen for it is handled at once. */
  function EnterRound(t: Timing, st: State, target: Round): (State, seq<Action>)
    requires target > st.p.round
    decreases |st.Ahead()|, 0
  {
    var st' := st.(p := MovedTo(t, st.p, target, 0));
    var start := [Rezero(target), Assemble(target, 0)];
    match st.Round(target).freshest
    case None => (st', start)
    case Some(e) =>
      AheadShrinks(st, st');
      var (st'', a) := HandleThreshold(t, st', e);
      (st'', start + a)
  }

  lemma AheadShrinks(st: State, st': State)
    requires st'.rounds == st.rounds && st'.p.round > st.p.round && st'.p.round in st.rounds
    ensures |st'.Ahead()| < |st.Ahead()|
  {
    assert st'.p.round in st.Ahead();
    SubsetSize(st'.Ahead(), st.Ahead() - {st'.p.round});
  }

  // ---------------------------------------------------------------- messages

  /** The freshness rules under which a vote or a bundle is counted at all. */
  predicate Fresh(p: Player, e: ThresholdEvent) {
    if e.round == p.round then p.period == 0 || p.period - 1 <= e.period
    else e.round == p.round + 1 && e.period == 0
  }

  /** The vote machines of a round note a quorum: the round's new state, and whether
      the quorum is the freshest so far. */
  function NoteQuorum(rs: RoundState, e: ThresholdEvent): (RoundState, bool) {
    var cached :=
      if e.step < NEXT then rs
      else if e.proposal == BOTTOM then rs.WithPeriod(e.period, rs.Period(e.period).(cachedBottom := true))
      else rs.WithPeriod(e.period, rs.Period(e.period).(cachedProposal := e.proposal));
    if rs.freshest.None? || e.FresherThan(rs.freshest.value) then (cached.(freshest := Some(e)), true)
    else (cached, false)
  }

  function HandleQuorum(t: Timing, st: State, e: ThresholdEvent): (State, seq<Action>) {
    if !Fresh(st.p, e) then (st, [])
    else
      var (rs, fresher) := NoteQuorum(st.Round(e.round), e);
      var noted := st.WithRound(e.round, rs);
      if fresher && e.round == st.p.round then HandleThreshold(t, noted, e) else (noted, [])
  }

  predicate ProposalFresh(p: Player, v: ProposalVote) {
    if v.round == p.round then (p.period == 0 || p.period - 1 <= v.period) && v.period <= p.period + 1
    else v.round == p.round + 1 && v.period == 0
  }

  function HandleProposalVote(st: State, v: ProposalVote): State {
    if !ProposalFresh(st.p, v) then st
    else
      var rs := st.Round(v.round);
      var (tracker, accepted) := TrackProposal(rs.Period(v.period), v);
      var rs' := rs.WithPeriod(v.period, tracker);
      st.WithRound(v.round, if accepted then rs'.(store := StoreProposal(rs'.store, v, st.p.period)) else rs')
  }

  function HandlePayloadPresent(st: State, v: ProposalValue, round: Round): State {
    var r := if round == st.p.round then st.p.round else st.p.round + 1;
    st.WithRound(r, st.Round(r).(store := StorePayload(st.Round(r).store, v)))
  }

  function HandlePayloadVerified(st: State, v: ProposalValue): (State, seq<Action>) {
    var (store, taken) := BindPayload(st.Now().store, v);
    var st' := st.WithRound(st.p.round, st.Now().(store := store));
    (st', if taken && st.Now().Staged(st.p.period) == v && st.p.step <= CERT then [CertVote(st', v)] else [])
  }

  /** Garbage collection of old rounds and periods, which any dispatch may do. */
  function HandleCollect(st: State): State {
    st.(rounds := map r | r in st.rounds && r >= st.p.round ::
      st.rounds[r].(periods := map q | q in st.rounds[r].periods && (q + 1 >= st.p.period || q <= 1) :: st.rounds[r].periods[q]))
  }

  function Handle(t: Timing, st: State, ev: Event): (State, seq<Action>)
    requires Admissible(st, ev)
  {
    match ev
    case Timeout(entropy) => HandleTimeout(t, st, entropy)
    case FastTimeout(entropy, lambda) => HandleFastTimeout(st, entropy, lambda)
    case ProposalVoteVerified(v) => (HandleProposalVote(st, v), [])
    case PayloadPresent(v, round) => (HandlePayloadPresent(st, v, round), [])
    case PayloadVerified(v) => HandlePayloadVerified(st, v)
    case Threshold(e) => HandleQuorum(t, st, e)
    case RoundInterruption(target) => EnterRound(t, st, target)
    case Checkpoint => (st, [])
    case Collect => (HandleCollect(st), [])
  }

  /** What verification lets through: a value from no later period than the vote's, and
      from the sender if it was first proposed in that period. */
  predicate Genuine(v: ProposalVote) {
    && v.proposal != BOTTOM && v.proposal.originalPeriod <= v.period
    && (v.proposal.originalPeriod == v.period ==> v.proposal.originalProposer == v.sender)
  }

  /** What the rest of the node guarantees about an event: a positive recovery interval,
      genuine proposal-votes, payloads that are not bottom, soft and cert quorums that are
      not bottom and of a vote step, and an interruption only by a later round. */
  predicate Admissible(st: State, ev: Event) {
    match ev
    case FastTimeout(_, lambda) => lambda > 0
    case ProposalVoteVerified(v) => Genuine(v)
    case PayloadPresent(v, _) => v != BOTTOM
    case PayloadVerified(v) => v != BOTTOM
    case Threshold(e) => e.step != PROPOSE && (e.step <= CERT ==> e.proposal != BOTTOM)
    case RoundInterruption(target) => target > st.p.round
    case _ => true
  }

  /** A player that has just started at a round with nothing on disk. */
  function Initial(t: Timing, round: Round): State {
    State(Player(round, 0, SOFT, PROPOSE, t.Filter(), false, 0), map[])
  }
}
