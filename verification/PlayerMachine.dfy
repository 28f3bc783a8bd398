/** The player and the proposal store as objects that update their fields, against the
    functions that specify them. */
module PlayerMachine {
  import opened AgreementTypes
  import opened Proposals
  import opened Players
  import opened PlayerProgress

  /** The proposal store of a round. */
  class ProposalStore {
    var relevant: map<Period, ProposalValue>
    var pinned: ProposalValue
    var assemblers: map<ProposalValue, Assembler>

    function Model(): Store
      reads this
    {
      Store(relevant, pinned, assemblers)
    }

    constructor ()
      ensures Model() == FRESH_STORE
    {
      relevant, pinned, assemblers := map[], BOTTOM, map[];
    }

    /** The store as it was left. */
    constructor Load(s: Store)
      ensures Model() == s
    {
      relevant, pinned, assemblers := s.relevant, s.pinned, s.assemblers;
    }

    method Trim(now: Period)
      modifies this
      ensures Model() == old(Model()).Trim(now)
    {
      assemblers := Rebuild(Model(), now);
    }

    method TakeVote(v: ProposalVote, now: Period)
      modifies this
      ensures Model() == StoreProposal(old(Model()), v, now)
    {
      var ea := if v.proposal in assemblers then assemblers[v.proposal] else FRESH_ASSEMBLER;
      ea := ea.(authenticators := ea.authenticators + [Authenticator(v.sender, v.period)]);
      assemblers := assemblers[v.proposal := ea];
      relevant := relevant[v.period := v.proposal];
      Trim(now);
    }

    method KeepPayload(v: ProposalValue)
      modifies this
      ensures Model() == StorePayload(old(Model()), v)
    {
      if v !in assemblers { return; }
      match assemblers[v].Pipeline()
      case None =>
      case Some(ea) => assemblers := assemblers[v := ea];
    }

    method TakePayload(v: ProposalValue) returns (taken: bool)
      modifies this
      ensures Model() == BindPayload(old(Model()), v).0 && taken == BindPayload(old(Model()), v).1
    {
      if v !in assemblers { return false; }
      match assemblers[v].Bind()
      case None => return false;
      case Some(ea) =>
        assemblers := assemblers[v := ea];
        return true;
    }

    method NewPeriod(starting: ProposalValue, staged: ProposalValue, target: Period, now: Period)
      modifies this
      ensures Model() == OpenPeriod(old(Model()), starting, staged, target, now)
    {
      if starting != BOTTOM {
        pinned := starting;
      } else if staged != BOTTOM {
        pinned := staged;
      }
      relevant := DropOld(relevant, target);
      Trim(now);
    }

    method SoftThreshold(v: ProposalValue, p: Period, now: Period) returns (committable: bool)
      modifies this
      ensures Model() == SoftReached(old(Model()), v, p, now).0 && committable == SoftReached(old(Model()), v, p, now).1
    {
      var ea := if v in assemblers then assemblers[v] else FRESH_ASSEMBLER;
      if ea.assembled { return true; }
      assemblers := assemblers[v := ea];
      relevant := relevant[p := v];
      Trim(now);
      return false;
    }
  }

  /** The player; the state machines below it are kept by round. */
  class PlayerState {
    const timing: Timing
    var round: Round
    var period: Period
    var step: Step
    var lastConcluding: Step
    var deadline: nat
    var napping: bool
    var fastRecoveryDeadline: nat
    var rounds: map<Round, RoundState>

    function Model(): State
      reads this
    {
      State(Player(round, period, step, lastConcluding, deadline, napping, fastRecoveryDeadline), rounds)
    }

    constructor (t: Timing, r: Round)
      ensures timing == t && Model() == Initial(t, r)
    {
      timing := t;
      round, period, step, lastConcluding := r, 0, SOFT, PROPOSE;
      deadline, napping, fastRecoveryDeadline := t.Filter(), false, 0;
      rounds := map[];
    }

    method IssueSoftVote() returns (acts: seq<Action>)
      modifies this
      ensures Model() == Players.IssueSoftVote(timing, old(Model())).0
      ensures acts == Players.IssueSoftVote(timing, old(Model())).1
    {
      var st := Model();
      var tracker := st.Now().Period(period);
      var frozen := tracker.freezer.proposal;
      rounds := rounds[round := st.Now().WithPeriod(period, tracker.(freezer := tracker.freezer.Freeze()))];
      deadline := timing.Deadline();
      if period > 0 && !st.PriorBottom() && st.PriorProposal() != BOTTOM {
        return [Attest(round, period, SOFT, st.PriorProposal())];
      }
      if frozen == BOTTOM { return []; }
      if period > frozen.originalPeriod {
        if st.PriorProposal() != BOTTOM && st.PriorProposal() == frozen {
          return [Attest(round, period, SOFT, frozen)];
        }
        return [];
      }
      return [Attest(round, period, SOFT, frozen)];
    }

    method IssueNextVote() returns (acts: seq<Action>)
      modifies this
      ensures Model() == Players.IssueNextVote(timing, old(Model())).0
      ensures acts == Players.IssueNextVote(timing, old(Model())).1
    {
      var st := Model();
      var proposal := BOTTOM;
      if st.Now().Committable(period) {
        proposal := st.Now().Staged(period);
      } else if !st.PriorBottom() {
        proposal := st.PriorProposal();
      }
      var _, upper := NextVoteRanges(timing, step);
      napping := false;
      deadline := upper;
      return [Attest(round, period, step, proposal)];
    }

    method IssueFastVote() returns (acts: seq<Action>)
      ensures acts == [FastVote(Model())]
    {
      var st := Model();
      var s, proposal := DOWN, BOTTOM;
      if st.Now().Committable(period) {
        s, proposal := LATE, st.Now().Staged(period);
      } else if !st.PriorBottom() {
        s, proposal := REDO, st.PriorProposal();
      }
      if proposal == BOTTOM { s := DOWN; }
      return [Attest(round, period, s, proposal)];
    }

    method Timeout(entropy: nat) returns (acts: seq<Action>)
      modifies this
      ensures Model() == HandleTimeout(timing, old(Model()), entropy).0
      ensures acts == HandleTimeout(timing, old(Model()), entropy).1
    {
      if step == SOFT {
        acts := IssueSoftVote();
        step := CERT;
      } else if step == CERT {
        step := NEXT;
        acts := IssueNextVote();
      } else if napping {
        acts := IssueNextVote();
      } else {
        step := step + 1;
        var lower, upper := NextVoteRanges(timing, step);
        napping := true;
        deadline := lower + if upper - lower > 0 then entropy % (upper - lower) else 0;
        acts := [];
      }
    }

    method FastTimeout(entropy: nat, lambda: nat) returns (acts: seq<Action>)
      requires lambda > 0
      modifies this
      ensures Model() == HandleFastTimeout(old(Model()), entropy, lambda).0
      ensures acts == HandleFastTimeout(old(Model()), entropy, lambda).1
    {
      var k := (fastRecoveryDeadline + lambda - 1) / lambda;
      var lower := k * lambda;
      var delta := entropy % lambda;
      if fastRecoveryDeadline == 0 {
        fastRecoveryDeadline := lower + delta + lambda;
        return [];
      }
      fastRecoveryDeadline := lower + delta;
      acts := IssueFastVote();
    }

    method MoveTo(r: Round, p: Period)
      modifies this
      ensures Model() == old(Model()).(p := MovedTo(timing, old(Model()).p, r, p))
    {
      lastConcluding := step;
      round, period, step := r, p, SOFT;
      napping, fastRecoveryDeadline, deadline := false, 0, timing.Filter();
    }

    /** A proposal-vote: the tracker of its period, and then the store if it is accepted. */
    method TakeProposal(v: ProposalVote)
      modifies this
      ensures Model() == HandleProposalVote(old(Model()), v)
    {
      if !ProposalFresh(Model().p, v) { return; }
      var rs := Model().Round(v.round);
      var t := rs.Period(v.period);
      var lower := !t.freezer.frozen && (!t.freezer.filled || v.credential < t.freezer.credential);
      if v.sender in t.duplicate {
        rounds := rounds[v.round := rs.WithPeriod(v.period, t)];
        return;
      }
      t := t.(duplicate := t.duplicate + {v.sender});
      if t.staging != BOTTOM || !lower {
        rounds := rounds[v.round := rs.WithPeriod(v.period, t)];
        return;
      }
      t := t.(freezer := Seeker(true, v.credential, v.proposal, false));
      var store := new ProposalStore.Load(rs.store);
      store.TakeVote(v, period);
      rounds := rounds[v.round := rs.WithPeriod(v.period, t).(store := store.Model())];
    }

    method KeepPayload(v: ProposalValue, rnd: Round)
      modifies this
      ensures Model() == HandlePayloadPresent(old(Model()), v, rnd)
    {
      var r := if rnd == round then round else round + 1;
      var rs := Model().Round(r);
      var store := new ProposalStore.Load(rs.store);
      store.KeepPayload(v);
      rounds := rounds[r := rs.(store := store.Model())];
    }

    method TakePayload(v: ProposalValue) returns (acts: seq<Action>)
      modifies this
      ensures Model() == HandlePayloadVerified(old(Model()), v).0 && acts == HandlePayloadVerified(old(Model()), v).1
    {
      var rs := Model().Now();
      var store := new ProposalStore.Load(rs.store);
      var taken := store.TakePayload(v);
      rounds := rounds[round := rs.(store := store.Model())];
      if taken && rs.Staged(period) == v && step <= CERT { return [CertVote(Model(), v)]; }
      return [];
    }

    /** Drop what is older than the player's round, and of its rounds all but the periods that
        it may still read. */
    method Collect()
      modifies this
      ensures Model() == HandleCollect(old(Model()))
    {
      var kept: map<Round, RoundState> := map[];
      var todo := rounds.Keys;
      while todo != {}
        invariant todo <= rounds.Keys && Model() == old(Model())
        invariant forall r :: r in kept <==> r in rounds && r !in todo && r >= round
        invariant forall r :: r in kept ==> kept[r] == rounds[r].(periods := RecentPeriods(rounds[r].periods, period))
        decreases |todo|
      {
        var r :| r in todo;
        if r >= round {
          var periods := CollectPeriods(rounds[r].periods, period);
          kept := kept[r := rounds[r].(periods := periods)];
        }
        todo := todo - {r};
      }
      Collected(Model(), kept);
      rounds := kept;
    }

    /** The proposal machine learns that a period is about to begin. */
    method OpenPeriod(e: ThresholdEvent, target: Period)
      modifies this
      ensures Model() == OpenNext(old(Model()), e, target)
    {
      var rs := Model().Round(e.round);
      var store := new ProposalStore.Load(rs.store);
      store.NewPeriod(e.proposal, Model().Now().Staged(period), target, period);
      rounds := rounds[e.round := rs.(store := store.Model())];
    }

    /** The proposal machine learns of a soft threshold. */
    method Stage(e: ThresholdEvent) returns (committable: bool)
      modifies this
      ensures Model() == StageSoft(old(Model()), e).0 && committable == StageSoft(old(Model()), e).1
    {
      var rs := Model().Round(e.round);
      var store := new ProposalStore.Load(rs.store);
      committable := store.SoftThreshold(e.proposal, e.period, period);
      var t := rs.Period(e.period).(staging := e.proposal);
      rounds := rounds[e.round := rs.WithPeriod(e.period, t).(store := store.Model())];
    }

    method EnterPeriod(e: ThresholdEvent, target: Period) returns (acts: seq<Action>)
      modifies this
      ensures Model() == Players.EnterPeriod(timing, old(Model()), e, target).0
      ensures acts == Players.EnterPeriod(timing, old(Model()), e, target).1
    {
      OpenPeriod(e, target);
      var committable := false;
      if e.Kind().SoftThreshold? { committable := Stage(e); }
      MoveTo(round, target);
      acts := [Rezero(round)];
      if committable {
        acts := acts + [CertVote(Model(), e.proposal)];
      } else if e.Kind().NextThreshold? {
        if e.proposal == BOTTOM {
          acts := acts + [Assemble(round, period)];
        } else {
          acts := acts + [Repropose(round, period, e.proposal)];
        }
      }
    }

    method HandleThreshold(e: ThresholdEvent) returns (acts: seq<Action>)
      modifies this
      ensures Model() == Players.HandleThreshold(timing, old(Model()), e).0
      ensures acts == Players.HandleThreshold(timing, old(Model()), e).1
      decreases |Model().Ahead()|, 1
    {
      if e.Kind().CertThreshold? {
        var ensured := Ensure(e.round, e.period, e.proposal, Model().Round(e.round).Committable(e.period));
        var rest := EnterRound(round + 1);
        return [ensured] + rest;
      }
      if period >= e.period + 1 { return []; }
      if e.Kind().SoftThreshold? {
        if period == e.period {
          var committable := Stage(e);
          if committable && step <= CERT { return [CertVote(Model(), e.proposal)]; }
          return [];
        }
        acts := EnterPeriod(e, e.period);
      } else {
        acts := EnterPeriod(e, e.period + 1);
      }
    }

    method EnterRound(target: Round) returns (acts: seq<Action>)
      requires target > round
      modifies this
      ensures Model() == Players.EnterRound(timing, old(Model()), target).0
      ensures acts == Players.EnterRound(timing, old(Model()), target).1
      decreases |Model().Ahead()|, 0
    {
      ghost var before := Model();
      MoveTo(target, 0);
      acts := [Rezero(target), Assemble(target, 0)];
      match Model().Round(target).freshest
      case None =>
      case Some(e) =>
        AheadShrinks(before, Model());
        var rest := HandleThreshold(e);
        acts := acts + rest;
    }

    method Handle(ev: Event) returns (acts: seq<Action>)
      requires Admissible(Model(), ev)
      modifies this
      ensures Model() == Players.Handle(timing, old(Model()), ev).0
      ensures acts == Players.Handle(timing, old(Model()), ev).1
    {
      acts := [];
      match ev
      case Timeout(entropy) => acts := this.Timeout(entropy);
      case FastTimeout(entropy, lambda) => acts := this.FastTimeout(entropy, lambda);
      case ProposalVoteVerified(v) => TakeProposal(v);
      case PayloadPresent(v, r) => KeepPayload(v, r);
      case PayloadVerified(v) => acts := TakePayload(v);
      case Threshold(e) =>
        if Fresh(Model().p, e) {
          var (rs, fresher) := NoteQuorum(Model().Round(e.round), e);
          rounds := rounds[e.round := rs];
          if fresher && e.round == round { acts := this.HandleThreshold(e); }
        }
      case RoundInterruption(target) => acts := this.EnterRound(target);
      case Checkpoint =>
      case Collect => this.Collect();
    }
  }

  /** Rebuild the assemblers from the pinned and the relevant values. */
  method Rebuild(s: Store, now: Period) returns (r: map<ProposalValue, Assembler>)
    ensures r == s.Trim(now).assemblers
  {
    r := map[s.pinned := s.Get(s.pinned).Trim(now)];
    var todo := s.relevant.Keys;
    while todo != {}
      invariant todo <= s.relevant.Keys
      invariant forall v :: v in r ==> r[v] == s.Get(v).Trim(now) && (v == s.pinned || IsRelevant(s, v))
      invariant s.pinned in r && forall q :: q in s.relevant && q !in todo ==> s.relevant[q] in r
      decreases |todo|
    {
      var q :| q in todo;
      var v := s.relevant[q];
      assert IsRelevant(s, v);
      r := r[v := s.Get(v).Trim(now)];
      todo := todo - {q};
    }
    r := r - {BOTTOM};
    Rebuilt(s, now, r);
  }

  predicate IsRelevant(s: Store, v: ProposalValue) { exists q :: q in s.relevant && s.relevant[q] == v }

  lemma Rebuilt(s: Store, now: Period, r: map<ProposalValue, Assembler>)
    requires forall v :: v in r ==> r[v] == s.Get(v).Trim(now) && v != BOTTOM && (v == s.pinned || IsRelevant(s, v))
    requires s.pinned != BOTTOM ==> s.pinned in r
    requires forall q :: q in s.relevant && s.relevant[q] != BOTTOM ==> s.relevant[q] in r
    ensures r == s.Trim(now).assemblers
  {
  }

  /** The loop that forgets the values of old periods. */
  method DropOld(relevant: map<Period, ProposalValue>, target: Period) returns (r: map<Period, ProposalValue>)
    ensures r == map q | q in relevant && q + 1 >= target :: relevant[q]
  {
    r := relevant;
    var todo := relevant.Keys;
    while todo != {}
      invariant todo <= relevant.Keys
      invariant forall q :: q in r <==> q in relevant && (q in todo || q + 1 >= target)
      invariant forall q :: q in r ==> r[q] == relevant[q]
      decreases |todo|
    {
      var q :| q in todo;
      if q + 1 < target { r := r - {q}; }
      todo := todo - {q};
    }
  }

  function RecentPeriods(ps: map<Period, PeriodState>, now: Period): map<Period, PeriodState> {
    map q | q in ps && (q + 1 >= now || q <= 1) :: ps[q]
  }

  method CollectPeriods(ps: map<Period, PeriodState>, now: Period) returns (kept: map<Period, PeriodState>)
    ensures kept == RecentPeriods(ps, now)
  {
    kept := ps;
    var todo := ps.Keys;
    while todo != {}
      invariant todo <= ps.Keys
      invariant forall q :: q in kept <==> q in ps && (q in todo || q + 1 >= now || q <= 1)
      invariant forall q :: q in kept ==> kept[q] == ps[q]
      decreases |todo|
    {
      var q :| q in todo;
      if q + 1 < now && q > 1 { kept := kept - {q}; }
      todo := todo - {q};
    }
  }

  lemma Collected(st: State, kept: map<Round, RoundState>)
    requires forall r :: r in kept <==> r in st.rounds && r >= st.p.round
    requires forall r :: r in kept ==> kept[r] == st.rounds[r].(periods := RecentPeriods(st.rounds[r].periods, st.p.period))
    ensures HandleCollect(st) == st.(rounds := kept)
  {
  }
}
