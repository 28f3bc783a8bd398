/** After exactly which crashes a node can contradict the votes that it has released. */
module CrashExact {
  import opened Options
  import opened AgreementTypes
  import opened Proposals
  import opened Players
  import opened PlayerSafety
  import opened Crash
  import PlayerLock

  // ---------------------------------------------------------------- building runs

  /** A run that meets every hypothesis. */
  ghost predicate Reached(q: NextValues, t: Timing, s0: System, steps: seq<Crash.Step>, s: System) {
    Possible(t, s0, steps) && Regular(q, t, s0, steps) && s == After(t, s0, steps)
  }

  ghost predicate Sober(q: NextValues, t: Timing, st: State, ev: Event) {
    SoundEvent(q, st, ev) && Handle(t, st, ev).0.p.step < LATE
  }

  lemma OneMore(q: NextValues, t: Timing, s0: System, steps: seq<Crash.Step>, s: System, step: Crash.Step)
    requires Reached(q, t, s0, steps, s) && Enabled(s, step)
    requires step.Input? ==> Sober(q, t, s.live, step.ev)
    ensures Reached(q, t, s0, steps + [step], Next(t, s, step))
    ensures Crashes(steps + [step]) == Crashes(steps) + if step.Crash? then 1 else 0
  {
    assert (steps + [step])[..|steps + [step]| - 1] == steps;
  }

  /** Take all pending actions without voting. */
  lemma {:induction false} Drain(q: NextValues, t: Timing, s0: System, steps: seq<Crash.Step>, s: System)
    returns (steps': seq<Crash.Step>)
    requires Reached(q, t, s0, steps, s)
    ensures Reached(q, t, s0, steps', s.(pending := [])) && Crashes(steps') == Crashes(steps)
    decreases |s.pending|
  {
    steps' := steps;
    if s.pending != [] {
      OneMore(q, t, s0, steps, s, Act(false));
      steps' := Drain(q, t, s0, steps + [Act(false)], s.(pending := s.pending[1..]));
    } else {
      assert s.(pending := []) == s;
    }
  }

  /** Nothing is pending or waits to be written. */
  predicate Idle(s: System) { s.pending == [] && s.queue == [] }

  /** Handle an event without voting. */
  lemma Feed(q: NextValues, t: Timing, s0: System, steps: seq<Crash.Step>, s: System, ev: Event)
    returns (steps': seq<Crash.Step>, s': System)
    requires Reached(q, t, s0, steps, s) && Idle(s) && Sober(q, t, s.live, ev)
    ensures Reached(q, t, s0, steps', s') && Crashes(steps') == Crashes(steps) && Idle(s')
    ensures s'.live == Handle(t, s.live, ev).0 && s'.released == s.released
  {
    OneMore(q, t, s0, steps, s, Input(ev));
    var mid := Next(t, s, Input(ev));
    steps' := Drain(q, t, s0, steps + [Input(ev)], mid);
    s' := mid.(pending := []);
  }

  /** Make, write and release the vote that is pending. */
  lemma VotesOut(q: NextValues, t: Timing, s0: System, steps: seq<Crash.Step>, s: System, a: Action)
    returns (steps': seq<Crash.Step>, s': System)
    requires Reached(q, t, s0, steps, s) && s.queue == [] && s.pending == [a] && a.Attest?
    ensures Reached(q, t, s0, steps', s') && Crashes(steps') == Crashes(steps)
    ensures s'.disk == Some(s.fields) && s'.released == s.released + {a}
  {
    var s1 := Next(t, s, Act(true));
    OneMore(q, t, s0, steps, s, Act(true));
    var s2 := Next(t, s1, Write(true));
    OneMore(q, t, s0, steps + [Act(true)], s1, Write(true));
    s' := Next(t, s2, Release(s.nextId));
    OneMore(q, t, s0, steps + [Act(true)] + [Write(true)], s2, Release(s.nextId));
    steps' := steps + [Act(true)] + [Write(true)] + [Release(s.nextId)];
  }

  /** Handle an event and release the vote that it makes. */
  lemma Emit(q: NextValues, t: Timing, s0: System, steps: seq<Crash.Step>, s: System, ev: Event, a: Action)
    returns (steps': seq<Crash.Step>, s': System)
    requires Reached(q, t, s0, steps, s) && Idle(s) && Sober(q, t, s.live, ev)
    requires Handle(t, s.live, ev).1 == [a] && a.Attest?
    ensures Reached(q, t, s0, steps', s') && Crashes(steps') == Crashes(steps)
    ensures s'.released == s.released + {a}
    ensures s'.disk.Some? && s'.disk.value.Saved? && s'.disk.value.st == Handle(t, s.live, ev).0 && s'.disk.value.acts == [a]
  {
    OneMore(q, t, s0, steps, s, Input(ev));
    var mid := Next(t, s, Input(ev));
    assert Handle(t, s.live, ev).1[0].Attest?;
    steps', s' := VotesOut(q, t, s0, steps + [Input(ev)], mid, a);
  }

  // ---------------------------------------------------------------- coming to a round and period

  /** A player that has come to a period by a quorum for bottom and knows nothing else. */
  predicate Ready(st: State, r: Round, p: Period) {
    && st.p.round == r && st.p.period == p && st.p.step == SOFT && !st.p.napping && st.p.fastRecoveryDeadline == 0
    && st.Now().store == FRESH_STORE && st.Now().Period(p) == FRESH_PERIOD
    && st.Now().freshest == (if p == 0 then None else Some(ThresholdEvent(r, p - 1, NEXT, BOTTOM)))
    && (if p == 0 then st.Now().periods == map[] else st.PriorBottom() && st.PriorProposal() == BOTTOM)
  }

  lemma EntersRound(t: Timing, r0: Round, r: Round)
    requires r0 < r
    ensures Ready(Handle(t, Initial(t, r0), RoundInterruption(r)).0, r, 0)
  {
  }

  lemma EntersPeriod(t: Timing, st: State, r: Round, p: Period)
    requires Ready(st, r, 0) && p > 0
    ensures Ready(Handle(t, st, Threshold(ThresholdEvent(r, p - 1, NEXT, BOTTOM))).0, r, p)
  {
    var s := OpenPeriod(FRESH_STORE, BOTTOM, BOTTOM, p, 0);
    assert s.relevant == map[] && s.Kept() == {};
    assert s == FRESH_STORE;
  }

  lemma Arrive(q: NextValues, t: Timing, s0: System, r0: Round, r: Round, p: Period) returns (steps: seq<Crash.Step>, s: System)
    requires s0.live == Initial(t, r0) && s0.queue == [] && r0 <= r
    ensures Reached(q, t, s0, steps, s) && Crashes(steps) == 0 && Idle(s)
    ensures Ready(s.live, r, p) && s.released == s0.released
  {
    steps := Drain(q, t, s0, [], s0);
    s := s0.(pending := []);
    if r0 < r {
      EntersRound(t, r0, r);
      steps, s := Feed(q, t, s0, steps, s, RoundInterruption(r));
    }
    if p > 0 {
      EntersPeriod(t, s.live, r, p);
      steps, s := Feed(q, t, s0, steps, s, Threshold(ThresholdEvent(r, p - 1, NEXT, BOTTOM)));
    }
  }

  // ---------------------------------------------------------------- voting for another value

  function Proposing(r: Round, v: ProposalValue): Event {
    ProposalVoteVerified(ProposalVote(v.originalProposer, r, v.originalPeriod, v, 0))
  }

  lemma SoftVote(t: Timing, st: State, r: Round, w: ProposalValue)
    requires Ready(st, r, w.originalPeriod) && w != BOTTOM
    ensures var st' := Handle(t, st, Proposing(r, w)).0;
      && st'.p == st.p
      && Handle(t, st', Timeout(0)).0.p == st.p.(step := CERT, deadline := t.Deadline())
      && Handle(t, st', Timeout(0)).1 == [Attest(r, w.originalPeriod, SOFT, w)]
  {
  }

  function SoftQuorum(r: Round, p: Period, w: ProposalValue): Event { Threshold(ThresholdEvent(r, p, SOFT, w)) }

  /** A soft quorum and then the payload. */
  lemma Stages(t: Timing, st: State, r: Round, p: Period, w: ProposalValue)
    requires Ready(st, r, p) && w != BOTTOM
    ensures var st' := Handle(t, st, SoftQuorum(r, p, w)).0;
      && st'.p == st.p && st'.Now().Staged(p) == w
      && st'.Now().store == Store(map[p := w], BOTTOM, map[w := FRESH_ASSEMBLER])
  {
    var s := Store(map[p := w], BOTTOM, map[w := FRESH_ASSEMBLER]);
    assert p in s.relevant && s.relevant[p] == w;
    assert s.Kept() == {w};
    assert s.Trim(p) == s;
  }

  lemma CertVoted(t: Timing, st: State, r: Round, p: Period, w: ProposalValue)
    requires st.p.round == r && st.p.period == p && st.p.step == SOFT && st.Now().Staged(p) == w
    requires st.Now().store == Store(map[p := w], BOTTOM, map[w := FRESH_ASSEMBLER]) && w != BOTTOM
    ensures var (st', acts) := Handle(t, st, PayloadVerified(w));
      && acts == [Attest(r, p, CERT, w)] && st'.p == st.p
      && st'.Now().Staged(p) == w && st'.Now().Committable(p)
  {
  }

  lemma LateVoted(t: Timing, st: State, w: ProposalValue)
    requires st.Now().Staged(st.p.period) == w && st.Now().Committable(st.p.period) && w != BOTTOM
    requires st.p.fastRecoveryDeadline == 0
    ensures var st' := Handle(t, st, FastTimeout(0, 1)).0;
      && st'.p.step == st.p.step
      && Handle(t, st', FastTimeout(0, 1)).0.p.step == st.p.step
      && Handle(t, st', FastTimeout(0, 1)).1 == [Attest(st.p.round, st.p.period, LATE, w)]
  {
  }

  /** With timeouts alone the player comes to vote in a given next step. */
  lemma {:induction false} NextVoted(q: NextValues, t: Timing, s0: System, steps: seq<Crash.Step>, s: System, k: AgreementTypes.Step)
    returns (steps': seq<Crash.Step>, s': System)
    requires Reached(q, t, s0, steps, s) && Idle(s) && PlayerOk(s.live.p)
    requires NEXT <= k < LATE && !Voted(s.live.p, k)
    ensures Reached(q, t, s0, steps', s') && Crashes(steps') == Crashes(steps)
    ensures s'.released == s.released + {Attest(s.live.p.round, s.live.p.period, k, NextVoteValue(s.live))}
    decreases 2 * k + 1 - Rank(s.live.p)
  {
    PlayerLock.TimeoutKeepsValue(t, s.live);
    if (s.live.p.step == CERT && k == NEXT) || s.live.p.step == k {
      steps', s' := Emit(q, t, s0, steps, s, Timeout(0), Attest(s.live.p.round, s.live.p.period, k, NextVoteValue(s.live)));
    } else {
      steps', s' := Feed(q, t, s0, steps, s, Timeout(0));
      steps', s' := NextVoted(q, t, s0, steps', s', k);
      assert s'.released == s.released + {Attest(s.live.p.round, s.live.p.period, k, NextVoteValue(s.live))};
    }
  }

  /** From a period of which the node knows nothing, any value but the given one can be
      voted in any step but redo and down. */
  lemma VotesOther(q: NextValues, t: Timing, s0: System, steps: seq<Crash.Step>, s: System, a: Action)
    returns (steps': seq<Crash.Step>, s': System, b: Action)
    requires a.Attest? && Lawful(q, a) && !Forced(a.step)
    requires Reached(q, t, s0, steps, s) && Idle(s) && Ready(s.live, a.round, a.period)
    ensures Reached(q, t, s0, steps', s') && Crashes(steps') == Crashes(steps)
    ensures s'.released == s.released + {b} && b.Attest? && !Agree(a, b)
  {
    var w := PlayerLock.Rival(a.proposal, a.period, 0);
    b := Attest(a.round, a.period, a.step, w);
    if a.step == SOFT {
      SoftVote(t, s.live, a.round, w);
      steps', s' := Feed(q, t, s0, steps, s, Proposing(a.round, w));
      steps', s' := Emit(q, t, s0, steps', s', Timeout(0), b);
    } else if NEXT <= a.step < LATE && a.proposal != BOTTOM {
      b := Attest(a.round, a.period, a.step, BOTTOM);
      steps', s' := NextVoted(q, t, s0, steps, s, a.step);
    } else {
      steps', s' := VotesStaged(q, t, s0, steps, s, a.round, a.period, a.step, w);
    }
  }

  /** Stage a value and then vote for it in some step. */
  lemma VotesStaged(q: NextValues, t: Timing, s0: System, steps: seq<Crash.Step>, s: System, r: Round, p: Period, k: AgreementTypes.Step, w: ProposalValue)
    returns (steps': seq<Crash.Step>, s': System)
    requires Reached(q, t, s0, steps, s) && Idle(s) && Ready(s.live, r, p) && w != BOTTOM && CERT <= k <= LATE
    ensures Reached(q, t, s0, steps', s') && Crashes(steps') == Crashes(steps)
    ensures s'.released == s.released + {Attest(r, p, k, w)}
  {
    Stages(t, s.live, r, p, w);
    steps', s' := Feed(q, t, s0, steps, s, SoftQuorum(r, p, w));
    CertVoted(t, s'.live, r, p, w);
    if k == CERT {
      steps', s' := Emit(q, t, s0, steps', s', PayloadVerified(w), Attest(r, p, k, w));
    } else {
      steps', s' := Feed(q, t, s0, steps', s', PayloadVerified(w));
      if k == LATE {
        steps', s' := VotesLate(q, t, s0, steps', s', r, p, w);
      } else {
        steps', s' := NextVoted(q, t, s0, steps', s', k);
      }
    }
  }

  lemma VotesLate(q: NextValues, t: Timing, s0: System, steps: seq<Crash.Step>, s: System, r: Round, p: Period, w: ProposalValue)
    returns (steps': seq<Crash.Step>, s': System)
    requires Reached(q, t, s0, steps, s) && Idle(s) && s.live.p.round == r && s.live.p.period == p && s.live.p.step < LATE
    requires s.live.Now().Staged(p) == w && s.live.Now().Committable(p) && w != BOTTOM && s.live.p.fastRecoveryDeadline == 0
    ensures Reached(q, t, s0, steps', s') && Crashes(steps') == Crashes(steps)
    ensures s'.released == s.released + {Attest(r, p, LATE, w)}
  {
    LateVoted(t, s.live, w);
    steps', s' := Feed(q, t, s0, steps, s, FastTimeout(0, 1));
    steps', s' := Emit(q, t, s0, steps', s', FastTimeout(0, 1), Attest(r, p, LATE, w));
  }

  // ---------------------------------------------------------------- the exact condition

  /** Whatever happens from s on short of a crash, the released votes agree. */
  ghost predicate StaysConsistent(q: NextValues, t: Timing, s: System) {
    forall steps, s' :: Reached(q, t, s, steps, s') && Crashes(steps) == 0 ==> Consistent(s'.released)
  }

  lemma {:induction false} NoCrashHarmless(t: Timing, s: System, steps: seq<Crash.Step>)
    requires Possible(t, s, steps) && Crashes(steps) == 0
    ensures AllHarmless(t, s, steps)
  {
    if steps != [] { NoCrashHarmless(t, s, steps[..|steps| - 1]); }
  }

  lemma SafeStays(q: NextValues, t: Timing, s: System)
    requires Unique(q) && Safe(q, s)
    ensures StaysConsistent(q, t, s)
  {
    forall steps, s' | Reached(q, t, s, steps, s') && Crashes(steps) == 0 ensures Consistent(s'.released) {
      NoCrashHarmless(t, s, steps);
      RunSafe(q, t, s, steps);
      assert s'.released <= s'.history;
    }
  }

  lemma HarmfulBreaks(q: NextValues, t: Timing, s: System, nextRound: Round)
    requires Safe(q, s) && nextRound > 0 && !Harmless(s, Crash(nextRound))
    ensures !StaysConsistent(q, t, Next(t, s, Crash(nextRound)))
  {
    var a :| a in s.released && Exposed(a, nextRound);
    assert s.released <= s.history;
    assert Remembered(q, s.live, a);
    var s0 := Next(t, s, Crash(nextRound));
    var steps, mid := Arrive(q, t, s0, nextRound, a.round, a.period);
    var steps', s', b := VotesOther(q, t, s0, steps, mid, a);
    assert a in s'.released && b in s'.released;
  }

  /** After a crash of a node whose votes agree so far, they agree in every continuation if
      and only if the crash is harmless. */
  lemma CrashDecides(q: NextValues, t: Timing, s: System, nextRound: Round)
    requires Unique(q) && Safe(q, s) && nextRound > 0
    ensures StaysConsistent(q, t, Next(t, s, Crash(nextRound))) <==> Harmless(s, Crash(nextRound))
  {
    if Harmless(s, Crash(nextRound)) {
      CrashSafe(q, t, s, nextRound);
      SafeStays(q, t, Next(t, s, Crash(nextRound)));
    } else {
      HarmfulBreaks(q, t, s, nextRound);
    }
  }

  /** For any run with any number of crashes: at no point of it can the released votes come
      to disagree without a further crash, if and only if each of its crashes is harmless. */
  lemma {:induction false} ReleasedAgreeExactly(q: NextValues, t: Timing, round: Round, steps: seq<Crash.Step>)
    requires Unique(q) && Possible(t, Start(t, round), steps) && Regular(q, t, Start(t, round), steps)
    ensures AllHarmless(t, Start(t, round), steps) <==> AlwaysConsistent(q, t, Start(t, round), steps)
  {
    var s0 := Start(t, round);
    StartSafe(q, t, round);
    if steps == [] {
      SafeStays(q, t, s0);
    } else {
      var head := steps[..|steps| - 1];
      ReleasedAgreeExactly(q, t, round, head);
      if AllHarmless(t, s0, head) {
        RunSafe(q, t, s0, head);
        if AllHarmless(t, s0, steps) {
          RunSafe(q, t, s0, steps);
          SafeStays(q, t, After(t, s0, steps));
        } else {
          HarmfulBreaks(q, t, After(t, s0, head), steps[|steps| - 1].nextRound);
        }
      }
    }
  }

  /** At every point of a run. */
  ghost predicate AlwaysConsistent(q: NextValues, t: Timing, s: System, steps: seq<Crash.Step>)
    requires Possible(t, s, steps)
    decreases |steps|
  {
    StaysConsistent(q, t, After(t, s, steps)) && (steps == [] || AlwaysConsistent(q, t, s, steps[..|steps| - 1]))
  }

  // ---------------------------------------------------------------- two crashes

  /** Restoring does not set the persist fields, so the votes made again after a crash
      overwrite the saved state with nothing; a second crash then starts the round over and
      the node can vote for another value. */
  lemma TwoCrashesUnsafe(q: NextValues, t: Timing, v: ProposalValue, w: ProposalValue) returns (steps: seq<Crash.Step>)
    requires v != BOTTOM && w != BOTTOM && v != w && v.originalPeriod == w.originalPeriod == 0
    ensures Possible(t, Start(t, 1), steps) && Regular(q, t, Start(t, 1), steps)
    ensures Crashes(steps) == 2
    ensures !Consistent(After(t, Start(t, 1), steps).released)
  {
    var s0 := Start(t, 1);
    var s;
    steps, s := VotesSoft(q, t, s0, [], s0, v);
    OneMore(q, t, s0, steps, s, Crash(1));
    steps, s := VotesOut(q, t, s0, steps + [Crash(1)], Next(t, s, Crash(1)), Attest(1, 0, SOFT, v));
    OneMore(q, t, s0, steps, s, Crash(1));
    steps, s := VotesSoft(q, t, s0, steps + [Crash(1)], Next(t, s, Crash(1)), w);
    assert !Agree(Attest(1, 0, SOFT, v), Attest(1, 0, SOFT, w));
  }

  lemma VotesSoft(q: NextValues, t: Timing, s0: System, steps: seq<Crash.Step>, s: System, v: ProposalValue)
    returns (steps': seq<Crash.Step>, s': System)
    requires Reached(q, t, s0, steps, s) && s.live == Initial(t, 1) && s.queue == []
    requires v != BOTTOM && v.originalPeriod == 0
    ensures Reached(q, t, s0, steps', s') && Crashes(steps') == Crashes(steps)
    ensures s'.released == s.released + {Attest(1, 0, SOFT, v)}
    ensures s'.disk.Some? && s'.disk.value.Saved? && s'.disk.value.st.p.round == 1 && s'.disk.value.acts == [Attest(1, 0, SOFT, v)]
  {
    steps' := Drain(q, t, s0, steps, s);
    SoftVote(t, Initial(t, 1), 1, v);
    steps', s' := Feed(q, t, s0, steps', s.(pending := []), Proposing(1, v));
    steps', s' := Emit(q, t, s0, steps', s', Timeout(0), Attest(1, 0, SOFT, v));
  }
}
