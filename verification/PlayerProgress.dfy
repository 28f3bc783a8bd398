/** The order in which a player moves, and its deadlines. */
module PlayerProgress {
  import opened AgreementTypes
  import opened Players
  import opened PlayerSafety

  predicate Usable(t: Timing) { 0 < t.small <= t.big }

  /** The loop that doubles the extra time step by step meets the closed form. */
  method NextVoteRanges(t: Timing, s: Step) returns (lower: nat, upper: nat)
    ensures lower == Lower(t, s) && upper == Upper(t, s)
  {
    var extra := t.Extra();
    lower := t.Deadline();
    upper := lower + extra;
    var i: nat := NEXT;
    while i < s
      invariant i == NEXT || i <= s
      invariant i >= NEXT && extra == t.Extra() * Pow2(i - NEXT)
      invariant lower == Lower(t, i) && upper == Upper(t, i) && upper == lower + extra
    {
      RangesMeet(t, i + 1);
      extra := extra * 2;
      lower := upper;
      upper := lower + extra;
      i := i + 1;
    }
  }

  /** Each step begins where the one before it ends, and lasts twice as long. */
  lemma RangesMeet(t: Timing, s: Step)
    requires s >= NEXT
    ensures s > NEXT ==> Lower(t, s) == Upper(t, s - 1)
    ensures Upper(t, s) == Lower(t, s) + t.Extra() * Pow2(s - NEXT)
  {
    var k := s - NEXT;
    calc {
      t.Extra() * (Pow2(k + 1) - 1);
      t.Extra() * (2 * Pow2(k) - 1);
      t.Extra() * (Pow2(k) - 1) + t.Extra() * Pow2(k);
    }
  }

  /** The deadline of every point of a period. */
  predicate OnTime(t: Timing, p: Player) {
    if p.step <= SOFT then p.deadline == t.Filter() && !p.napping && p.step == SOFT
    else if p.step == CERT then p.deadline == t.Deadline() && !p.napping
    else if p.napping then p.step > NEXT && Lower(t, p.step) <= p.deadline < Upper(t, p.step)
    else p.deadline == Upper(t, p.step)
  }

  predicate InOrder(t: Timing, a: Player, b: Player) {
    Onward(a, b) && (SamePeriod(a, b) ==> a.deadline <= b.deadline)
  }

  lemma {:induction false} Pow2Positive(n: nat)
    ensures Pow2(n) > 0
  {
    if n > 0 { Pow2Positive(n - 1); }
  }

  lemma TimeoutProgress(t: Timing, st: State, entropy: nat)
    requires Usable(t) && OnTime(t, st.p)
    ensures var p' := HandleTimeout(t, st, entropy).0.p; OnTime(t, p') && InOrder(t, st.p, p')
  {
    if st.p.step >= NEXT {
      var s := if st.p.napping then st.p.step else st.p.step + 1;
      RangeGrows(t, s);
    } else if st.p.step == CERT {
      FirstRange(t);
    }
  }

  lemma RangeGrows(t: Timing, s: Step)
    requires Usable(t) && s >= NEXT
    ensures Lower(t, s) < Upper(t, s) && (s > NEXT ==> Lower(t, s) == Upper(t, s - 1))
  {
    RangesMeet(t, s);
    Pow2Positive(s - NEXT);
    assert t.Extra() * Pow2(s - NEXT) > 0;
  }

  lemma FirstRange(t: Timing)
    ensures Upper(t, NEXT) == t.Deadline() + t.Extra()
  {
    assert Pow2(1) == 2;
  }

  lemma ThresholdProgress(t: Timing, st: State, e: ThresholdEvent)
    requires OnTime(t, st.p)
    ensures var p' := HandleThreshold(t, st, e).0.p; OnTime(t, p') && InOrder(t, st.p, p')
    decreases |st.Ahead()|, 1
  {
    if e.Kind().CertThreshold? { EnterRoundProgress(t, st, st.p.round + 1); }
  }

  lemma EnterRoundProgress(t: Timing, st: State, target: Round)
    requires target > st.p.round
    ensures var p' := EnterRound(t, st, target).0.p; OnTime(t, p') && LaterPeriod(st.p, p')
    decreases |st.Ahead()|, 0
  {
    var mid := st.(p := MovedTo(t, st.p, target, 0));
    match st.Round(target).freshest
    case None =>
    case Some(e) =>
      AheadShrinks(st, mid);
      ThresholdProgress(t, mid, e);
  }

  lemma HandleProgress(t: Timing, st: State, ev: Event)
    requires Usable(t) && OnTime(t, st.p) && Admissible(st, ev)
    ensures var p' := Handle(t, st, ev).0.p; OnTime(t, p') && InOrder(t, st.p, p')
  {
    match ev
    case Timeout(entropy) => TimeoutProgress(t, st, entropy);
    case Threshold(e) =>
      if Fresh(st.p, e) {
        var (rs, fresher) := NoteQuorum(st.Round(e.round), e);
        if fresher && e.round == st.p.round { ThresholdProgress(t, st.WithRound(e.round, rs), e); }
      }
    case RoundInterruption(target) => EnterRoundProgress(t, st, target);
    case _ =>
  }

  /** A prefix of a run is a run. */
  lemma {:induction false} RunnablePrefix(t: Timing, st: State, evs: seq<Event>, m: nat)
    requires Runnable(t, st, evs) && m <= |evs|
    ensures Runnable(t, st, evs[..m])
  {
    if m < |evs| {
      RunnablePrefix(t, st, evs[..|evs| - 1], m);
      assert evs[..|evs| - 1][..m] == evs[..m];
    } else {
      assert evs[..m] == evs;
    }
  }

  /** Over every run (round, period, step) never goes back, inside a period the deadline
      never decreases, and every deadline is the one its step prescribes: in particular a
      next-step s that has voted ends at Upper(s). */
  lemma {:induction false} NeverGoesBack(t: Timing, r: Round, evs: seq<Event>, m: nat)
    requires Usable(t) && Runnable(t, Initial(t, r), evs) && m <= |evs|
    ensures Runnable(t, Initial(t, r), evs[..m])
    ensures OnTime(t, Run(t, Initial(t, r), evs).0.p)
    ensures InOrder(t, Run(t, Initial(t, r), evs[..m]).0.p, Run(t, Initial(t, r), evs).0.p)
  {
    RunnablePrefix(t, Initial(t, r), evs, m);
    if evs == [] {
    } else {
      var head, ev := evs[..|evs| - 1], evs[|evs| - 1];
      var mid := Run(t, Initial(t, r), head).0;
      if m == |evs| {
        NeverGoesBack(t, r, head, 0);
        HandleProgress(t, mid, ev);
        assert evs[..m] == evs;
      } else {
        NeverGoesBack(t, r, head, m);
        HandleProgress(t, mid, ev);
        assert head[..m] == evs[..m];
      }
    }
  }

  // ---------------------------------------------------------------- the width of a duration

  /** The shipped timings, in nanoseconds. */
  const SHIPPED := Timing(2_000_000_000, 15_000_000_000)

  lemma {:induction false} Pow2Monotone(m: nat, n: nat)
    requires m <= n
    ensures Pow2(m) <= Pow2(n)
  {
    if m < n { Pow2Monotone(m, n - 1); }
  }

  lemma {:induction false} Pow2Split(m: nat, n: nat)
    ensures Pow2(m + n) == Pow2(m) * Pow2(n)
  {
    if n > 0 {
      Pow2Split(m, n - 1);
      assert Pow2(m) * (2 * Pow2(n - 1)) == 2 * (Pow2(m) * Pow2(n - 1));
    } else {
      assert Pow2(n) == 1;
    }
  }

  lemma Pow2Of32()
    ensures Pow2(32) == 0x1_0000_0000
  {
    assert Pow2(8) == 256;
    Pow2Split(8, 8);
    Pow2Split(16, 16);
  }

  /** A signed 64-bit duration holds the end of a step exactly up to step 34. */
  lemma DurationFits(s: Step)
    ensures Upper(SHIPPED, s) < 0x8000_0000_0000_0000 <==> s <= 34
  {
    Pow2Of32();
    if NEXT <= s <= 34 {
      Pow2Monotone(s - NEXT + 1, 32);
    } else if s > 34 {
      assert Pow2(33) == 2 * Pow2(32);
      Pow2Monotone(33, s - NEXT + 1);
    }
  }
  /** Over every run with the shipped timings a deadline fits into a signed 64-bit duration up
      to step 34, and beyond it does not, except while napping in step 35. */
  lemma DeadlinesFit(r: Round, evs: seq<Event>)
    requires Runnable(SHIPPED, Initial(SHIPPED, r), evs)
    ensures var p := Run(SHIPPED, Initial(SHIPPED, r), evs).0.p;
      && (p.step <= 34 ==> p.deadline < 0x8000_0000_0000_0000)
      && (p.step > 35 || (p.step == 35 && !p.napping) ==> p.deadline >= 0x8000_0000_0000_0000)
  {
    NeverGoesBack(SHIPPED, r, evs, 0);
    var p := Run(SHIPPED, Initial(SHIPPED, r), evs).0.p;
    DurationFits(p.step);
    if p.step > NEXT {
      RangesMeet(SHIPPED, p.step);
      DurationFits(p.step - 1);
    }
  }
}
