/** Pipelined catchup: many rounds are fetched at once, but authenticated and written in
    order, with results passed along through channels. */
module Catchup {
  import opened Weights

  type Round = nat

  /** The number of workers, and how far back a block's authentication looks. */
  datatype Config = Config(parallel: nat, lookback: nat, from: Round)
  {
    function Workers(): nat { if parallel < lookback then lookback else parallel }

    predicate Valid() { lookback > 0 && from > 0 }
  }

  datatype Phase = Queued | Fetching | HaveBlock | Authentic | Finished(ok: bool) | Sent(ok: bool)

  /** A round being fetched: where its worker is, whether it has read the result of the lookback
      round and of the previous round, and how many copies of its own result it has written. */
  datatype Task = Task(phase: Phase, lookRead: bool, hasLookback: bool, prevRead: bool, written: nat)

  const NEW_TASK := Task(Queued, false, false, false, 0)

  datatype State = State(
    next: Round,
    tasks: map<Round, Task>,
    received: set<Round>,
    stopped: bool,
    latest: Round,
    authenticated: set<Round>,
    added: set<Round>)

  function Start(c: Config): State
    requires c.Valid()
  {
    State(c.from, map[], {}, false, c.from - 1, {}, {})
  }

  // ---------------------------------------------------------------- results of rounds

  predicate Done(t: Task) { t.phase.Finished? || t.phase.Sent? }

  predicate TaskOk(t: Task) { Done(t) && t.phase.ok }

  /** The round is before the first one fetched, or its fetch has ended well. */
  predicate Succeeded(c: Config, s: State, r: int) {
    r < c.from || (r in s.tasks && TaskOk(s.tasks[r]))
  }

  /** Copies of a round's result that were written, and that were read. */
  function Written(c: Config, s: State, r: int): nat {
    if r < c.from then 2 else if r in s.tasks then s.tasks[r].written else 0
  }

  function Reads(c: Config, s: State, r: int): nat {
    (if r + 1 in s.tasks && s.tasks[r + 1].prevRead then 1 else 0) +
    (if r + c.lookback in s.tasks && s.tasks[r + c.lookback].lookRead then 1 else 0)
  }

  /** A copy of a round's result can be read now. */
  predicate Readable(c: Config, s: State, r: int) { Reads(c, s, r) < Written(c, s, r) }

  // ---------------------------------------------------------------- steps

  datatype Step =
    | Issue
    | Take(r: Round)
    | ReadLookback(r: Round)
    | Fetch(r: Round)
    | Retry(r: Round)
    | Authenticate(r: Round)
    | ReadPrev(r: Round, refused: bool)
    | GiveUp(r: Round)
    | WriteResult(r: Round)
    | Report(r: Round)
    | Receive(r: Round)
    | LedgerAdvances

  /** The main loop may start another round. */
  predicate MayIssue(c: Config, s: State) {
    !s.stopped && (s.next < c.from + c.Workers() || s.next - c.Workers() in s.received)
  }

  predicate Working(t: Task) { t.phase.Fetching? || t.phase.HaveBlock? || t.phase.Authentic? }

  predicate Enabled(c: Config, s: State, step: Step) {
    match step
    case Issue => MayIssue(c, s)
    case Take(r) => r in s.tasks && s.tasks[r].phase.Queued?
    case ReadLookback(r) =>
      && r in s.tasks && (s.tasks[r].phase.Fetching? || s.tasks[r].phase.HaveBlock?)
      && !s.tasks[r].lookRead && Readable(c, s, r - c.lookback)
    case Fetch(r) => r in s.tasks && s.tasks[r].phase.Fetching?
    case Retry(r) => r in s.tasks && s.tasks[r].phase.HaveBlock?
    case Authenticate(r) => r in s.tasks && s.tasks[r].phase.HaveBlock? && s.tasks[r].hasLookback
    case ReadPrev(r, _) => r in s.tasks && s.tasks[r].phase.Authentic? && Readable(c, s, r - 1)
    case GiveUp(r) => r in s.tasks && Working(s.tasks[r])
    case WriteResult(r) => r in s.tasks && s.tasks[r].phase.Finished? && s.tasks[r].written < 2
    case Report(r) => r in s.tasks && s.tasks[r].phase.Finished? && s.tasks[r].written == 2
    case Receive(r) => !s.stopped && r in s.tasks && s.tasks[r].phase.Sent? && r !in s.received
    case LedgerAdvances => true
  }

  function Set(s: State, r: Round, t: Task): State { s.(tasks := s.tasks[r := t]) }

  /** Adding the block of round r to the ledger: evaluation may object to any block; the
      ledger takes the next one, already has an earlier one, and refuses a later one. */
  function Added(s: State, r: Round, refused: bool): (State, bool) {
    if r <= s.latest then (s, !refused)
    else if r == s.latest + 1 && !refused then (s.(latest := r, added := s.added + {r}), true)
    else (s, false)
  }

  function Next(c: Config, s: State, step: Step): State
    requires Enabled(c, s, step)
  {
    match step
    case Issue => s.(next := s.next + 1, tasks := s.tasks[s.next := NEW_TASK])
    case Take(r) => Set(s, r, s.tasks[r].(phase := Fetching))
    case ReadLookback(r) =>
      if Succeeded(c, s, r - c.lookback) then Set(s, r, s.tasks[r].(lookRead := true, hasLookback := true))
      else Set(s, r, s.tasks[r].(lookRead := true, phase := Finished(false)))
    case Fetch(r) => Set(s, r, s.tasks[r].(phase := HaveBlock))
    case Retry(r) => Set(s, r, s.tasks[r].(phase := Fetching))
    case Authenticate(r) => Set(s, r, s.tasks[r].(phase := Authentic)).(authenticated := s.authenticated + {r})
    case ReadPrev(r, refused) =>
      var t := s.tasks[r].(prevRead := true);
      if Succeeded(c, s, r - 1) then
        var (s', ok) := Added(s, r, refused);
        Set(s', r, t.(phase := Finished(ok)))
      else Set(s, r, t.(phase := Finished(false)))
    case GiveUp(r) => Set(s, r, s.tasks[r].(phase := Finished(false)))
    case WriteResult(r) => Set(s, r, s.tasks[r].(written := s.tasks[r].written + 1))
    case Report(r) => Set(s, r, s.tasks[r].(phase := Sent(s.tasks[r].phase.ok)))
    case Receive(r) => if s.tasks[r].phase.ok then s.(received := s.received + {r}) else s.(stopped := true)
    case LedgerAdvances => s.(latest := s.latest + 1)
  }

  // ---------------------------------------------------------------- the invariant

  predicate TaskGood(c: Config, s: State, r: Round, t: Task) {
    && (t.hasLookback ==> t.lookRead && Succeeded(c, s, r - c.lookback))
    && (t.lookRead && !t.hasLookback ==> Done(t) && !t.phase.ok)
    && (t.phase.Authentic? || TaskOk(t) ==> t.hasLookback && r in s.authenticated)
    && (t.prevRead ==> Done(t))
    && (TaskOk(t) ==> t.hasLookback && Succeeded(c, s, r - 1) && r <= s.latest)
    && (t.written > 0 ==> Done(t)) && t.written <= 2 && (t.phase.Sent? ==> t.written == 2)
  }

  ghost predicate LogsGood(c: Config, s: State) {
    && (forall r :: r in s.authenticated ==> Succeeded(c, s, r - c.lookback))
    && (forall r :: r in s.added ==> r in s.tasks && TaskOk(s.tasks[r]))
  }

  ghost predicate WindowGood(c: Config, s: State) {
    && (forall r :: r in s.tasks <==> c.from <= r < s.next)
    && (forall r :: r in s.received ==> r in s.tasks && s.tasks[r].phase.Sent?)
    && (forall r: Round :: c.from <= r && r + c.Workers() < s.next ==> r in s.received)
  }

  ghost predicate Inv(c: Config, s: State) {
    && c.Valid() && c.from <= s.next && c.from <= s.latest + 1
    && WindowGood(c, s) && LogsGood(c, s)
    && (forall r {:trigger TaskGood(c, s, r, s.tasks[r])} :: r in s.tasks ==> TaskGood(c, s, r, s.tasks[r]))
  }

  lemma StartInv(c: Config)
    requires c.Valid()
    ensures Inv(c, Start(c))
  {
  }

  /** A success is never lost. */
  lemma SuccessKept(c: Config, s: State, r: Round, t: Task, x: int)
    requires r in s.tasks && (TaskOk(s.tasks[r]) ==> TaskOk(t))
    requires Succeeded(c, s, x)
    ensures Succeeded(c, Set(s, r, t), x)
  {
  }

  lemma GoodElsewhere(c: Config, s: State, r: Round, t: Task, x: Round, u: Task)
    requires r in s.tasks && (TaskOk(s.tasks[r]) ==> TaskOk(t))
    requires TaskGood(c, s, x, u)
    ensures TaskGood(c, Set(s, r, t), x, u)
  {
    if u.hasLookback { SuccessKept(c, s, r, t, x - c.lookback); }
    if TaskOk(u) { SuccessKept(c, s, r, t, x - 1); }
  }

  /** Changing one task so that it stays good and no success is lost keeps all tasks good. */
  lemma SetKeeps(c: Config, s: State, r: Round, t: Task)
    requires Inv(c, s) && r in s.tasks && TaskGood(c, s, r, t)
    requires TaskOk(s.tasks[r]) ==> TaskOk(t)
    requires s.tasks[r].phase.Sent? ==> t.phase.Sent?
    ensures Inv(c, Set(s, r, t))
  {
    var s' := Set(s, r, t);
    forall x | x in s'.tasks ensures TaskGood(c, s', x, s'.tasks[x]) {
      if x != r { assert TaskGood(c, s, x, s.tasks[x]); }
      GoodElsewhere(c, s, r, t, x, if x == r then t else s.tasks[x]);
    }
    forall x | x in s'.authenticated ensures Succeeded(c, s', x - c.lookback) {
      SuccessKept(c, s, r, t, x - c.lookback);
    }
  }

  lemma IssueKeeps(c: Config, s: State)
    requires Inv(c, s) && MayIssue(c, s)
    ensures Inv(c, Next(c, s, Issue))
  {
    var s' := Next(c, s, Issue);
    forall x: int | Succeeded(c, s, x) ensures Succeeded(c, s', x) {}
    forall x | x in s'.tasks ensures TaskGood(c, s', x, s'.tasks[x]) {
      if x != s.next { assert TaskGood(c, s, x, s.tasks[x]); }
    }
  }

  /** The ledger moving on keeps everything. */
  lemma LedgerKeeps(c: Config, s: State, latest: Round)
    requires Inv(c, s) && latest >= s.latest
    ensures Inv(c, s.(latest := latest))
  {
    var s' := s.(latest := latest);
    forall x: int | Succeeded(c, s, x) ensures Succeeded(c, s', x) {}
    forall x | x in s'.tasks ensures TaskGood(c, s', x, s'.tasks[x]) { assert TaskGood(c, s, x, s.tasks[x]); }
  }

  lemma LookbackKeeps(c: Config, s: State, r: Round)
    requires Inv(c, s) && Enabled(c, s, ReadLookback(r))
    ensures Inv(c, Next(c, s, ReadLookback(r)))
  {
    assert TaskGood(c, s, r, s.tasks[r]);
    if Succeeded(c, s, r - c.lookback) {
      SetKeeps(c, s, r, s.tasks[r].(lookRead := true, hasLookback := true));
    } else {
      SetKeeps(c, s, r, s.tasks[r].(lookRead := true, phase := Finished(false)));
    }
  }

  lemma LogKeeps(c: Config, s: State, r: Round)
    requires Inv(c, s) && Succeeded(c, s, r - c.lookback)
    ensures Inv(c, s.(authenticated := s.authenticated + {r}))
  {
    var s' := s.(authenticated := s.authenticated + {r});
    forall x: int ensures Succeeded(c, s, x) == Succeeded(c, s', x) {}
    forall x | x in s'.tasks ensures TaskGood(c, s', x, s'.tasks[x]) { assert TaskGood(c, s, x, s.tasks[x]); }
  }

  lemma AuthenticateKeeps(c: Config, s: State, r: Round)
    requires Inv(c, s) && Enabled(c, s, Authenticate(r))
    ensures Inv(c, Next(c, s, Authenticate(r)))
  {
    assert TaskGood(c, s, r, s.tasks[r]);
    LogKeeps(c, s, r);
    var mid := s.(authenticated := s.authenticated + {r});
    assert TaskGood(c, mid, r, mid.tasks[r]);
    SetKeeps(c, mid, r, s.tasks[r].(phase := Authentic));
  }

  /** The predecessor of a block that is about to be added is in the ledger, so there is
      never a gap. */
  lemma NoGap(c: Config, s: State, r: Round)
    requires Inv(c, s) && r in s.tasks && Succeeded(c, s, r - 1)
    ensures r <= s.latest + 1
  {
    if r - 1 >= c.from { assert TaskGood(c, s, r - 1, s.tasks[r - 1]); }
  }

  lemma PrevAdds(c: Config, s: State, r: Round, latest: Round, ok: bool, log: bool)
    requires Inv(c, s) && Enabled(c, s, ReadPrev(r, false)) && Succeeded(c, s, r - 1)
    requires latest >= s.latest && (ok ==> r <= latest) && (log ==> ok)
    ensures var s' := Set(s.(latest := latest), r, s.tasks[r].(prevRead := true, phase := Finished(ok)));
      Inv(c, if log then s'.(added := s'.added + {r}) else s')
  {
    LedgerKeeps(c, s, latest);
    var mid := s.(latest := latest);
    assert TaskGood(c, mid, r, mid.tasks[r]);
    var t := s.tasks[r].(prevRead := true, phase := Finished(ok));
    SetKeeps(c, mid, r, t);
    AddedLogged(c, Set(mid, r, t), r, log);
  }

  lemma PrevKeeps(c: Config, s: State, r: Round, refused: bool)
    requires Inv(c, s) && Enabled(c, s, ReadPrev(r, refused))
    ensures Inv(c, Next(c, s, ReadPrev(r, refused)))
  {
    if Succeeded(c, s, r - 1) {
      NoGap(c, s, r);
      var (s1, ok) := Added(s, r, refused);
      PrevAdds(c, s, r, s1.latest, ok, r > s.latest && ok);
    } else {
      assert TaskGood(c, s, r, s.tasks[r]);
      SetKeeps(c, s, r, s.tasks[r].(prevRead := true, phase := Finished(false)));
    }
  }

  lemma AddedLogged(c: Config, s: State, r: Round, log: bool)
    requires Inv(c, s) && (log ==> r in s.tasks && TaskOk(s.tasks[r]))
    ensures Inv(c, if log then s.(added := s.added + {r}) else s)
  {
    var s' := if log then s.(added := s.added + {r}) else s;
    forall x: int ensures Succeeded(c, s, x) == Succeeded(c, s', x) {}
    forall x | x in s'.tasks ensures TaskGood(c, s', x, s'.tasks[x]) { assert TaskGood(c, s, x, s.tasks[x]); }
  }

  lemma ReceiveKeeps(c: Config, s: State, r: Round)
    requires Inv(c, s) && Enabled(c, s, Receive(r))
    ensures Inv(c, Next(c, s, Receive(r)))
  {
    var s' := Next(c, s, Receive(r));
    forall x: int ensures Succeeded(c, s, x) == Succeeded(c, s', x) {}
    forall x | x in s'.tasks ensures TaskGood(c, s', x, s'.tasks[x]) { assert TaskGood(c, s, x, s.tasks[x]); }
  }

  /** The steps of a worker that change nothing but its phase or its copies. */
  lemma WorkerKeeps(c: Config, s: State, step: Step)
    requires Inv(c, s) && Enabled(c, s, step)
    requires step.Take? || step.Fetch? || step.Retry? || step.GiveUp? || step.WriteResult? || step.Report?
    ensures Inv(c, Next(c, s, step))
  {
    var r := step.r;
    assert TaskGood(c, s, r, s.tasks[r]);
    SetKeeps(c, s, r, Next(c, s, step).tasks[r]);
  }

  lemma StepKeeps(c: Config, s: State, step: Step)
    requires Inv(c, s) && Enabled(c, s, step)
    ensures Inv(c, Next(c, s, step))
  {
    match step
    case Issue => IssueKeeps(c, s);
    case ReadLookback(r) => LookbackKeeps(c, s, r);
    case Authenticate(r) => AuthenticateKeeps(c, s, r);
    case ReadPrev(r, refused) => PrevKeeps(c, s, r, refused);
    case Receive(r) => ReceiveKeeps(c, s, r);
    case LedgerAdvances => LedgerKeeps(c, s, s.latest + 1);
    case _ => WorkerKeeps(c, s, step);
  }

  // ---------------------------------------------------------------- order

  /** A success means that all earlier rounds succeeded too. */
  lemma {:induction false} SuccessIsPrefix(c: Config, s: State, r: Round, x: Round)
    requires Inv(c, s) && r in s.tasks && TaskOk(s.tasks[r]) && c.from <= x <= r
    ensures TaskOk(s.tasks[x]) && x <= s.latest
    decreases r - x
  {
    assert TaskGood(c, s, r, s.tasks[r]);
    if x < r { SuccessIsPrefix(c, s, r - 1, x); }
  }

  /** If the fetch of a round ended badly no later round is ever added. */
  lemma NothingAfterFailure(c: Config, s: State, r: Round, x: Round)
    requires Inv(c, s) && r in s.tasks && Done(s.tasks[r]) && !s.tasks[r].phase.ok && x > r
    ensures x !in s.added
  {
    if x in s.added { SuccessIsPrefix(c, s, x, r); }
  }

  /** A step that adds a block does so right after its predecessor, whose fetch ended well, and
      only if the block was authenticated after its lookback round ended well. */
  lemma AddsInOrder(c: Config, s: State, step: Step, r: Round)
    requires Inv(c, s) && Enabled(c, s, step) && r !in s.added && r in Next(c, s, step).added
    ensures r == s.latest + 1 && Succeeded(c, s, r - 1) && r in s.authenticated && Succeeded(c, s, r - c.lookback)
  {
    assert TaskGood(c, s, r, s.tasks[r]);
  }

  /** A step that authenticates a block does so only after its lookback round ended well. */
  lemma AuthenticatesAfterLookback(c: Config, s: State, step: Step, r: Round)
    requires Inv(c, s) && Enabled(c, s, step) && r !in s.authenticated && r in Next(c, s, step).authenticated
    ensures Succeeded(c, s, r - c.lookback)
  {
    assert TaskGood(c, s, r, s.tasks[r]);
  }

  // ---------------------------------------------------------------- channels

  predicate Between(r: Round, lo: int, hi: int) { lo <= r < hi }

  function Interval(lo: int, hi: int): set<Round> {
    set r: Round | 0 <= r < hi && Between(r, lo, hi)
  }

  lemma {:induction false} IntervalSize(lo: int, hi: int)
    requires 0 <= lo <= hi
    ensures |Interval(lo, hi)| == hi - lo
    decreases hi - lo
  {
    if lo == hi {
      assert Interval(lo, hi) == {};
    } else {
      IntervalSize(lo, hi - 1);
      assert Interval(lo, hi) == Interval(lo, hi - 1) + {hi - 1};
    }
  }

  /** Rounds that were issued and whose result the main loop has not received. */
  function Outstanding(s: State): set<Round> { set r | r in s.tasks && r !in s.received }

  /** The tasks in the task channel, and the results in the completion channel. */
  function InTaskChannel(s: State): set<Round> { set r | r in s.tasks && s.tasks[r].phase.Queued? }

  function InCompletions(s: State): set<Round> { set r | r in s.tasks && s.tasks[r].phase.Sent? && r !in s.received }

  /** At most as many rounds are outstanding as there are workers. */
  lemma FewOutstanding(c: Config, s: State)
    requires Inv(c, s)
    ensures |Outstanding(s)| <= c.Workers()
    ensures MayIssue(c, s) ==> |Outstanding(s)| < c.Workers()
  {
    var n := c.Workers();
    var lo := if s.next < c.from + n then c.from else if s.next - n in s.received then s.next - n + 1 else s.next - n;
    forall r | r in Outstanding(s) ensures r in Interval(lo, s.next) {}
    IntervalSize(lo, s.next);
    SubsetSize(Outstanding(s), Interval(lo, s.next));
  }

  /** No send ever blocks: the task channel has room for every round that is issued, the
      completion channel for every result that is reported, and each result channel for both
      copies. */
  lemma SendsNeverBlock(c: Config, s: State, r: Round)
    requires Inv(c, s)
    ensures MayIssue(c, s) ==> |InTaskChannel(s)| < c.Workers()
    ensures Enabled(c, s, Report(r)) ==> |InCompletions(s)| < c.Workers()
    ensures Enabled(c, s, WriteResult(r)) ==> Written(c, s, r) - Reads(c, s, r) < 2
  {
    FewOutstanding(c, s);
    SubsetSize(InTaskChannel(s), Outstanding(s));
    if Enabled(c, s, Report(r)) {
      SubsetSize(InCompletions(s) + {r}, Outstanding(s));
    }
  }

  /** Two copies of each result are enough: once both are written, whoever still has to read
      one finds it. */
  lemma CopiesSuffice(c: Config, s: State, r: Round)
    requires Inv(c, s) && r in s.tasks && Working(s.tasks[r])
    ensures Written(c, s, r - 1) == 2 ==> Readable(c, s, r - 1)
    ensures !s.tasks[r].lookRead && Written(c, s, r - c.lookback) == 2 ==> Readable(c, s, r - c.lookback)
  {
    assert TaskGood(c, s, r, s.tasks[r]);
  }

  // ---------------------------------------------------------------- runs

  predicate Possible(c: Config, s: State, steps: seq<Step>)
    decreases |steps|, 0
  {
    steps == [] ||
    (Possible(c, s, steps[..|steps| - 1]) && Enabled(c, After(c, s, steps[..|steps| - 1]), steps[|steps| - 1]))
  }

  function After(c: Config, s: State, steps: seq<Step>): State
    requires Possible(c, s, steps)
    decreases |steps|, 1
  {
    if steps == [] then s else Next(c, After(c, s, steps[..|steps| - 1]), steps[|steps| - 1])
  }

  lemma {:induction false} RunKeeps(c: Config, s: State, steps: seq<Step>)
    requires Inv(c, s) && Possible(c, s, steps)
    ensures Inv(c, After(c, s, steps))
  {
    if steps != [] {
      RunKeeps(c, s, steps[..|steps| - 1]);
      StepKeeps(c, After(c, s, steps[..|steps| - 1]), steps[|steps| - 1]);
    }
  }

  /** For any order of fetches, failures, reads and completions: every added block has all its
      predecessors in the ledger, every authenticated block its lookback round, nothing is
      added after a failure, and no send blocks. */
  lemma EveryRunInOrder(c: Config, steps: seq<Step>)
    requires c.Valid() && Possible(c, Start(c), steps)
    ensures var s := After(c, Start(c), steps);
      && (forall r, x: Round :: r in s.added && c.from <= x <= r ==> x in s.tasks && TaskOk(s.tasks[x]) && x <= s.latest)
      && (forall r :: r in s.authenticated ==> Succeeded(c, s, r - c.lookback))
      && (forall r, x :: r in s.tasks && Done(s.tasks[r]) && !s.tasks[r].phase.ok && x > r ==> x !in s.added)
      && (MayIssue(c, s) ==> |InTaskChannel(s)| < c.Workers())
      && (forall r :: Enabled(c, s, Report(r)) ==> |InCompletions(s)| < c.Workers())
      && (forall r: Round :: Enabled(c, s, WriteResult(r)) ==> Written(c, s, r) - Reads(c, s, r) < 2)
  {
    StartInv(c);
    RunKeeps(c, Start(c), steps);
    var s := After(c, Start(c), steps);
    forall r, x: Round | r in s.added && c.from <= x <= r ensures x in s.tasks && TaskOk(s.tasks[x]) && x <= s.latest {
      SuccessIsPrefix(c, s, r, x);
    }
    forall r, x | r in s.tasks && Done(s.tasks[r]) && !s.tasks[r].phase.ok && x > r ensures x !in s.added {
      NothingAfterFailure(c, s, r, x);
    }
    SendsNeverBlock(c, s, 0);
    forall r | Enabled(c, s, Report(r)) ensures |InCompletions(s)| < c.Workers() { SendsNeverBlock(c, s, r); }
    forall r: Round | Enabled(c, s, WriteResult(r)) ensures Written(c, s, r) - Reads(c, s, r) < 2 { SendsNeverBlock(c, s, r); }
  }
}
