/** Votes are released only once the state that ordered them is on disk, so a crash cannot
    make a node vote twice. */
module Crash {
  import opened Options
  import opened AgreementTypes
  import opened Players
  import opened PlayerSafety

  // ---------------------------------------------------------------- the node

  /** What is written to disk: a player and the actions it was about to take, or the
      service's persist fields while they are still unset. The field history, which no step
      reads, holds every action ordered on the way to the saved state. */
  datatype Record = Zero | Saved(st: State, acts: seq<Action>, history: set<Action>)

  datatype Request = Request(id: nat, record: Record)

  datatype System = System(
    live: State,
    pending: seq<Action>,
    fields: Record,
    queue: seq<Request>,
    waiting: map<nat, Action>,
    written: set<nat>,
    disk: Option<Record>,
    released: set<Action>,
    nextId: nat,
    history: set<Action>,
    base: set<Action>,
    crashes: nat)

  datatype Step =
    | Input(ev: Event)
    | Act(votes: bool)
    | Write(ok: bool)
    | Release(id: nat)
    | Crash(nextRound: Round)

  function Start(t: Timing, round: Round): System {
    System(Initial(t, round), [Assemble(round, 0), Rezero(0)], Zero, [], map[], {}, None, {}, 0, {}, {}, 0)
  }

  predicate Persistent(acts: seq<Action>) {
    exists i :: 0 <= i < |acts| && acts[i].Attest?
  }

  /** An event is taken only after all pending actions; a write serves the oldest request; a
      vote is released when its own request was written; the ledger of a restarted node is
      past its genesis round. */
  predicate Enabled(s: System, step: Step) {
    match step
    case Input(ev) => s.pending == [] && Admissible(s.live, ev)
    case Act(_) => s.pending != []
    case Write(_) => s.queue != []
    case Release(id) => id in s.written && id in s.waiting
    case Crash(nextRound) => nextRound > 0
  }

  /** The node has new actions to take; if some are attests the persist fields are set. */
  function Took(s: System, st: State, acts: seq<Action>): System {
    var history := s.history + ActsOf(acts);
    s.(live := st, pending := acts, history := history,
       fields := if Persistent(acts) then Saved(st, acts, history) else s.fields)
  }

  function Handled(t: Timing, s: System, ev: Event): System
    requires Admissible(s.live, ev)
  {
    var (st, acts) := Handle(t, s.live, ev);
    Took(s, st, acts)
  }

  /** Take the next pending action; an attest for which there are keys asks for the persist
      fields to be written and waits. */
  function Acted(s: System, votes: bool): System
    requires s.pending != []
  {
    var a, rest := s.pending[0], s.pending[1..];
    if a.Attest? && votes then
      s.(pending := rest,
         queue := s.queue + [Request(s.nextId, s.fields)],
         waiting := s.waiting[s.nextId := a],
         nextId := s.nextId + 1)
    else s.(pending := rest)
  }

  function Wrote(s: System, ok: bool): System
    requires s.queue != []
  {
    var r := s.queue[0];
    if ok then s.(queue := s.queue[1..], disk := Some(r.record), written := s.written + {r.id})
    else s.(queue := s.queue[1..])
  }

  /** A node that starts over in round nextRound; history records what it may have voted. */
  function Restarted(t: Timing, s: System, nextRound: Round, history: set<Action>): System {
    s.(live := Initial(t, nextRound), pending := [Assemble(nextRound, 0), Rezero(0)], fields := Zero, queue := [],
       waiting := map[], written := {}, history := history, base := history, crashes := s.crashes + 1)
  }

  function Crashed(t: Timing, s: System, nextRound: Round): System {
    match s.disk
    case None => Restarted(t, s, nextRound, s.base)
    case Some(Zero) => Restarted(t, s, nextRound, s.released)
    case Some(Saved(st, acts, history)) =>
      if st.p.round < nextRound then Restarted(t, s, nextRound, history)
      else s.(live := st, pending := acts, fields := Zero, queue := [], waiting := map[], written := {},
              history := history, base := history, crashes := s.crashes + 1)
  }

  function Next(t: Timing, s: System, step: Step): System
    requires Enabled(s, step)
  {
    match step
    case Input(ev) => Handled(t, s, ev)
    case Act(votes) => Acted(s, votes)
    case Write(ok) => Wrote(s, ok)
    case Release(id) => s.(released := s.released + {s.waiting[id]}, waiting := s.waiting - {id})
    case Crash(nextRound) => Crashed(t, s, nextRound)
  }

  // ---------------------------------------------------------------- the invariant

  /** The actions that restarting from a record takes into account. */
  function Cover(s: System, r: Record): set<Action> {
    if r.Zero? then s.base else r.history
  }

  function DiskCover(s: System): set<Action> {
    if s.disk.None? then s.base else Cover(s, s.disk.value)
  }

  ghost predicate RecordOk(q: NextValues, s: System, r: Record) {
    && s.base <= Cover(s, r) <= s.history
    && (r.Saved? ==> GoodRun(q, r.st, r.history) && ActsOf(r.acts) <= r.history)
  }

  ghost predicate PendingOk(s: System) {
    forall a :: a in s.pending && a.Attest? ==> a in Cover(s, s.fields)
  }

  /** Requests are in the order in which their records grow. */
  ghost predicate QueueOk(q: NextValues, s: System) {
    && (forall i :: 0 <= i < |s.queue| ==> RecordOk(q, s, s.queue[i].record))
    && (forall i :: 0 <= i < |s.queue| ==> DiskCover(s) <= Cover(s, s.queue[i].record) <= Cover(s, s.fields))
    && (forall i, j :: 0 <= i < j < |s.queue| ==> Cover(s, s.queue[i].record) <= Cover(s, s.queue[j].record))
  }

  ghost predicate WaitingOk(s: System) {
    && (forall i :: 0 <= i < |s.queue| && s.queue[i].id in s.waiting ==> s.waiting[s.queue[i].id] in Cover(s, s.queue[i].record))
    && (forall id :: id in s.written && id in s.waiting ==> s.waiting[id] in DiskCover(s))
    && (forall id :: id in s.waiting || id in s.written ==> id < s.nextId)
    && (forall i :: 0 <= i < |s.queue| ==> s.queue[i].id < s.nextId)
  }

  ghost predicate Safe(q: NextValues, s: System) {
    && GoodRun(q, s.live, s.history)
    && RecordOk(q, s, s.fields)
    && (s.disk.Some? ==> RecordOk(q, s, s.disk.value))
    && (s.disk.None? ==> s.base == {})
    && DiskCover(s) <= Cover(s, s.fields)
    && PendingOk(s)
    && QueueOk(q, s)
    && WaitingOk(s)
    && s.released <= DiskCover(s)
  }

  lemma StartSafe(q: NextValues, t: Timing, round: Round)
    ensures Safe(q, Start(t, round))
  {
    InitialInv(q, t, round);
  }

  // ---------------------------------------------------------------- every step keeps it

  lemma TookSafe(q: NextValues, s: System, st: State, acts: seq<Action>)
    requires Safe(q, s) && GoodRun(q, st, s.history + ActsOf(acts))
    ensures Safe(q, Took(s, st, acts))
  {
    var s' := Took(s, st, acts);
    assert s.history <= s'.history;
    assert DiskCover(s') == DiskCover(s);
    forall i | 0 <= i < |s.queue| ensures RecordOk(q, s', s.queue[i].record) {
      assert RecordOk(q, s, s.queue[i].record);
    }
    forall a | a in acts && a.Attest? ensures Persistent(acts) {
      var i :| 0 <= i < |acts| && acts[i] == a;
    }
  }

  lemma InputSafe(q: NextValues, t: Timing, s: System, ev: Event)
    requires Unique(q) && Safe(q, s) && Enabled(s, Input(ev)) && SoundEvent(q, s.live, ev)
    requires Handle(t, s.live, ev).0.p.step < LATE
    ensures Safe(q, Next(t, s, Input(ev)))
  {
    HandleStep(q, t, s.live, ev);
    var (st, acts) := Handle(t, s.live, ev);
    GoodRunStep(q, s.live, s.history, st, acts);
    TookSafe(q, s, st, acts);
  }

  /** A queue with the persist fields at its end. */
  lemma ActQueue(q: NextValues, s: System, votes: bool)
    requires QueueOk(q, s) && RecordOk(q, s, s.fields) && DiskCover(s) <= Cover(s, s.fields) && s.pending != []
    ensures QueueOk(q, Acted(s, votes))
  {
    var s' := Acted(s, votes);
    forall i | 0 <= i < |s'.queue| ensures RecordOk(q, s', s'.queue[i].record) {
      if i < |s.queue| { assert RecordOk(q, s, s.queue[i].record); }
    }
  }

  lemma ActWaiting(s: System, votes: bool)
    requires WaitingOk(s) && PendingOk(s) && s.pending != []
    ensures WaitingOk(Acted(s, votes)) && PendingOk(Acted(s, votes))
  {
    assert s.pending[0] in s.pending;
  }

  lemma ActSafe(q: NextValues, t: Timing, s: System, votes: bool)
    requires Safe(q, s) && Enabled(s, Act(votes))
    ensures Safe(q, Next(t, s, Act(votes)))
  {
    ActQueue(q, s, votes);
    ActWaiting(s, votes);
  }

  /** A queue without its first request, whose record may be on disk. */
  lemma WriteQueue(q: NextValues, s: System, ok: bool)
    requires QueueOk(q, s) && s.queue != []
    ensures QueueOk(q, Wrote(s, ok)) && DiskCover(s) <= DiskCover(Wrote(s, ok)) <= Cover(s, s.fields)
  {
    var s', r := Wrote(s, ok), s.queue[0];
    assert DiskCover(s) <= Cover(s, r.record) <= Cover(s, s.fields);
    forall i | 0 <= i < |s'.queue|
      ensures RecordOk(q, s', s'.queue[i].record) && DiskCover(s') <= Cover(s', s'.queue[i].record) <= Cover(s', s'.fields)
    {
      assert s'.queue[i] == s.queue[i + 1];
      assert RecordOk(q, s, s.queue[i + 1].record);
      assert Cover(s, s.queue[0].record) <= Cover(s, s.queue[i + 1].record);
    }
  }

  lemma WriteWaiting(s: System, ok: bool)
    requires WaitingOk(s) && s.queue != [] && DiskCover(s) <= DiskCover(Wrote(s, ok))
    ensures WaitingOk(Wrote(s, ok))
  {
    var s' := Wrote(s, ok);
    assert forall i :: 0 <= i < |s'.queue| ==> s'.queue[i] == s.queue[i + 1];
  }

  lemma WriteSafe(q: NextValues, t: Timing, s: System, ok: bool)
    requires Safe(q, s) && Enabled(s, Write(ok))
    ensures Safe(q, Next(t, s, Write(ok)))
  {
    assert RecordOk(q, s, s.queue[0].record);
    WriteQueue(q, s, ok);
    WriteWaiting(s, ok);
  }

  lemma ReleaseSafe(q: NextValues, t: Timing, s: System, id: nat)
    requires Safe(q, s) && Enabled(s, Release(id))
    ensures Safe(q, Next(t, s, Release(id)))
  {
    var s' := Next(t, s, Release(id));
    forall i | 0 <= i < |s.queue| ensures RecordOk(q, s', s.queue[i].record) {
      assert RecordOk(q, s, s.queue[i].record);
    }
  }

  /** A vote whose value nothing but the lost state would fix. */
  predicate Exposed(a: Action, nextRound: Round) {
    a.Attest? && !Forced(a.step) && a.round >= nextRound
  }

  /** A crash does not find the unset fields on disk, or finds them when the ledger is past
      every round for which a vote other than redo and down was released. */
  predicate Harmless(s: System, step: Step) {
    step.Crash? && s.disk == Some(Zero) ==> forall a :: a in s.released ==> !Exposed(a, step.nextRound)
  }

  /** What was done in earlier rounds does not bind a node that starts over later. */
  lemma StartsOver(q: NextValues, t: Timing, acts: set<Action>, nextRound: Round)
    requires Consistent(acts)
    requires forall a :: a in acts && a.Attest? ==> Lawful(q, a) && !Exposed(a, nextRound)
    ensures GoodRun(q, Initial(t, nextRound), acts)
  {
    InitialInv(q, t, nextRound);
  }

  lemma CrashSafe(q: NextValues, t: Timing, s: System, nextRound: Round)
    requires Safe(q, s) && Enabled(s, Crash(nextRound)) && Harmless(s, Crash(nextRound))
    ensures Safe(q, Next(t, s, Crash(nextRound)))
  {
    match s.disk
    case None => StartsOver(q, t, {}, nextRound);
    case Some(Zero) =>
      assert s.released <= s.history;
      StartsOver(q, t, s.released, nextRound);
    case Some(Saved(st, acts, history)) =>
      if st.p.round < nextRound { StartsOver(q, t, history, nextRound); }
  }

  // ---------------------------------------------------------------- runs

  predicate Possible(t: Timing, s: System, steps: seq<Step>)
    decreases |steps|, 0
  {
    steps == [] ||
    (Possible(t, s, steps[..|steps| - 1]) && Enabled(After(t, s, steps[..|steps| - 1]), steps[|steps| - 1]))
  }

  function After(t: Timing, s: System, steps: seq<Step>): System
    requires Possible(t, s, steps)
    decreases |steps|, 1
  {
    if steps == [] then s else Next(t, After(t, s, steps[..|steps| - 1]), steps[|steps| - 1])
  }

  /** In every life the next quorums come from q and the player stays below the steps of
      fast recovery. */
  ghost predicate Regular(q: NextValues, t: Timing, s: System, steps: seq<Step>)
    requires Possible(t, s, steps)
    decreases |steps|
  {
    steps == [] ||
    (var s' := After(t, s, steps[..|steps| - 1]);
     var step := steps[|steps| - 1];
     && Regular(q, t, s, steps[..|steps| - 1])
     && (step.Input? ==> SoundEvent(q, s'.live, step.ev) && Handle(t, s'.live, step.ev).0.p.step < LATE))
  }

  ghost predicate AllHarmless(t: Timing, s: System, steps: seq<Step>)
    requires Possible(t, s, steps)
    decreases |steps|
  {
    steps == [] ||
    (AllHarmless(t, s, steps[..|steps| - 1]) && Harmless(After(t, s, steps[..|steps| - 1]), steps[|steps| - 1]))
  }

  lemma {:induction false} RunSafe(q: NextValues, t: Timing, s: System, steps: seq<Step>)
    requires Unique(q) && Safe(q, s) && Possible(t, s, steps)
    requires Regular(q, t, s, steps) && AllHarmless(t, s, steps)
    ensures Safe(q, After(t, s, steps))
  {
    if steps != [] {
      var head, step := steps[..|steps| - 1], steps[|steps| - 1];
      RunSafe(q, t, s, head);
      var s' := After(t, s, head);
      match step
      case Input(ev) => InputSafe(q, t, s', ev);
      case Act(votes) => ActSafe(q, t, s', votes);
      case Write(ok) => WriteSafe(q, t, s', ok);
      case Release(id) => ReleaseSafe(q, t, s', id);
      case Crash(nextRound) => CrashSafe(q, t, s', nextRound);
    }
  }

  /** With any number of crashes, as long as each is harmless, the votes that left the
      node never name two values for one round, period and step. */
  lemma ReleasedAgree(q: NextValues, t: Timing, round: Round, steps: seq<Step>)
    requires Unique(q) && Possible(t, Start(t, round), steps)
    requires Regular(q, t, Start(t, round), steps) && AllHarmless(t, Start(t, round), steps)
    ensures Consistent(After(t, Start(t, round), steps).released)
  {
    StartSafe(q, t, round);
    RunSafe(q, t, Start(t, round), steps);
    var s := After(t, Start(t, round), steps);
    assert s.released <= s.history;
  }

  // ---------------------------------------------------------------- one crash

  function Crashes(steps: seq<Step>): nat {
    if steps == [] then 0
    else Crashes(steps[..|steps| - 1]) + if steps[|steps| - 1].Crash? then 1 else 0
  }

  /** In its first life a node never asks for the unset fields to be written. */
  ghost predicate FirstLife(s: System) {
    && s.disk != Some(Zero)
    && (forall i :: 0 <= i < |s.queue| ==> s.queue[i].record.Saved?)
    && (s.fields.Zero? ==> forall a :: a in s.pending ==> !a.Attest?)
  }

  lemma FirstLifeStep(t: Timing, s: System, step: Step)
    requires FirstLife(s) && Enabled(s, step) && !step.Crash?
    ensures FirstLife(Next(t, s, step))
  {
    match step
    case Input(ev) =>
      var acts := Handle(t, s.live, ev).1;
      forall a | a in acts && a.Attest? ensures Persistent(acts) {
        var i :| 0 <= i < |acts| && acts[i] == a;
      }
    case Act(_) => assert s.pending[0] in s.pending;
    case _ =>
  }

  lemma {:induction false} FirstLifeRun(t: Timing, s: System, steps: seq<Step>)
    requires FirstLife(s) && Possible(t, s, steps) && Crashes(steps) == 0
    ensures FirstLife(After(t, s, steps))
  {
    if steps != [] {
      FirstLifeRun(t, s, steps[..|steps| - 1]);
      FirstLifeStep(t, After(t, s, steps[..|steps| - 1]), steps[|steps| - 1]);
    }
  }

  lemma {:induction false} OneCrashHarmless(t: Timing, s: System, steps: seq<Step>)
    requires FirstLife(s) && Possible(t, s, steps) && Crashes(steps) <= 1
    ensures AllHarmless(t, s, steps)
  {
    if steps != [] {
      OneCrashHarmless(t, s, steps[..|steps| - 1]);
      if steps[|steps| - 1].Crash? { FirstLifeRun(t, s, steps[..|steps| - 1]); }
    }
  }

  /** Over any run with one crash and restore the released votes never name two values
      for one round, period and step. */
  lemma OneCrashSafe(q: NextValues, t: Timing, round: Round, steps: seq<Step>)
    requires Unique(q) && Possible(t, Start(t, round), steps) && Regular(q, t, Start(t, round), steps)
    requires Crashes(steps) <= 1
    ensures Consistent(After(t, Start(t, round), steps).released)
  {
    OneCrashHarmless(t, Start(t, round), steps);
    ReleasedAgree(q, t, round, steps);
  }
}
