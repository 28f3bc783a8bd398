/** Blocks on their way to disk: callers put blocks, a background loop writes and forgets
    them, and the node may stop at any point. */
module BlockQueue {
  import opened Options

  type Round = nat

  datatype Block = Block(round: Round, body: nat)

  /** How far back the accounts and the transaction tail reach, and whether blocks are kept forever. */
  datatype Config = Config(lookback: nat, maxLife: nat, archival: bool)

  function SubSaturate(a: nat, b: nat): nat { if a < b then 0 else a - b }

  /** Where the background loop is. */
  datatype Phase =
    | Idle
    | Writing(work: seq<Block>)
    | Written(count: nat, last: Block)
    | Notifying(committed: Round)
    | Forgetting(minToSave: Round)

  /** The queue, the blocks database with its first and last row, and the round of the
      accounts database. The field chain, which no step reads, lists the block put for each round. */
  datatype State = State(
    lastCommitted: Round,
    q: seq<Block>,
    phase: Phase,
    db: map<Round, Block>,
    low: Round,
    top: Round,
    dbRound: Round,
    chain: seq<Block>)
  {
    function Latest(): Round { lastCommitted + |q| }
  }

  datatype Step =
    | Put(b: Block)
    | Snapshot
    | DbWrite(ok: bool)
    | Advance
    | Notify(flush: bool)
    | Forget(ok: bool)
    | Crash

  function Genesis(b: Block): State {
    State(0, [], Idle, map[0 := b], 0, 0, 0, [b])
  }

  // ---------------------------------------------------------------- steps

  /** A block for the next round is queued; any other is refused. */
  function PutBlock(s: State, b: Block): State {
    if b.round == s.Latest() + 1 then s.(q := s.q + [b], chain := s.chain + [b]) else s
  }

  /** Each block is the successor of the last row when it is written. */
  predicate Consecutive(top: Round, work: seq<Block>) {
    forall i :: 0 <= i < |work| ==> work[i].round == top + 1 + i
  }

  predicate Within(r: Round, top: Round, n: nat) { top < r <= top + n }

  function Rounds(top: Round, n: nat): set<Round> { set r | top < r <= top + n && Within(r, top, n) }

  /** The rows after writing a series of blocks. */
  function Inserted(db: map<Round, Block>, top: Round, work: seq<Block>): map<Round, Block> {
    map r | r in db.Keys + Rounds(top, |work|) :: if top < r <= top + |work| then work[r - top - 1] else db[r]
  }

  /** The transaction that writes blocks one by one, each checked against the last row; None
      when one is refused and the transaction is rolled back. */
  method InsertAll(db: map<Round, Block>, top: Round, work: seq<Block>) returns (r: Option<map<Round, Block>>)
    ensures r.Some? <==> Consecutive(top, work)
    ensures r.Some? ==> r.value == Inserted(db, top, work)
  {
    var d := db;
    var i := 0;
    assert Inserted(db, top, work[..0]) == db;
    while i < |work|
      invariant 0 <= i <= |work| && Consecutive(top, work[..i]) && d == Inserted(db, top, work[..i])
    {
      if work[i].round != top + i + 1 { return None; }
      InsertedStep(db, top, work, i);
      d := d[work[i].round := work[i]];
      i := i + 1;
    }
    assert work[..i] == work;
    return Some(d);
  }

  lemma InsertedStep(db: map<Round, Block>, top: Round, work: seq<Block>, i: nat)
    requires i < |work| && work[i].round == top + i + 1
    ensures Inserted(db, top, work[..i + 1]) == Inserted(db, top, work[..i])[work[i].round := work[i]]
  {
  }

  /** What the accounts tracker answers when told of a commit, and its new round. */
  function AccountsCommitted(c: Config, s: State, committed: Round, flush: bool): (Round, Round) {
    if committed < c.lookback then (0, s.dbRound)
    else if committed - c.lookback <= s.dbRound || !flush then (s.dbRound, s.dbRound)
    else (committed - c.lookback, committed - c.lookback)
  }

  function MinToSave(c: Config, committed: Round, accounts: Round): Round {
    if c.archival then 0 else Min(Min(committed, accounts), SubSaturate(committed + 1, c.maxLife))
  }

  predicate Enabled(s: State, step: Step) {
    match step
    case Put(_) => true
    case Snapshot => s.phase.Idle? && s.q != []
    case DbWrite(_) => s.phase.Writing?
    case Advance => s.phase.Written?
    case Notify(_) => s.phase.Notifying?
    case Forget(_) => s.phase.Forgetting?
    case Crash => true
  }

  /** None stands for a panic. */
  function Next(c: Config, s: State, step: Step): Option<State>
    requires Enabled(s, step)
  {
    match step
    case Put(b) => Some(PutBlock(s, b))
    case Snapshot => Some(s.(phase := Writing(s.q)))
    case DbWrite(ok) =>
      var work := s.phase.work;
      if ok && work != [] && Consecutive(s.top, work) then
        Some(WriteDone(s, work, Inserted(s.db, s.top, work)))
      else Some(s.(phase := Idle))
    case Advance =>
      var n := s.phase.count;
      if n > |s.q| || s.phase.last.round != s.lastCommitted + n then None
      else Some(s.(lastCommitted := s.lastCommitted + n, q := s.q[n..], phase := Notifying(s.lastCommitted + n)))
    case Notify(flush) =>
      var (retain, dbRound) := AccountsCommitted(c, s, s.phase.committed, flush);
      Some(s.(dbRound := dbRound, phase := Forgetting(MinToSave(c, s.phase.committed, retain))))
    case Forget(ok) =>
      var m := s.phase.minToSave;
      if ok && m <= s.top then Some(s.(db := map r | r in s.db && r >= m :: s.db[r], low := if s.low < m then m else s.low, phase := Idle))
      else Some(s.(phase := Idle))
    case Crash =>
      Some(s.(lastCommitted := s.top, q := [], phase := Idle, chain := if s.top < |s.chain| then s.chain[..s.top + 1] else s.chain))
  }

  // ---------------------------------------------------------------- reading

  /** None stands for no entry. */
  function GetBlock(s: State, r: Round): Option<Block> {
    if r > s.Latest() then None
    else if r > s.lastCommitted then Some(s.q[r - s.lastCommitted - 1])
    else if r in s.db then Some(s.db[r]) else None
  }

  // ---------------------------------------------------------------- the invariant

  /** The rows are the chain from the first to the last. */
  ghost predicate RowsOk(s: State) {
    && s.low <= s.top < |s.chain|
    && (forall r :: r in s.db <==> s.low <= r <= s.top)
    && (forall r {:trigger s.db[r]} :: r in s.db ==> s.db[r] == s.chain[r])
  }

  ghost predicate ChainOk(s: State) {
    && |s.chain| == s.Latest() + 1
    && (forall r :: 0 <= r < |s.chain| ==> s.chain[r].round == r)
    && (forall i :: 0 <= i < |s.q| ==> s.q[i] == s.chain[s.lastCommitted + 1 + i])
  }

  predicate PhaseOk(s: State) {
    match s.phase
    case Idle => s.top == s.lastCommitted
    case Writing(work) => s.top == s.lastCommitted && 0 < |work| <= |s.q| && (forall i :: 0 <= i < |work| ==> work[i] == s.q[i])
    case Written(n, last) =>
      0 < n <= |s.q| && s.top == s.lastCommitted + n && last == s.q[n - 1]
    case Notifying(committed) => s.top == s.lastCommitted == committed
    case Forgetting(m) => s.top == s.lastCommitted
  }

  /** The first row is early enough for every tracker to reload. */
  predicate LowOk(c: Config, s: State) {
    s.low <= s.dbRound <= s.lastCommitted && s.low <= SubSaturate(s.lastCommitted + 1, c.maxLife)
  }

  predicate ForgetOk(c: Config, s: State) {
    s.phase.Forgetting? ==>
      && s.phase.minToSave <= s.dbRound
      && s.phase.minToSave <= SubSaturate(s.lastCommitted + 1, c.maxLife)
  }

  ghost predicate Inv(c: Config, s: State) {
    && c.maxLife > 0
    && ChainOk(s) && RowsOk(s) && PhaseOk(s) && LowOk(c, s) && ForgetOk(c, s)
  }

  lemma GenesisInv(c: Config, b: Block)
    requires b.round == 0 && c.maxLife > 0
    ensures Inv(c, Genesis(b))
  {
  }

  lemma PutKeeps(c: Config, s: State, b: Block)
    requires Inv(c, s)
    ensures Inv(c, PutBlock(s, b))
  {
    if b.round == s.Latest() + 1 {
      PutChain(s, b);
      PutPhase(s, b);
      assert RowsOk(s.(chain := s.chain + [b]));
    }
  }

  lemma PutChain(s: State, b: Block)
    requires ChainOk(s) && b.round == s.Latest() + 1
    ensures ChainOk(s.(q := s.q + [b], chain := s.chain + [b]))
  {
  }

  lemma PutPhase(s: State, b: Block)
    requires PhaseOk(s)
    ensures PhaseOk(s.(q := s.q + [b], chain := s.chain + [b]))
  {
  }

  /** The blocks being written are the chain from the last row on. */
  lemma WorkIsChain(s: State)
    requires ChainOk(s) && PhaseOk(s) && s.phase.Writing?
    ensures var work := s.phase.work;
      && s.top + |work| < |s.chain| && Consecutive(s.top, work)
      && (forall i :: 0 <= i < |work| ==> work[i] == s.chain[s.top + 1 + i])
      && work[|work| - 1] == s.q[|work| - 1]
  {
    var work := s.phase.work;
    forall i | 0 <= i < |work| ensures work[i] == s.chain[s.top + 1 + i] {
      assert work[i] == s.q[i];
    }
  }

  lemma RowsWritten(s: State, work: seq<Block>, db: map<Round, Block>)
    requires RowsOk(s) && s.top + |work| < |s.chain| && db == Inserted(s.db, s.top, work)
    requires forall i :: 0 <= i < |work| ==> work[i] == s.chain[s.top + 1 + i]
    ensures RowsOk(s.(db := db, top := s.top + |work|))
  {
  }

  lemma WrittenInv(c: Config, s: State, work: seq<Block>, db: map<Round, Block>)
    requires Inv(c, s) && s.phase == Writing(work) && work[|work| - 1] == s.q[|work| - 1]
    requires RowsOk(s.(db := db, top := s.top + |work|))
    ensures Inv(c, s.(db := db, top := s.top + |work|, phase := Written(|work|, work[|work| - 1])))
  {
  }

  lemma WriteFails(c: Config, s: State)
    requires Inv(c, s) && s.phase.Writing?
    ensures Inv(c, s.(phase := Idle))
  {
  }

  function WriteDone(s: State, work: seq<Block>, db: map<Round, Block>): State
    requires work != []
  {
    s.(db := db, top := s.top + |work|, phase := Written(|work|, work[|work| - 1]))
  }

  lemma WriteSucceeds(c: Config, s: State, db: map<Round, Block>)
    requires Inv(c, s) && s.phase.Writing? && db == Inserted(s.db, s.top, s.phase.work)
    ensures Inv(c, WriteDone(s, s.phase.work, db))
  {
    WorkWritten(s, db);
    WrittenInv(c, s, s.phase.work, db);
  }

  lemma WorkWritten(s: State, db: map<Round, Block>)
    requires ChainOk(s) && PhaseOk(s) && RowsOk(s) && s.phase.Writing? && db == Inserted(s.db, s.top, s.phase.work)
    ensures var work := s.phase.work;
      RowsOk(s.(db := db, top := s.top + |work|)) && work[|work| - 1] == s.q[|work| - 1]
  {
    WorkIsChain(s);
    RowsWritten(s, s.phase.work, db);
  }

  lemma WriteKeeps(c: Config, s: State, ok: bool)
    requires Inv(c, s) && s.phase.Writing?
    ensures Next(c, s, DbWrite(ok)) == Some(if ok then WriteDone(s, s.phase.work, Inserted(s.db, s.top, s.phase.work)) else s.(phase := Idle))
    ensures Inv(c, Next(c, s, DbWrite(ok)).value)
  {
    WorkIsChain(s);
    if ok { WriteSucceeds(c, s, Inserted(s.db, s.top, s.phase.work)); } else { WriteFails(c, s); }
  }

  lemma AdvanceKeeps(c: Config, s: State)
    requires Inv(c, s) && s.phase.Written?
    ensures Next(c, s, Advance).Some? && Inv(c, Next(c, s, Advance).value)
  {
    var n := s.phase.count;
    assert s.q[n - 1] == s.chain[s.lastCommitted + n];
    forall i | 0 <= i < |s.q| - n ensures s.q[n..][i] == s.chain[s.lastCommitted + n + 1 + i] {
      assert s.q[n..][i] == s.q[n + i];
    }
  }

  lemma NotifyKeeps(c: Config, s: State, flush: bool)
    requires Inv(c, s) && s.phase.Notifying?
    ensures Inv(c, Next(c, s, Notify(flush)).value)
  {
  }

  lemma ForgetKeeps(c: Config, s: State, ok: bool)
    requires Inv(c, s) && s.phase.Forgetting?
    ensures Next(c, s, Forget(ok)).Some? && Inv(c, Next(c, s, Forget(ok)).value)
    ensures s.phase.minToSave <= s.top
  {
  }

  lemma CrashKeeps(c: Config, s: State)
    requires Inv(c, s)
    ensures Inv(c, Next(c, s, Crash).value)
  {
    var s' := Next(c, s, Crash).value;
    assert s'.chain == s.chain[..s.top + 1];
  }

  /** No step panics, and every step keeps the invariant; a write of queued blocks is never
      refused by the database, and neither is forgetting. */
  lemma StepKeeps(c: Config, s: State, step: Step)
    requires Inv(c, s) && Enabled(s, step)
    ensures Next(c, s, step).Some? && Inv(c, Next(c, s, step).value)
  {
    match step
    case Put(b) => PutKeeps(c, s, b);
    case Snapshot =>
    case DbWrite(ok) => WriteKeeps(c, s, ok);
    case Advance => AdvanceKeeps(c, s);
    case Notify(flush) => NotifyKeeps(c, s, flush);
    case Forget(ok) => ForgetKeeps(c, s, ok);
    case Crash => CrashKeeps(c, s);
  }

  // ---------------------------------------------------------------- runs

  predicate Possible(c: Config, s: State, steps: seq<Step>)
    decreases |steps|, 0
  {
    steps == [] ||
    (Possible(c, s, steps[..|steps| - 1]) &&
     (After(c, s, steps[..|steps| - 1]).Some? ==> Enabled(After(c, s, steps[..|steps| - 1]).value, steps[|steps| - 1])))
  }

  function After(c: Config, s: State, steps: seq<Step>): Option<State>
    requires Possible(c, s, steps)
    decreases |steps|, 1
  {
    if steps == [] then Some(s)
    else match After(c, s, steps[..|steps| - 1])
         case None => None
         case Some(mid) => Next(c, mid, steps[|steps| - 1])
  }

  lemma {:induction false} RunKeeps(c: Config, s: State, steps: seq<Step>)
    requires Inv(c, s) && Possible(c, s, steps)
    ensures After(c, s, steps).Some? && Inv(c, After(c, s, steps).value)
  {
    if steps != [] {
      RunKeeps(c, s, steps[..|steps| - 1]);
      StepKeeps(c, After(c, s, steps[..|steps| - 1]).value, steps[|steps| - 1]);
    }
  }

  /** Every round that a tracker reads when it reloads still has its block, and the accounts
      database is not ahead of the blocks, so it is not reset. */
  ghost predicate Reloadable(c: Config, s: State) {
    && s.dbRound <= s.top < |s.chain|
    && (forall r :: s.dbRound <= r <= s.top ==> r in s.db && s.db[r] == s.chain[r])
    && (forall r :: SubSaturate(s.top + 1, c.maxLife) <= r <= s.top ==> r in s.db && s.db[r] == s.chain[r])
  }

  /** Under every interleaving of puts, writes, advances, forgets and crashes, starting from
      genesis: nothing panics, each round up to the latest that is not forgotten reads back
      the one block put for it, later rounds have none, and all trackers can reload. */
  lemma EveryRunReadsBack(c: Config, b: Block, steps: seq<Step>)
    requires b.round == 0 && c.maxLife > 0 && Possible(c, Genesis(b), steps)
    ensures After(c, Genesis(b), steps).Some?
    ensures var s := After(c, Genesis(b), steps).value;
      && |s.chain| == s.Latest() + 1
      && (forall r: Round :: s.low <= r <= s.Latest() ==> GetBlock(s, r) == Some(s.chain[r]) && s.chain[r].round == r)
      && (forall r: Round :: r < s.low || r > s.Latest() ==> GetBlock(s, r) == None)
      && Reloadable(c, s)
  {
    GenesisInv(c, b);
    RunKeeps(c, Genesis(b), steps);
  }

  lemma StepDurable(c: Config, s: State, step: Step, r: Round)
    requires Inv(c, s) && Enabled(s, step) && r <= s.lastCommitted
    ensures Next(c, s, step).Some?
    ensures var s' := Next(c, s, step).value;
      && r <= s'.lastCommitted < |s'.chain| && s'.chain[r] == s.chain[r]
      && s.low <= s'.low
  {
    StepKeeps(c, s, step);
  }

  /** A committed block is durable: whatever happens next, crashes included, its round keeps
      the same block. In particular a reader that looked up the round earlier and reads the
      database later gets that block or finds it forgotten. */
  lemma {:induction false} CommittedForever(c: Config, s: State, steps: seq<Step>, r: Round)
    requires Inv(c, s) && Possible(c, s, steps) && r <= s.lastCommitted
    ensures After(c, s, steps).Some?
    ensures var s' := After(c, s, steps).value;
      && r <= s'.lastCommitted < |s'.chain| && s'.chain[r] == s.chain[r]
      && (r in s'.db ==> s'.db[r] == s.chain[r]) && (r !in s'.db ==> r < s'.low)
  {
    if steps != [] {
      var head := steps[..|steps| - 1];
      CommittedForever(c, s, head, r);
      RunKeeps(c, s, head);
      StepDurable(c, After(c, s, head).value, steps[|steps| - 1], r);
    }
    RunKeeps(c, s, steps);
  }

  /** The registry's minimum over what the trackers need. */
  method CommittedUpTo(rnd: Round, retains: seq<Round>) returns (m: Round)
    ensures m <= rnd && (forall i :: 0 <= i < |retains| ==> m <= retains[i])
    ensures m == rnd || m in retains
  {
    m := rnd;
    var i := 0;
    while i < |retains|
      invariant 0 <= i <= |retains| && m <= rnd
      invariant forall j :: 0 <= j < i ==> m <= retains[j]
      invariant m == rnd || m in retains
    {
      if retains[i] < m { m := retains[i]; }
      i := i + 1;
    }
  }
}
