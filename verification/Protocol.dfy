/** The asynchronous query engine as a step machine: one main thread, any number of
    connection workers, one shared sink. A step is one locked region or one atomic
    operation; between two steps of a thread any other thread may take steps of its own. */
module Protocol {
  import opened Options
  import opened Guards
  import opened Registries
  import opened Results
  import opened Workers

  /** A statement is in the registry, in the hands of a teardown job, or gone. */
  datatype Fate = Live | Doomed | Destroyed

  /** A statement's connection, the handle it was registered under, and what became of it. */
  datatype StmtInfo = StmtInfo(conn: nat, handle: int, fate: Fate)

  /** Where a statement was destroyed. */
  datatype Grave = Grave(stmt: nat, onWorker: Option<nat>)

  /** What the main thread is in the middle of: between pushing a job and counting it, blocked
      on a synchronous job, or joining a worker. */
  datatype MainPc = Idle | AfterPush(job: Job) | SyncWait(job: Job) | Joining(handle: int)

  /** A reset first clears the statements, then the connections, and does nothing else meanwhile. */
  datatype Mode = Serving | ClearingStatements | ClearingConnections

  datatype System = System(
    reg: Registry,
    workers: map<nat, Worker>,      // every worker there ever was, by its connection's identity
    multiAt: map<nat, bool>,        // the multi-statement policy each connection was registered with
    alive: map<nat, int>,           // connections not yet destroyed, with the handle of each
    stmts: map<nat, StmtInfo>,      // every statement there ever was
    graves: seq<Grave>,             // every destruction of a statement, in order
    sink: seq<Job>, done: seq<Job>, dispatched: seq<Job>,
    promise: Option<Job>, returned: seq<Job>,
    results: map<nat, QueryResult>, // what a successful job carries, by job
    cache: Cache, inCallback: bool,
    refused: set<nat>, nextJob: nat,
    clock: int,                     // the last time read
    pc: MainPc, mode: Mode)

  const INITIAL := System(EMPTY_REGISTRY, map[], map[], map[], map[], [], [], [], [], None, [], map[],
                          EMPTY_CACHE, false, {}, 0, 0, Idle, Serving)

  datatype Step =
    // the main thread
    | Connect(c: nat, multi: bool)
    | SetLimits(h: int, g: QueryGuards)
    | Prepare(h: int, t: nat, sql: string)
    | Query(h: int, sql: string, sync: bool, now: int)
    | Execute(sh: int, now: int)
    | CloseStatement(sh: int)
    | CountPushed
    | SyncReturn(keep: bool)
    | StopWorker(h: int)
    | Join
    | Drain
    | Dispatch(fires: bool)
    | EndCallback
    | Script(op: CacheOp)
    | ResetBegin
    | StatementsCleared
    | ResetEnd
    // worker c
    | WorkerPop(c: nat)
    | WorkerExit(c: nat)
    | WorkerRun(c: nat, reply: Reply)
    | WorkerDeliver(c: nat)
    | WorkerFinish(c: nat)

  predicate Free(s: System) {
    s.pc == Idle && s.mode == Serving
  }

  /** What a main-thread read of the counter gives. */
  function PendingOf(s: System, h: int): int {
    if h in s.reg.workers && s.reg.workers[h] in s.workers then s.workers[s.reg.workers[h]].pending else 0
  }

  /** The natives of the result cache that change it. */
  predicate ScriptOp(op: CacheOp) {
    op.ClearActive? || op.SelectSet? || op.Retain? || op.Activate? || op.Release?
  }

  predicate IsThreadStep(step: Step) {
    step.WorkerPop? || step.WorkerExit? || step.WorkerRun? || step.WorkerDeliver? || step.WorkerFinish?
  }

  /** Queries and statements are answered in their own forms. */
  predicate Answering(kind: Kind, reply: Reply) {
    (kind.Plain? ==> !reply.Rows?) && (kind.Exec? ==> !reply.Answers?)
  }

  ghost predicate ThreadCan(s: System, step: Step)
    requires IsThreadStep(step)
  {
    step.c in s.workers &&
    match step
    case WorkerPop(c) => CanPop(s.workers[c])
    case WorkerExit(c) => CanExit(s.workers[c])
    case WorkerRun(c, reply) => s.workers[c].phase.Holding? && Answering(s.workers[c].phase.job.kind, reply)
    case WorkerDeliver(c) => s.workers[c].phase.Ran?
    case WorkerFinish(c) => s.workers[c].phase.Delivered?
  }

  ghost predicate Enabled(s: System, step: Step) {
    match step
    case Connect(c, _) => Free(s) && c !in s.workers
    case SetLimits(_, g) => Free(s) && g.rateWindow == RATE_WINDOW
    case Prepare(h, t, sql) => Free(s) && h in s.reg.connections && t !in s.stmts && sql != ""
    case Query(_, _, _, now) => Free(s) && s.clock <= now
    case Execute(sh, now) => Free(s) && sh in s.reg.statements && s.clock <= now
    case CloseStatement(sh) => s.pc == Idle && s.mode != ClearingConnections && sh in s.reg.statements
    case CountPushed => s.pc.AfterPush? && s.pc.job.conn in s.workers
    case SyncReturn(_) => s.pc.SyncWait? && s.promise.Some?
    case StopWorker(h) =>
      s.pc == Idle && s.mode != ClearingStatements && h in s.reg.workers && s.reg.workers[h] in s.workers
      && s.workers[s.reg.workers[h]].running
    case Join =>
      s.pc.Joining? && s.pc.handle in s.reg.workers && s.reg.workers[s.pc.handle] in s.workers
      && s.workers[s.reg.workers[s.pc.handle]].phase == Exited
    case Drain => Free(s) && s.done == [] && !s.inCallback
    case Dispatch(fires) => Free(s) && s.done != [] && !s.inCallback && (fires ==> s.done[0].id in s.results)
    case EndCallback => Free(s) && s.inCallback
    case Script(op) => Free(s) && ScriptOp(op)
    case ResetBegin => Free(s)
    case StatementsCleared => s.pc == Idle && s.mode == ClearingStatements && s.reg.statements == map[]
    case ResetEnd =>
      s.pc == Idle && s.mode == ClearingConnections
      && forall h :: h in s.reg.workers && s.reg.workers[h] in s.workers ==> !s.workers[s.reg.workers[h]].running
    case _ => ThreadCan(s, step)
  }

  function SetWorker(s: System, c: nat, w: Worker): System {
    s.(workers := s.workers[c := w])
  }

  /** Puts a job on its worker's queue; counting it is a step of its own. */
  function PushJob(s: System, job: Job): System
    requires job.conn in s.workers
  {
    s.(workers := s.workers[job.conn := Push(s.workers[job.conn], job)], pc := AfterPush(job), nextJob := s.nextJob + 1)
  }

  function Refuse(s: System): System {
    s.(refused := s.refused + {s.nextJob}, nextJob := s.nextJob + 1)
  }

  /** A job meets the guards: on its worker's queue, or nowhere. */
  ghost function Submit(s: System, h: int, kind: Kind, sql: string, sync: bool, now: int): System {
    var (reason, reg) := Admit(s.reg, h, kind.Exec?, sql, PendingOf(s, h), now);
    if reason == Accepted && h in s.reg.workers && s.reg.workers[h] in s.workers then
      PushJob(s.(reg := reg, clock := now),
        Job(s.nextJob, s.reg.workers[h], sql, kind, sync, TermsOf(GuardsOf(s.reg, h), now)))
    else Refuse(s.(reg := reg, clock := now))
  }

  /** A statement leaves the registry for a teardown job. */
  function Doom(s: System, sh: int): System
    requires sh in s.reg.statements && s.reg.statements[sh].id in s.stmts
  {
    var t := s.reg.statements[sh].id;
    s.(reg := RemoveStatement(s.reg, sh), stmts := s.stmts[t := s.stmts[t].(fate := Doomed)])
  }

  /** A statement leaves the registry and is destroyed by the main thread. */
  function DropNow(s: System, sh: int): System
    requires sh in s.reg.statements
  {
    var t := s.reg.statements[sh].id;
    s.(reg := RemoveStatement(s.reg, sh),
       stmts := if t in s.stmts then s.stmts[t := s.stmts[t].(fate := Destroyed)] else s.stmts,
       graves := if t in s.stmts then s.graves + [Grave(t, None)] else s.graves)
  }

  /** A teardown on the worker of the statement's connection, if that is still registered. */
  ghost function CloseStmt(s: System, sh: int): System
    requires sh in s.reg.statements
  {
    var stmt := s.reg.statements[sh];
    var h := HandleOf(s.reg, stmt.conn);
    if h != 0 && h in s.reg.workers && s.reg.workers[h] in s.workers && stmt.id in s.stmts then
      PushJob(Doom(s, sh), Teardown(s.nextJob, s.reg.workers[h], stmt.id))
    else DropNow(s, sh)
  }

  function ReturnSync(s: System, keep: bool): System
    requires s.promise.Some?
  {
    var job := s.promise.value;
    var cache := if job.id in s.results then Apply(s.cache, SetActive(s.results[job.id])) else s.cache;
    s.(promise := None, returned := s.returned + [job], pc := Idle,
       cache := if keep && job.id in s.results then Apply(cache, Retain) else cache)
  }

  function JoinWorker(s: System): System
    requires s.pc.Joining? && s.pc.handle in s.reg.workers && s.reg.workers[s.pc.handle] in s.workers
  {
    var c := s.reg.workers[s.pc.handle];
    s.(workers := s.workers[c := Reap(s.workers[c])], pc := Idle,
       reg := if s.mode == Serving then RemoveConnection(s.reg, s.pc.handle) else s.reg,
       alive := if s.mode == Serving then s.alive - {c} else s.alive)
  }

  function RunOn(s: System, c: nat, reply: Reply): System
    requires c in s.workers && s.workers[c].phase.Holding?
  {
    var job := s.workers[c].phase.job;
    var buries := job.kind.Close? && job.kind.stmt in s.stmts;
    s.(workers := s.workers[c := RunJob(s.workers[c])],
       stmts := if buries then s.stmts[job.kind.stmt := s.stmts[job.kind.stmt].(fate := Destroyed)] else s.stmts,
       graves := if buries then s.graves + [Grave(job.kind.stmt, Some(c))] else s.graves,
       results :=
         if !job.kind.Close? && ResultOf(reply, job.sql).Some?
         then s.results[job.id := ResultOf(reply, job.sql).value]
         else s.results)
  }

  function DeliverOn(s: System, c: nat): System
    requires c in s.workers && s.workers[c].phase.Ran?
  {
    var job := s.workers[c].phase.job;
    s.(workers := s.workers[c := Deliver(s.workers[c])],
       promise := if job.sync then Some(job) else s.promise,
       sink := if job.sync then s.sink else s.sink + [job])
  }

  ghost function ThreadTake(s: System, step: Step): System
    requires IsThreadStep(step) && ThreadCan(s, step)
  {
    match step
    case WorkerPop(c) => SetWorker(s, c, Pop(s.workers[c]))
    case WorkerExit(c) => SetWorker(s, c, Exit(s.workers[c]))
    case WorkerRun(c, reply) => RunOn(s, c, reply)
    case WorkerDeliver(c) => DeliverOn(s, c)
    case WorkerFinish(c) => SetWorker(s, c, Finish(s.workers[c]))
  }

  ghost function Take(s: System, step: Step): System
    requires Enabled(s, step)
  {
    match step
    case Connect(c, multi) =>
      s.(reg := AddConnection(s.reg, c, multi), workers := s.workers[c := FRESH_WORKER],
         multiAt := s.multiAt[c := multi], alive := s.alive[c := s.reg.nextHandle])
    case SetLimits(h, g) => s.(reg := SetGuards(s.reg, h, g))
    case Prepare(h, t, sql) =>
      var conn := s.reg.connections[h];
      s.(reg := AddStatement(s.reg, PreparedStatement(t, conn, sql)),
        stmts := s.stmts[t := StmtInfo(conn, s.reg.nextStatement, Live)])
    case Query(h, sql, sync, now) => Submit(s, h, Plain, sql, sync, now)
    case Execute(sh, now) =>
      var stmt := s.reg.statements[sh];
      if HandleOf(s.reg, stmt.conn) == 0 then Refuse(s)
      else Submit(s, HandleOf(s.reg, stmt.conn), Exec(stmt.id), stmt.sql, false, now)
    case CloseStatement(sh) => CloseStmt(s, sh)
    case CountPushed =>
      s.(workers := s.workers[s.pc.job.conn := Bump(s.workers[s.pc.job.conn])],
         pc := if s.pc.job.sync then SyncWait(s.pc.job) else Idle)
    case SyncReturn(keep) => ReturnSync(s, keep)
    case StopWorker(h) =>
      s.(workers := s.workers[s.reg.workers[h] := ClearRunning(s.workers[s.reg.workers[h]])], pc := Joining(h))
    case Join => JoinWorker(s)
    case Drain => s.(done := s.sink, sink := [])
    case Dispatch(fires) =>
      s.(done := s.done[1..], dispatched := s.dispatched + [s.done[0]],
         cache := if fires then Apply(s.cache, SetActive(s.results[s.done[0].id])) else s.cache,
         inCallback := s.inCallback || fires)
    case EndCallback => s.(cache := Apply(s.cache, ClearActive), inCallback := false)
    case Script(op) => s.(cache := Apply(s.cache, op))
    case ResetBegin => s.(cache := Apply(s.cache, Reset), mode := ClearingStatements)
    case StatementsCleared => s.(mode := ClearingConnections, reg := s.reg.(nextStatement := 1))
    case ResetEnd => s.(reg := ClearConnections(s.reg).(nextHandle := 1), alive := map[], mode := Serving)
    case _ => ThreadTake(s, step)
  }

  lemma TakeOfQuery(s: System, h: int, sql: string, sync: bool, now: int)
    requires Enabled(s, Query(h, sql, sync, now))
    ensures Take(s, Query(h, sql, sync, now)) == Submit(s, h, Plain, sql, sync, now)
  {
  }

  lemma TakeOfClose(s: System, sh: int)
    requires Enabled(s, CloseStatement(sh))
    ensures Take(s, CloseStatement(sh)) == CloseStmt(s, sh)
  {
  }

  lemma TakeOfCount(s: System)
    requires Enabled(s, CountPushed)
    ensures var c := s.pc.job.conn;
            Take(s, CountPushed)
            == SetWorker(s, c, Bump(s.workers[c])).(pc := if s.pc.job.sync then SyncWait(s.pc.job) else Idle)
  {
  }

  lemma TakeOfStop(s: System, h: int)
    requires Enabled(s, StopWorker(h))
    ensures var c := s.reg.workers[h];
            Take(s, StopWorker(h)) == SetWorker(s, c, ClearRunning(s.workers[c])).(pc := Joining(h))
  {
  }

  lemma TakeOfReturn(s: System, keep: bool)
    requires Enabled(s, SyncReturn(keep))
    ensures Take(s, SyncReturn(keep)) == ReturnSync(s, keep)
  {
  }

  lemma TakeOfJoin(s: System)
    requires Enabled(s, Join)
    ensures Take(s, Join) == JoinWorker(s)
  {
  }

  lemma TakeOfThread(s: System, step: Step)
    requires Enabled(s, step) && IsThreadStep(step)
    ensures ThreadCan(s, step) && Take(s, step) == ThreadTake(s, step)
  {
  }

  /** The state after a run of steps from `s`, if each was enabled in its turn. */
  ghost function After(s: System, steps: seq<Step>): Option<System>
    decreases |steps|
  {
    if steps == [] then Some(s)
    else
      var before :- After(s, steps[..|steps| - 1]);
      if Enabled(before, steps[|steps| - 1]) then Some(Take(before, steps[|steps| - 1])) else None
  }

  ghost predicate Reachable(s: System) {
    exists steps :: After(INITIAL, steps) == Some(s)
  }
}
