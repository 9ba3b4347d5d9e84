/** What every step of the protocol keeps about queues, counters, registries and the
    lifetime of connections. */
module Structure {
  import opened Guards
  import opened Registries
  import opened Results
  import opened Workers
  import opened Protocol

  /** Everything ever queued has run, is in the thread's hands, or is still queued, in order;
      a thread that is gone left nothing behind. */
  ghost predicate HistoryOk(c: nat, w: Worker) {
    && w.enqueued == w.executed + Todo(w)
    && (w.phase.Ran? ==> w.executed != [] && w.executed[|w.executed| - 1] == w.phase.job && !w.phase.job.kind.Close?)
    && (w.phase == Exited ==> w.input == [] && !w.running)
    && forall i :: 0 <= i < |w.enqueued| ==> w.enqueued[i].conn == c
  }

  /** The counter is the queue plus the unfinished iteration, and one less only while the main
      thread is between pushing a job of this worker and counting it. */
  ghost predicate PendingOk(pc: MainPc, c: nat, w: Worker) {
    w.pending == |w.input| + Busy(w.phase) - (if pc.AfterPush? && pc.job.conn == c then 1 else 0)
  }

  ghost predicate WorkersOk(s: System) {
    forall c :: c in s.workers ==> HistoryOk(c, s.workers[c]) && PendingOk(s.pc, c, s.workers[c])
  }

  /** Whether the main thread is stopping the worker of connection `c` right now. */
  predicate BeingStopped(s: System, c: nat) {
    s.pc.Joining? && s.pc.handle in s.reg.connections && s.reg.connections[s.pc.handle] == c
  }

  /** A connection lives exactly as long as it is registered. */
  ghost predicate LivesOk(s: System) {
    && (forall h :: h in s.reg.connections ==> s.reg.connections[h] in s.alive && s.alive[s.reg.connections[h]] == h)
    && (forall c :: c in s.alive ==>
       c in s.workers && s.alive[c] in s.reg.connections && s.reg.connections[s.alive[c]] == c)
  }

  /** The worker of a dead connection is gone. The worker of a living one runs, unless it is
      being stopped or a reset has stopped it. */
  ghost predicate RunningOk(s: System, c: nat, w: Worker) {
    && (c !in s.alive ==> w.phase == Exited)
    && (c in s.alive && !w.running ==> BeingStopped(s, c) || (s.mode == ClearingConnections && w.phase == Exited))
  }

  ghost predicate AllRunningOk(s: System) {
    forall c :: c in s.workers ==> RunningOk(s, c, s.workers[c])
  }

  ghost predicate ModeOk(s: System) {
    && (s.mode == ClearingConnections ==> s.reg.statements == map[] && s.reg.nextStatement == 1)
    && (s.pc.Joining? ==> s.mode != ClearingStatements && s.pc.handle in s.reg.connections
                          && s.reg.connections[s.pc.handle] in s.workers
                             && !s.workers[s.reg.connections[s.pc.handle]].running)
    && (s.pc.AfterPush? ==>
       s.mode != ClearingConnections && s.pc.job.conn in s.alive && (s.pc.job.sync ==> s.mode == Serving))
    && (s.pc.SyncWait? ==> s.mode == Serving && s.pc.job.conn in s.alive)
  }

  ghost predicate StructureOk(s: System) {
    Coherent(s.reg) && WorkersOk(s) && LivesOk(s) && AllRunningOk(s) && ModeOk(s)
  }

  // --- Worker steps ------------------------------------------------------------------------

  /** A thread's own step on its worker. */
  ghost predicate ThreadMove(w: Worker, v: Worker) {
    || (CanPop(w) && v == Pop(w))
    || (CanExit(w) && v == Exit(w))
    || (w.phase.Holding? && v == RunJob(w))
    || (w.phase.Ran? && v == Deliver(w))
    || (w.phase.Delivered? && v == Finish(w))
  }

  lemma ThreadKeepsHistory(pc: MainPc, c: nat, w: Worker, v: Worker)
    requires HistoryOk(c, w) && PendingOk(pc, c, w) && ThreadMove(w, v)
    ensures HistoryOk(c, v) && PendingOk(pc, c, v) && v.running == w.running && w.phase != Exited
    ensures v.enqueued == w.enqueued
  {
    if CanPop(w) && v == Pop(w) {
      assert Todo(v) == Todo(w);
    } else if w.phase.Holding? && v == RunJob(w) {
      assert w.executed + Todo(w) == v.executed + Todo(v);
    }
  }

  lemma ThreadKeeps(s: System, c: nat, v: Worker)
    requires StructureOk(s) && c in s.workers && ThreadMove(s.workers[c], v)
    ensures StructureOk(SetWorker(s, c, v)) && c in s.alive
  {
    ThreadKeepsHistory(s.pc, c, s.workers[c], v);
    ThreadKeepsWorkers(s, c, v);
    ThreadKeepsRunning(s, c, v);
  }

  lemma ThreadKeepsWorkers(s: System, c: nat, v: Worker)
    requires WorkersOk(s) && HistoryOk(c, v) && PendingOk(s.pc, c, v)
    ensures WorkersOk(SetWorker(s, c, v))
  {
  }

  lemma ThreadKeepsRunning(s: System, c: nat, v: Worker)
    requires AllRunningOk(s) && c in s.workers && v.running == s.workers[c].running && s.workers[c].phase != Exited
    ensures AllRunningOk(SetWorker(s, c, v)) && c in s.alive
  {
    var t := SetWorker(s, c, v);
    assert RunningOk(s, c, s.workers[c]);
    forall d | d in t.workers ensures RunningOk(t, d, t.workers[d]) {
      assert d in s.workers ==> RunningOk(s, d, s.workers[d]);
    }
  }

  lemma ThreadStepKeeps(s: System, step: Step)
    requires StructureOk(s) && IsThreadStep(step) && ThreadCan(s, step)
    ensures StructureOk(ThreadTake(s, step)) && step.c in s.alive
  {
    var w := s.workers[step.c];
    match step
    case WorkerPop(c) => ThreadKeeps(s, c, Pop(w));
    case WorkerExit(c) => ThreadKeeps(s, c, Exit(w));
    case WorkerRun(c, reply) => RunKeeps(s, c, reply);
    case WorkerDeliver(c) => DeliverKeeps(s, c);
    case WorkerFinish(c) => ThreadKeeps(s, c, Finish(w));
  }

  /** The structure does not depend on statements' fates, results, the sink or the cache. */
  lemma Untouched(s: System, t: System)
    requires StructureOk(s)
    requires SameStructure(s, t)
    ensures StructureOk(t)
  {
    assert forall c :: c in s.workers ==> RunningOk(s, c, s.workers[c]) ==> RunningOk(t, c, s.workers[c]);
  }

  predicate SameStructure(s: System, t: System) {
    t.reg == s.reg && t.workers == s.workers && t.alive == s.alive && t.pc == s.pc && t.mode == s.mode
      && t.multiAt == s.multiAt
  }

  lemma RunFrame(s: System, c: nat, reply: Reply)
    requires c in s.workers && s.workers[c].phase.Holding?
    ensures SameStructure(SetWorker(s, c, RunJob(s.workers[c])), RunOn(s, c, reply))
  {
  }

  lemma DeliverFrame(s: System, c: nat)
    requires c in s.workers && s.workers[c].phase.Ran?
    ensures SameStructure(SetWorker(s, c, Deliver(s.workers[c])), DeliverOn(s, c))
  {
  }

  lemma RunKeeps(s: System, c: nat, reply: Reply)
    requires StructureOk(s) && c in s.workers && s.workers[c].phase.Holding?
    ensures StructureOk(RunOn(s, c, reply)) && c in s.alive
  {
    ThreadKeeps(s, c, RunJob(s.workers[c]));
    RunFrame(s, c, reply);
    Untouched(SetWorker(s, c, RunJob(s.workers[c])), RunOn(s, c, reply));
  }

  lemma DeliverKeeps(s: System, c: nat)
    requires StructureOk(s) && c in s.workers && s.workers[c].phase.Ran?
    ensures StructureOk(DeliverOn(s, c)) && c in s.alive
  {
    ThreadKeeps(s, c, Deliver(s.workers[c]));
    DeliverFrame(s, c);
    Untouched(SetWorker(s, c, Deliver(s.workers[c])), DeliverOn(s, c));
  }

  // --- Main-thread steps ---------------------------------------------------------------------

  /** Between two operations of the main thread, every registered worker is running. */
  lemma IdleMeansRunning(s: System, h: int)
    requires StructureOk(s) && s.pc == Idle && s.mode != ClearingConnections && h in s.reg.connections
    ensures s.reg.connections[h] in s.workers && s.workers[s.reg.connections[h]].running
    ensures s.workers[s.reg.connections[h]].phase != Exited
  {
    var c := s.reg.connections[h];
    assert RunningOk(s, c, s.workers[c]) && HistoryOk(c, s.workers[c]);
  }

  lemma ConnectKeeps(s: System, c: nat, multi: bool)
    requires StructureOk(s) && Enabled(s, Connect(c, multi))
    ensures StructureOk(Take(s, Connect(c, multi)))
  {
    var t := Take(s, Connect(c, multi));
    AddConnectionKeeps(s.reg, c, multi);
    ConnectKeepsLives(s, c, multi);
    forall d | d in t.workers
      ensures HistoryOk(d, t.workers[d]) && PendingOk(t.pc, d, t.workers[d]) && RunningOk(t, d, t.workers[d])
    {
      assert d in s.workers ==> RunningOk(s, d, s.workers[d]);
    }
  }

  lemma ConnectKeepsLives(s: System, c: nat, multi: bool)
    requires Coherent(s.reg) && LivesOk(s) && Enabled(s, Connect(c, multi))
    ensures LivesOk(Take(s, Connect(c, multi)))
  {
  }

  /** A job pushed on a running worker of a living connection. */
  lemma PushKeeps(s: System, job: Job)
    requires StructureOk(s) && s.pc == Idle && s.mode != ClearingConnections && job.conn in s.alive
             && (job.sync ==> s.mode == Serving)
    ensures job.conn in s.workers && StructureOk(PushJob(s, job))
  {
    var c := job.conn;
    IdleMeansRunning(s, s.alive[c]);
    PushKeepsWorkers(s, job);
    var t := PushJob(s, job);
    forall d | d in t.workers ensures RunningOk(t, d, t.workers[d]) {
      assert RunningOk(s, d, s.workers[d]);
    }
  }

  lemma PushKeepsWorkers(s: System, job: Job)
    requires WorkersOk(s) && s.pc == Idle && job.conn in s.workers && s.workers[job.conn].phase != Exited
    ensures WorkersOk(PushJob(s, job))
  {
    var t := PushJob(s, job);
    var w := s.workers[job.conn];
    assert HistoryOk(job.conn, w) && Todo(Push(w, job)) == Todo(w) + [job];
    Regroup(w.executed, Todo(w), [job]);
    forall d | d in t.workers ensures HistoryOk(d, t.workers[d]) && PendingOk(t.pc, d, t.workers[d]) {
      assert HistoryOk(d, s.workers[d]) && PendingOk(s.pc, d, s.workers[d]);
    }
  }

  lemma SameConnections(s: System, t: System)
    requires StructureOk(s) && Coherent(t.reg) && t.reg.connections == s.reg.connections
             && s.mode != ClearingConnections
    requires SameStructure(s, t.(reg := s.reg))
    ensures StructureOk(t)
  {
    forall c | c in t.workers ensures RunningOk(t, c, t.workers[c]) {
      assert RunningOk(s, c, s.workers[c]);
    }
  }

  lemma SubmitKeeps(s: System, h: int, kind: Kind, sql: string, sync: bool, now: int)
    requires StructureOk(s) && Free(s)
    ensures StructureOk(Submit(s, h, kind, sql, sync, now))
  {
    var (reason, reg) := Admit(s.reg, h, kind.Exec?, sql, PendingOf(s, h), now);
    AdmitKeeps(s.reg, h, kind.Exec?, sql, PendingOf(s, h), now);
    var t := s.(reg := reg, clock := now);
    SameConnections(s, t);
    if reason == Accepted && h in s.reg.workers {
      PushKeeps(t, Job(s.nextJob, s.reg.workers[h], sql, kind, sync, TermsOf(GuardsOf(s.reg, h), now)));
    } else {
      Untouched(t, Refuse(t));
    }
  }

  /** The same connections under other statements. */
  ghost predicate OtherStatements(s: System, t: System) {
    t.reg == s.reg.(statements := t.reg.statements) && SameStructure(s, t.(reg := s.reg))
      && (Coherent(s.reg) ==> Coherent(t.reg))
  }

  lemma RetireStatements(s: System, sh: int)
    requires sh in s.reg.statements
    ensures OtherStatements(s, DropNow(s, sh))
    ensures s.reg.statements[sh].id in s.stmts ==> OtherStatements(s, Doom(s, sh))
  {
  }

  lemma CloseStmtKeeps(s: System, sh: int)
    requires StructureOk(s) && Enabled(s, CloseStatement(sh))
    ensures StructureOk(CloseStmt(s, sh))
  {
    RetireStatements(s, sh);
    var stmt := s.reg.statements[sh];
    var h := HandleOf(s.reg, stmt.conn);
    if h != 0 && h in s.reg.workers && s.reg.workers[h] in s.workers && stmt.id in s.stmts {
      SameConnections(s, Doom(s, sh));
      PushKeeps(Doom(s, sh), Teardown(s.nextJob, s.reg.workers[h], stmt.id));
    } else {
      SameConnections(s, DropNow(s, sh));
    }
  }

  lemma CountPushedKeeps(s: System)
    requires StructureOk(s) && Enabled(s, CountPushed)
    ensures StructureOk(Take(s, CountPushed))
  {
    var t := Take(s, CountPushed);
    forall d | d in t.workers
      ensures HistoryOk(d, t.workers[d]) && PendingOk(t.pc, d, t.workers[d]) && RunningOk(t, d, t.workers[d])
    {
      assert HistoryOk(d, s.workers[d]) && PendingOk(s.pc, d, s.workers[d]) && RunningOk(s, d, s.workers[d]);
    }
  }

  lemma StopKeeps(s: System, h: int)
    requires StructureOk(s) && Enabled(s, StopWorker(h))
    ensures StructureOk(Take(s, StopWorker(h)))
  {
    var t := Take(s, StopWorker(h));
    forall d | d in t.workers
      ensures HistoryOk(d, t.workers[d]) && PendingOk(t.pc, d, t.workers[d]) && RunningOk(t, d, t.workers[d])
    {
      assert HistoryOk(d, s.workers[d]) && PendingOk(s.pc, d, s.workers[d]) && RunningOk(s, d, s.workers[d]);
    }
  }

  /** When a stopped worker's thread has been joined, its queue is empty, its counter is zero
      and everything ever queued on it has run: clearing the queue discards nothing. */
  lemma JoinedWorkerIsDrained(s: System)
    requires WorkersOk(s) && Enabled(s, Join)
    ensures var w := s.workers[s.reg.workers[s.pc.handle]];
            w.input == [] && w.pending == 0 && w.executed == w.enqueued && Reap(w) == w
  {
    var c := s.reg.workers[s.pc.handle];
    assert HistoryOk(c, s.workers[c]) && PendingOk(s.pc, c, s.workers[c]);
    assert s.workers[c].executed + [] == s.workers[c].executed;
  }

  lemma JoinKeeps(s: System)
    requires StructureOk(s) && Enabled(s, Join)
    ensures StructureOk(Take(s, Join))
  {
    JoinedWorkerIsDrained(s);
    assert s.workers[s.reg.workers[s.pc.handle] := s.workers[s.reg.workers[s.pc.handle]]] == s.workers;
    if s.mode == Serving {
      RemoveConnectionKeeps(s.reg, s.pc.handle);
      Disconnected(s, s.pc.handle);
    } else {
      Rejoined(s);
    }
  }

  lemma Disconnected(s: System, h: int)
    requires StructureOk(s) && s.pc == Joining(h) && s.mode == Serving && Coherent(RemoveConnection(s.reg, h))
    requires s.workers[s.reg.connections[h]].phase == Exited
    ensures StructureOk(s.(pc := Idle, reg := RemoveConnection(s.reg, h), alive := s.alive - {s.reg.connections[h]}))
  {
    var t := s.(pc := Idle, reg := RemoveConnection(s.reg, h), alive := s.alive - {s.reg.connections[h]});
    forall d | d in t.workers ensures PendingOk(t.pc, d, t.workers[d]) && RunningOk(t, d, t.workers[d]) {
      assert PendingOk(s.pc, d, s.workers[d]) && RunningOk(s, d, s.workers[d]);
    }
  }

  lemma Rejoined(s: System)
    requires StructureOk(s) && s.pc.Joining? && s.mode == ClearingConnections
    requires s.workers[s.reg.connections[s.pc.handle]].phase == Exited
    ensures StructureOk(s.(pc := Idle))
  {
    var t := s.(pc := Idle);
    forall d | d in t.workers ensures PendingOk(t.pc, d, t.workers[d]) && RunningOk(t, d, t.workers[d]) {
      assert PendingOk(s.pc, d, s.workers[d]) && RunningOk(s, d, s.workers[d]);
    }
  }

  lemma ResetEndKeeps(s: System)
    requires StructureOk(s) && Enabled(s, ResetEnd)
    ensures StructureOk(Take(s, ResetEnd)) && forall c :: c in s.workers ==> s.workers[c].phase == Exited
  {
    forall c | c in s.workers ensures s.workers[c].phase == Exited {
      assert RunningOk(s, c, s.workers[c]);
      if c in s.alive {
        var h := s.alive[c];
        assert h in s.reg.workers && s.reg.workers[h] == c && s.reg.workers[h] in s.workers;
        assert !s.workers[s.reg.workers[h]].running;
      }
    }
  }

  /** The steps that leave workers and connections alone. */
  lemma OtherStepKeeps(s: System, step: Step)
    requires StructureOk(s) && Enabled(s, step)
    requires step.SetLimits? || step.Prepare? || step.SyncReturn? || step.Drain? || step.Dispatch? || step.EndCallback?
             || step.Script? || step.ResetBegin? || step.StatementsCleared?
    ensures StructureOk(Take(s, step))
  {
    if step.Drain? || step.Dispatch? || step.EndCallback? || step.Script? {
      OtherFrame(s, step);
      Untouched(s, Take(s, step));
    } else {
      RegistryStepFrame(s, step);
      SameWorkers(s, Take(s, step));
    }
  }

  lemma OtherFrame(s: System, step: Step)
    requires Enabled(s, step) && (step.Drain? || step.Dispatch? || step.EndCallback? || step.Script?)
    ensures SameStructure(s, Take(s, step))
  {
  }

  /** Steps that change the mode, the limits or the statements of a main thread not stopping
      or pushing anything. */
  ghost predicate QuietChange(s: System, t: System) {
    && t.workers == s.workers && t.alive == s.alive && t.multiAt == s.multiAt
    && t.reg.connections == s.reg.connections && t.reg.multi == s.reg.multi && t.reg.nextHandle == s.reg.nextHandle
    && t.pc == Idle && (s.pc == Idle || s.pc.SyncWait?)
    && Coherent(t.reg)
    && (t.mode == ClearingConnections ==> t.reg.statements == map[] && t.reg.nextStatement == 1)
    && s.mode != ClearingConnections
  }

  lemma RegistryStepFrame(s: System, step: Step)
    requires Coherent(s.reg) && ModeOk(s) && Enabled(s, step)
    requires step.SetLimits? || step.Prepare? || step.SyncReturn? || step.ResetBegin? || step.StatementsCleared?
    ensures QuietChange(s, Take(s, step))
  {
    match step
    case SetLimits(h, g) => LimitsCoherent(s.reg, h, g);
    case Prepare(h, t, sql) => StatementsKeep(s.reg, PreparedStatement(t, s.reg.connections[h], sql), 0);
    case SyncReturn(keep) => ReturnFrame(s, keep);
    case ResetBegin =>
    case StatementsCleared => assert Coherent(s.reg.(nextStatement := 1));
  }

  lemma LimitsCoherent(r: Registry, h: int, g: QueryGuards)
    requires Coherent(r)
    ensures Coherent(SetGuards(r, h, g))
  {
  }

  lemma ReturnFrame(s: System, keep: bool)
    requires s.promise.Some?
    ensures SameStructure(s, ReturnSync(s, keep).(pc := s.pc)) && ReturnSync(s, keep).pc == Idle
  {
  }

  lemma SameWorkers(s: System, t: System)
    requires StructureOk(s) && QuietChange(s, t)
    ensures StructureOk(t)
  {
    forall c | c in t.workers ensures PendingOk(t.pc, c, t.workers[c]) && RunningOk(t, c, t.workers[c]) {
      assert PendingOk(s.pc, c, s.workers[c]) && RunningOk(s, c, s.workers[c]);
    }
  }

  /** The steps that queue jobs or register connections. */
  predicate Queueing(step: Step) {
    step.Connect? || step.Query? || step.Execute? || step.CloseStatement?
  }

  lemma QueueingKeeps(s: System, step: Step)
    requires StructureOk(s) && Enabled(s, step) && Queueing(step)
    ensures StructureOk(Take(s, step))
  {
    match step
    case Connect(c, multi) => ConnectKeeps(s, c, multi);
    case Query(h, sql, sync, now) =>
      TakeOfQuery(s, h, sql, sync, now);
      SubmitKeeps(s, h, Plain, sql, sync, now);
    case Execute(sh, now) => ExecuteKeeps(s, sh, now);
    case CloseStatement(sh) =>
      TakeOfClose(s, sh);
      CloseStmtKeeps(s, sh);
  }

  lemma ExecuteKeeps(s: System, sh: int, now: int)
    requires StructureOk(s) && Enabled(s, Execute(sh, now))
    ensures StructureOk(Take(s, Execute(sh, now)))
  {
    var stmt := s.reg.statements[sh];
    if HandleOf(s.reg, stmt.conn) == 0 {
      Untouched(s, Refuse(s));
    } else {
      SubmitKeeps(s, HandleOf(s.reg, stmt.conn), Exec(stmt.id), stmt.sql, false, now);
    }
  }

  /** Every step keeps the structure. */
  lemma StructureStep(s: System, step: Step)
    requires StructureOk(s) && Enabled(s, step)
    ensures StructureOk(Take(s, step))
  {
    if IsThreadStep(step) {
      TakeOfThread(s, step);
      ThreadStepKeeps(s, step);
    } else if Queueing(step) {
      QueueingKeeps(s, step);
    } else if step.CountPushed? || step.StopWorker? || step.Join? || step.ResetEnd? {
      HandshakeKeeps(s, step);
    } else {
      OtherStepKeeps(s, step);
    }
  }

  /** The steps in which the main thread and the workers meet. */
  lemma HandshakeKeeps(s: System, step: Step)
    requires StructureOk(s) && Enabled(s, step)
    requires step.CountPushed? || step.StopWorker? || step.Join? || step.ResetEnd?
    ensures StructureOk(Take(s, step))
  {
    match step
    case CountPushed => CountPushedKeeps(s);
    case StopWorker(h) => StopKeeps(s, h);
    case Join => JoinKeeps(s);
    case ResetEnd => ResetEndKeeps(s);
  }
}
