/** Synchronous jobs and shutdown: what a blocked main thread is given, and why it does not
    stay blocked for ever. */
module Progress {
  import opened Options
  import opened Guards
  import opened Registries
  import opened Results
  import opened Workers
  import opened Protocol
  import opened Structure
  import opened Delivery
  import opened Safety

  /** A synchronous call gets back the very job it gave, when that job and every job queued
      on the connection before it have run; the worker is at most finishing its iteration. */
  lemma SyncReturnsItsJob(s: System, keep: bool)
    requires Reachable(s) && Enabled(s, SyncReturn(keep))
    ensures s.pc.job.conn in s.workers
    ensures var job := s.pc.job;
            var w := s.workers[job.conn];
            && s.promise == Some(job) && Take(s, SyncReturn(keep)).returned == s.returned + [job]
            && w.executed == w.enqueued && w.enqueued != [] && w.enqueued[|w.enqueued| - 1] == job
            && 0 <= w.pending <= 1
  {
    WaitHolds(s);
    JobHasRun(s.pc, s.promise, s.workers[s.pc.job.conn]);
    ReturnTo(s, keep);
  }

  /** What the invariant says of the job being waited for. */
  lemma WaitHolds(s: System)
    requires Reachable(s)
    ensures s.promise.Some? ==> Waiting(s.pc).Some?
    ensures forall job :: Waiting(s.pc) == Some(job) ==>
              var c := job.conn;
              c in s.workers && HistoryOk(c, s.workers[c]) && PendingOk(s.pc, c, s.workers[c])
                && WaitedOn(job, s.promise, s.workers[c])
  {
    DeliveryHolds(s);
    WorkersHold(s);
  }

  lemma WorkersHold(s: System)
    requires Reachable(s)
    ensures WorkersOk(s)
  {
    StructureHolds(s);
  }

  lemma JobHasRun(pc: MainPc, promise: Option<Job>, w: Worker)
    requires pc.SyncWait? && promise.Some? && WaitedOn(pc.job, promise, w)
    requires HistoryOk(pc.job.conn, w) && PendingOk(pc, pc.job.conn, w)
    ensures w.executed == w.enqueued && promise == Some(pc.job) && 0 <= w.pending <= 1
    ensures w.enqueued != [] && w.enqueued[|w.enqueued| - 1] == pc.job
  {
    assert w.executed + [] == w.executed;
  }

  /** A query is only ever submitted to a worker that is running and whose thread is there:
      the call that would be turned away by a stopped worker cannot be made. */
  lemma SubmitMeetsRunningWorker(s: System, h: int)
    requires Reachable(s) && Free(s) && h in s.reg.workers
    ensures var c := s.reg.workers[h];
            c in s.workers && s.workers[c].running && s.workers[c].phase != Exited && c in s.alive
  {
    StructureHolds(s);
    IdleMeansRunning(s, h);
  }

  // --- Progress -------------------------------------------------------------------------------

  /** The connection whose worker the main thread is blocked on. */
  function BlockedOn(s: System): Option<nat> {
    match s.pc
    case SyncWait(job) => if s.promise == None then Some(job.conn) else None
    case Joining(h) =>
      if h in s.reg.workers && s.reg.workers[h] in s.workers && s.workers[s.reg.workers[h]].phase != Exited
      then Some(s.reg.workers[h]) else None
    case _ => None
  }

  function Rank(p: Phase): nat {
    match p
    case Exited => 0
    case AtLoop => 1
    case Delivered => 2
    case Ran(_) => 3
    case Holding(_) => 4
  }

  /** An upper bound on the steps a thread still has to take before it waits for work or leaves. */
  function Left(w: Worker): nat {
    4 * |w.input| + Rank(w.phase)
  }

  /** Each thread step brings its own worker closer and leaves the others alone. */
  lemma ThreadStepDescends(s: System, step: Step, c: nat)
    requires Enabled(s, step) && IsThreadStep(step) && c in s.workers
    ensures c in Take(s, step).workers && Take(s, step).pc == s.pc && Take(s, step).reg == s.reg
    ensures Take(s, step).workers.Keys == s.workers.Keys
    ensures if step.c == c then Left(Take(s, step).workers[c]) < Left(s.workers[c])
            else Take(s, step).workers[c] == s.workers[c]
  {
    ThreadChange(s, step, c);
    ThreadStepFrame(s, step);
    if step.c == c {
      MoveDescends(s.workers[c], ThreadTake(s, step).workers[c]);
    }
  }

  lemma MoveDescends(w: Worker, v: Worker)
    requires ThreadMove(w, v)
    ensures Left(v) < Left(w)
  {
  }

  lemma ThreadStepFrame(s: System, step: Step)
    requires IsThreadStep(step) && ThreadCan(s, step)
    ensures var t := ThreadTake(s, step); t.pc == s.pc && t.reg == s.reg && t.workers.Keys == s.workers.Keys
  {
    match step
    case WorkerRun(d, reply) => RunFrame(s, d, reply);
    case WorkerDeliver(d) => DeliverFrame(s, d);
    case _ =>
  }

  /** The next step of a thread that is not idle. */
  function NextStep(c: nat, w: Worker): Step {
    match w.phase
    case Holding(_) => WorkerRun(c, Failed)
    case Ran(_) => WorkerDeliver(c)
    case Delivered => WorkerFinish(c)
    case _ => if w.input != [] then WorkerPop(c) else WorkerExit(c)
  }

  /** The worker the main thread is blocked on can always take a step: its thread is there and
      has something to do. So the promise is never broken, and no join hangs. */
  lemma BlockedWorkerCanMove(s: System, c: nat)
    requires Reachable(s) && BlockedOn(s) == Some(c)
    ensures c in s.workers && s.workers[c].phase != Exited
    ensures Enabled(s, NextStep(c, s.workers[c])) && IsThreadStep(NextStep(c, s.workers[c]))
  {
    if s.pc.SyncWait? {
      WaitHolds(s);
      WaitedOnMoves(c, s.workers[c], s.pc.job);
    } else {
      JoinedIsStopped(s);
    }
  }

  lemma JoinedIsStopped(s: System)
    requires Reachable(s) && s.pc.Joining?
    ensures s.pc.handle in s.reg.workers && s.reg.workers[s.pc.handle] in s.workers
            && !s.workers[s.reg.workers[s.pc.handle]].running
  {
    StructureHolds(s);
  }

  /** While the main thread is blocked, only threads move. */
  lemma OnlyThreadsMove(s: System, step: Step)
    requires BlockedOn(s).Some? && Enabled(s, step)
    ensures IsThreadStep(step)
  {
  }

  lemma WaitedOnMoves(c: nat, w: Worker, job: Job)
    requires WaitedOn(job, None, w) && HistoryOk(c, w)
    ensures w.phase != Exited && (w.phase == AtLoop ==> w.input != [])
  {
  }

  function StepsOf(c: nat, steps: seq<Step>): nat {
    if steps == [] then 0
    else
      var last := steps[|steps| - 1];
      (if IsThreadStep(last) && last.c == c then 1 else 0) + StepsOf(c, steps[..|steps| - 1])
  }

  /** The main thread is blocked before each of the steps. */
  ghost predicate BlockedAlong(s: System, steps: seq<Step>) {
    forall k :: 0 <= k < |steps| && After(s, steps[..k]).Some? ==> BlockedOn(After(s, steps[..k]).value).Some?
  }

  lemma BlockedEarlier(s: System, steps: seq<Step>)
    requires After(s, steps).Some? && BlockedAlong(s, steps) && steps != []
    ensures var most := steps[..|steps| - 1];
            After(s, most).Some? && BlockedAlong(s, most) && BlockedOn(After(s, most).value).Some?
  {
    var most := steps[..|steps| - 1];
    assert forall k :: 0 <= k < |most| ==> most[..k] == steps[..k];
  }

  lemma {:induction false} ThreadsMoveAlong(s: System, steps: seq<Step>)
    requires After(s, steps).Some? && BlockedAlong(s, steps)
    ensures forall i :: 0 <= i < |steps| ==> IsThreadStep(steps[i])
    decreases |steps|
  {
    if steps == [] {
    } else {
      var most := steps[..|steps| - 1];
      BlockedEarlier(s, steps);
      ThreadsMoveAlong(s, most);
      OnlyThreadsMove(After(s, most).value, steps[|steps| - 1]);
    }
  }

  /** A blocked main thread is released after at most `Left` steps of the thread it waits for,
      whatever else happens meanwhile. */
  lemma WaitIsBounded(s: System, steps: seq<Step>, t: System, c: nat)
    requires Reachable(s) && BlockedOn(s) == Some(c) && After(s, steps) == Some(t) && BlockedAlong(s, steps)
    ensures c in s.workers && c in t.workers && StepsOf(c, steps) + Left(t.workers[c]) <= Left(s.workers[c])
    ensures StepsOf(c, steps) >= Left(s.workers[c]) ==> BlockedOn(t) == None
  {
    BlockedWorkerCanMove(s, c);
    ThreadsMoveAlong(s, steps);
    ThreadRun(s, steps, c);
    if BlockedOn(t) != None {
      ReachableRun(s, steps);
      StillBlocked(s, t, c);
      BlockedWorkerCanMove(t, c);
      SomethingLeft(t.workers[c]);
    }
  }

  lemma StillBlocked(s: System, t: System, c: nat)
    requires BlockedOn(s) == Some(c) && BlockedOn(t) != None && t.pc == s.pc && t.reg == s.reg
    ensures BlockedOn(t) == Some(c)
  {
  }

  lemma SomethingLeft(w: Worker)
    requires w.phase != Exited
    ensures Left(w) > 0
  {
  }

  lemma {:induction false} ThreadRun(s: System, steps: seq<Step>, c: nat)
    requires After(s, steps).Some? && c in s.workers
    requires forall i :: 0 <= i < |steps| ==> IsThreadStep(steps[i])
    ensures var t := After(s, steps).value;
            t.pc == s.pc && t.reg == s.reg && t.workers.Keys == s.workers.Keys
            && StepsOf(c, steps) + Left(t.workers[c]) <= Left(s.workers[c])
    decreases |steps|
  {
    if steps == [] {
    } else {
      ThreadRun(s, steps[..|steps| - 1], c);
      ThreadStepDescends(After(s, steps[..|steps| - 1]).value, steps[|steps| - 1], c);
    }
  }

  lemma AfterOneMore(s: System, steps: seq<Step>, step: Step)
    ensures After(s, steps + [step]) ==
            (if After(s, steps).None? then None
             else if Enabled(After(s, steps).value, step) then Some(Take(After(s, steps).value, step)) else None)
  {
    assert (steps + [step])[..|steps|] == steps;
  }

  lemma {:induction false} AfterConcat(s: System, a: seq<Step>, b: seq<Step>)
    requires After(s, a).Some?
    ensures After(s, a + b) == After(After(s, a).value, b)
    decreases |b|
  {
    if b == [] {
      assert a + b == a;
    } else {
      var m, last := b[..|b| - 1], b[|b| - 1];
      assert b == m + [last] && a + b == (a + m) + [last];
      AfterConcat(s, a, m);
      AfterOneMore(s, a + m, last);
      AfterOneMore(After(s, a).value, m, last);
    }
  }

  lemma ReachableRun(s: System, steps: seq<Step>)
    requires Reachable(s) && After(s, steps).Some?
    ensures Reachable(After(s, steps).value)
  {
    var before :| After(INITIAL, before) == Some(s);
    AfterConcat(INITIAL, before, steps);
  }

  // --- A run ----------------------------------------------------------------------------------

  lemma OneStepFurther(s: System, step: Step)
    requires Reachable(s) && Enabled(s, step)
    ensures Reachable(Take(s, step))
  {
    var steps :| After(INITIAL, steps) == Some(s);
    AfterOneMore(INITIAL, steps, step);
  }

  /** The connection's worker takes the job in its hands and is done with it. */
  lemma QuickWorker(s: System, c: nat) returns (t: System)
    requires Reachable(s) && c in s.workers && CanPop(s.workers[c]) && !s.workers[c].input[0].kind.Close?
    ensures Reachable(t) && c in t.workers && t.workers[c] == Iteration(s.workers[c])
  {
    t := PoppedAndRun(s, c);
    assert t.workers[c].phase == Ran(s.workers[c].input[0]);
    OneStepFurther(t, WorkerDeliver(c));
    t := DeliverOn(t, c);
    OneStepFurther(t, WorkerFinish(c));
    t := SetWorker(t, c, Finish(t.workers[c]));
    IterationIsItsSteps(s.workers[c]);
  }

  lemma PoppedAndRun(s: System, c: nat) returns (t: System)
    requires Reachable(s) && c in s.workers && CanPop(s.workers[c])
    ensures Reachable(t) && c in t.workers && t.workers[c] == RunJob(Pop(s.workers[c]))
  {
    OneStepFurther(s, WorkerPop(c));
    t := SetWorker(s, c, Pop(s.workers[c]));
    OneStepFurther(t, WorkerRun(c, Failed));
    t := RunOn(t, c, Failed);
  }

  lemma FirstConnection() returns (s: System)
    ensures Reachable(s) && Free(s) && s.workers == map[0 := FRESH_WORKER]
            && s.reg == AddConnection(EMPTY_REGISTRY, 0, true) && s.nextJob == 0 && s.clock == 0
  {
    assert After(INITIAL, []) == Some(INITIAL);
    OneStepFurther(INITIAL, Connect(0, true));
    s := Take(INITIAL, Connect(0, true));
  }

  lemma FirstQuery(s: System, sql: string) returns (t: System)
    requires Reachable(s) && Free(s) && s.workers == map[0 := FRESH_WORKER]
             && s.reg == AddConnection(EMPTY_REGISTRY, 0, true) && s.nextJob == 0 && s.clock == 0
    requires |sql| <= DEFAULT_GUARDS.maxQueryLength
    ensures Reachable(t) && 0 in t.workers
    ensures t.workers[0] == Push(FRESH_WORKER, Job(0, 0, sql, Plain, false, TermsOf(DEFAULT_GUARDS, 0)))
  {
    assert PendingOf(s, 1) == 0 && Admit(s.reg, 1, false, sql, 0, 0).0 == Accepted;
    OneStepFurther(s, Query(1, sql, false, 0));
    t := Submit(s, 1, Plain, sql, false, 0);
  }

  /** The counter really does go below zero: a worker that is quick finishes a job between its
      push and its count. */
  lemma PendingCanBeNegative()
    ensures exists s: System :: Reachable(s) && 0 in s.workers && s.workers[0].pending == -1
  {
    var s := FirstConnection();
    s := FirstQuery(s, "SELECT 1");
    s := QuickWorker(s, 0);
    assert s.workers[0].pending == -1;
  }
}
