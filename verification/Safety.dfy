/** What holds in every state the engine can reach, and along every run from there, whatever
    the interleaving. */
module Safety {
  import opened Options
  import opened Guards
  import opened Registries
  import opened Workers
  import opened Protocol
  import opened Structure
  import opened Lifetimes
  import opened Delivery
  import opened Policy
  import opened Rates
  import opened Outcomes

  ghost predicate Invariant(s: System) {
    StructureOk(s) && LifetimesOk(s) && DeliveryOk(s) && PolicyOk(s) && GridsOk(s) && RatesOk(s) && ResultsOk(s)
  }

  lemma InitiallyInvariant()
    ensures Invariant(INITIAL)
  {
  }

  lemma InvariantStep(s: System, step: Step)
    requires Invariant(s) && Enabled(s, step)
    ensures Invariant(Take(s, step))
  {
    StructureStep(s, step);
    LifetimesStep(s, step);
    DeliveryStep(s, step);
    PolicyStep(s, step);
    GridsStep(s, step);
    RatesStep(s, step);
    ResultsStep(s, step);
  }

  lemma {:induction false} InvariantRun(s: System, steps: seq<Step>)
    requires Invariant(s) && After(s, steps).Some?
    ensures Invariant(After(s, steps).value)
    decreases |steps|
  {
    if steps == [] {
    } else {
      InvariantRun(s, steps[..|steps| - 1]);
      InvariantStep(After(s, steps[..|steps| - 1]).value, steps[|steps| - 1]);
    }
  }

  lemma InvariantHolds(s: System)
    requires Reachable(s)
    ensures Invariant(s)
  {
    var steps :| After(INITIAL, steps) == Some(s);
    InitiallyInvariant();
    InvariantRun(INITIAL, steps);
  }

  lemma StructureHolds(s: System)
    requires Reachable(s)
    ensures StructureOk(s)
  {
    InvariantHolds(s);
  }

  lemma LifetimesHold(s: System)
    requires Reachable(s)
    ensures LifetimesOk(s)
  {
    InvariantHolds(s);
  }

  lemma DeliveryHolds(s: System)
    requires Reachable(s)
    ensures DeliveryOk(s)
  {
    InvariantHolds(s);
  }

  lemma PolicyHolds(s: System)
    requires Reachable(s)
    ensures PolicyOk(s)
  {
    InvariantHolds(s);
  }

  lemma RatesHold(s: System)
    requires Reachable(s)
    ensures RatesOk(s) && Coherent(s.reg)
  {
    InvariantHolds(s);
  }

  lemma ResultsHold(s: System)
    requires Reachable(s)
    ensures ResultsOk(s)
  {
    InvariantHolds(s);
  }

  // --- Queues and counters --------------------------------------------------------------------

  /** Every job ever queued on a connection has run, is running, or is still queued, in the
      order it was queued, and no job is ever queued twice anywhere. */
  lemma ExactlyOnceInOrder(s: System, c: nat)
    requires Reachable(s) && c in s.workers
    ensures var w := s.workers[c]; w.enqueued == w.executed + InHand(w.phase) + w.input
    ensures forall i, d, j ::
              0 <= i < |s.workers[c].enqueued| && d in s.workers && 0 <= j < |s.workers[d].enqueued| ==>
              s.workers[c].enqueued[i].id == s.workers[d].enqueued[j].id ==> c == d && i == j
  {
    QueueInOrder(s, c);
    PolicyHolds(s);
  }

  lemma QueueInOrder(s: System, c: nat)
    requires Reachable(s) && c in s.workers
    ensures var w := s.workers[c]; w.enqueued == w.executed + InHand(w.phase) + w.input
  {
    StructureHolds(s);
    var w := s.workers[c];
    assert HistoryOk(c, w);
    Regroup(w.executed, InHand(w.phase), w.input);
  }

  /** When a worker has been stopped everything ever queued on it has run: the queue thrown
      away after the join is empty, and the connection dies only then. */
  lemma NothingLostAtShutdown(s: System, c: nat)
    requires Reachable(s) && c in s.workers
    requires c !in s.alive || (Enabled(s, Join) && s.reg.workers[s.pc.handle] == c)
    ensures var w := s.workers[c]; w.executed == w.enqueued && w.input == [] && w.pending == 0 && w.phase == Exited
  {
    StructureHolds(s);
    GoneWorkerIsDrained(s, c);
  }

  lemma GoneWorkerIsDrained(s: System, c: nat)
    requires StructureOk(s) && c in s.workers
    requires c !in s.alive || (Enabled(s, Join) && s.reg.workers[s.pc.handle] == c)
    ensures var w := s.workers[c]; w.executed == w.enqueued && w.input == [] && w.pending == 0 && w.phase == Exited
  {
    assert RunningOk(s, c, s.workers[c]);
    GoneIsDrained(s.pc, c, s.workers[c]);
  }

  lemma GoneIsDrained(pc: MainPc, c: nat, w: Worker)
    requires HistoryOk(c, w) && w.phase == Exited
    ensures w.executed == w.enqueued && w.input == []
    ensures PendingOk(pc, c, w) && !(pc.AfterPush? && pc.job.conn == c) ==> w.pending == 0
  {
    assert w.executed + [] == w.executed;
  }

  /** The counter is exact but for the moment between a push and its count; it is below zero
      only then, and never when the main thread reads it. */
  lemma PendingIsAccurate(s: System, c: nat)
    requires Reachable(s) && c in s.workers
    ensures var w := s.workers[c];
            var mid := s.pc.AfterPush? && s.pc.job.conn == c;
            && w.pending == |w.input| + Busy(w.phase) - (if mid then 1 else 0)
            && (w.pending < 0 <==> mid && w.input == [] && Busy(w.phase) == 0)
            && (s.pc == Idle ==> w.pending >= 0)
  {
    InvariantHolds(s);
    assert PendingOk(s.pc, c, s.workers[c]);
  }

  // --- Backpressure ---------------------------------------------------------------------------

  function Guarded(jobs: seq<Job>): nat {
    if jobs == [] then 0 else (if jobs[0].kind.Close? then 0 else 1) + Guarded(jobs[1..])
  }

  /** Jobs the guards let through that have not been delivered yet. */
  function Outstanding(w: Worker): nat {
    Guarded(Todo(w)) + if w.phase.Ran? then 1 else 0
  }

  /** The limit on pending queries in force for connection `c`, 0 for none. */
  function CapOf(s: System, c: nat): nat {
    if c in s.alive && s.alive[c] in s.reg.guards then s.reg.guards[s.alive[c]].maxPendingQueries else 0
  }

  lemma {:induction false} GuardedConcat(a: seq<Job>, b: seq<Job>)
    ensures Guarded(a + b) == Guarded(a) + Guarded(b)
    decreases a
  {
    if a == [] {
      assert a + b == b;
    } else {
      assert (a + b)[1..] == a[1..] + b;
      GuardedConcat(a[1..], b);
    }
  }

  lemma {:induction false} GuardedAtMost(a: seq<Job>)
    ensures Guarded(a) <= |a|
    decreases a
  {
    if a == [] {
    } else {
      GuardedAtMost(a[1..]);
    }
  }

  lemma OutstandingAtMostQueued(w: Worker)
    ensures Outstanding(w) <= |w.input| + Busy(w.phase)
  {
    GuardedConcat(InHand(w.phase), w.input);
    GuardedAtMost(w.input);
    GuardedAtMost(InHand(w.phase));
  }

  lemma PushAddsOne(w: Worker, job: Job)
    ensures Outstanding(Push(w, job)) == Outstanding(w) + if job.kind.Close? then 0 else 1
  {
    assert Todo(Push(w, job)) == Todo(w) + [job];
    GuardedConcat(Todo(w), [job]);
    assert [job][1..] == [];
  }

  /** The thread's own steps never add to what is outstanding. */
  lemma ThreadAddsNothing(w: Worker, v: Worker)
    requires ThreadMove(w, v)
    ensures Outstanding(v) <= Outstanding(w)
  {
    if CanPop(w) && v == Pop(w) {
      assert Todo(v) == Todo(w);
    } else if w.phase.Holding? && v == RunJob(w) {
      assert Todo(w)[1..] == w.input && Todo(v) == w.input;
    } else {
      assert Todo(v) == Todo(w);
    }
  }

  /** What one step can make of one worker. */
  ghost predicate WorkerChange(s: System, t: System, c: nat)
    requires c in s.workers && c in t.workers
  {
    var w, v := s.workers[c], t.workers[c];
    || (v.input == w.input && v.phase == w.phase)
    || ThreadMove(w, v)
    || (s.pc == Idle && t.pc.AfterPush? && t.pc.job.conn == c && v == Push(w, t.pc.job)
        && (t.pc.job.kind.Close? || UnderCap(s, c)))
  }

  /** The test a job passes before it is pushed. */
  predicate UnderCap(s: System, c: nat) {
    c in s.workers && (CapOf(s, c) == 0 || s.workers[c].pending < CapOf(s, c))
  }

  lemma SubmitChange(s: System, h: int, kind: Kind, sql: string, sync: bool, now: int, c: nat)
    requires Coherent(s.reg) && LivesOk(s) && s.pc == Idle && c in s.workers
    ensures var t := Submit(s, h, kind, sql, sync, now); c in t.workers && WorkerChange(s, t, c)
  {
    var (reason, reg) := Admit(s.reg, h, kind.Exec?, sql, PendingOf(s, h), now);
    if reason == Accepted && h in s.reg.workers && s.reg.workers[h] in s.workers {
      assert s.alive[s.reg.workers[h]] == h;
    }
  }

  lemma CloseChange(s: System, sh: int, c: nat)
    requires sh in s.reg.statements && s.pc == Idle && c in s.workers
    ensures var t := CloseStmt(s, sh); c in t.workers && WorkerChange(s, t, c)
  {
    RetireLeavesWorkers(s, sh);
  }

  lemma RetireLeavesWorkers(s: System, sh: int)
    requires sh in s.reg.statements
    ensures DropNow(s, sh).workers == s.workers
    ensures s.reg.statements[sh].id in s.stmts ==> Doom(s, sh).workers == s.workers
  {
  }

  lemma JoinChange(s: System, c: nat)
    requires WorkersOk(s) && Enabled(s, Join) && c in s.workers
    ensures var t := JoinWorker(s); c in t.workers && WorkerChange(s, t, c)
  {
    JoinedWorkerIsDrained(s);
  }

  lemma ThreadChange(s: System, step: Step, c: nat)
    requires IsThreadStep(step) && ThreadCan(s, step) && c in s.workers
    ensures var t := ThreadTake(s, step);
            c in t.workers
              && (if step.c == c then ThreadMove(s.workers[c], t.workers[c]) else t.workers[c] == s.workers[c])
  {
    match step
    case WorkerRun(d, reply) => RunFrame(s, d, reply);
    case WorkerDeliver(d) => DeliverFrame(s, d);
    case _ =>
  }

  lemma OtherChange(s: System, step: Step, c: nat)
    requires Enabled(s, step) && c in s.workers
    requires !IsThreadStep(step) && !step.Query? && !step.Execute? && !step.CloseStatement? && !step.Join?
    ensures var t := Take(s, step);
            c in t.workers && t.workers[c].input == s.workers[c].input && t.workers[c].phase == s.workers[c].phase
  {
    if step.SyncReturn? {
      ReturnFrame(s, step.keep);
    }
  }

  lemma StepChange(s: System, step: Step, c: nat)
    requires Coherent(s.reg) && LivesOk(s) && WorkersOk(s) && Enabled(s, step) && c in s.workers
    ensures var t := Take(s, step); c in t.workers && WorkerChange(s, t, c)
  {
    if IsThreadStep(step) {
      TakeOfThread(s, step);
      ThreadChange(s, step, c);
    } else if step.Query? || step.Execute? {
      AdmissionChange(s, step, c);
    } else if step.CloseStatement? || step.Join? {
      TeardownChange(s, step, c);
    } else {
      OtherChange(s, step, c);
    }
  }

  lemma TeardownChange(s: System, step: Step, c: nat)
    requires WorkersOk(s) && Enabled(s, step) && c in s.workers && (step.CloseStatement? || step.Join?)
    ensures var t := Take(s, step); c in t.workers && WorkerChange(s, t, c)
  {
    if step.Join? {
      JoinChange(s, c);
    } else {
      CloseChange(s, step.sh, c);
    }
  }

  lemma AdmissionChange(s: System, step: Step, c: nat)
    requires Coherent(s.reg) && LivesOk(s) && Enabled(s, step) && c in s.workers && (step.Query? || step.Execute?)
    ensures var t := Take(s, step); c in t.workers && WorkerChange(s, t, c)
  {
    match step
    case Query(h, sql, sync, now) => SubmitChange(s, h, Plain, sql, sync, now, c);
    case Execute(sh, now) =>
      var stmt := s.reg.statements[sh];
      if HandleOf(s.reg, stmt.conn) != 0 {
        SubmitChange(s, HandleOf(s.reg, stmt.conn), Exec(stmt.id), stmt.sql, false, now, c);
      }
  }

  lemma CapHoldsStep(s: System, step: Step, c: nat, cap: nat)
    requires StructureOk(s) && Enabled(s, step) && c in s.workers
    requires cap > 0 && CapOf(s, c) == cap && Outstanding(s.workers[c]) <= cap
    ensures c in Take(s, step).workers && Outstanding(Take(s, step).workers[c]) <= cap
  {
    var t := Take(s, step);
    StepChange(s, step, c);
    CapHoldsChange(s, t, c, cap);
  }

  lemma CapHoldsChange(s: System, t: System, c: nat, cap: nat)
    requires c in s.workers && PendingOk(s.pc, c, s.workers[c]) && c in t.workers && WorkerChange(s, t, c)
    requires cap > 0 && CapOf(s, c) == cap && Outstanding(s.workers[c]) <= cap
    ensures Outstanding(t.workers[c]) <= cap
  {
    var w, v := s.workers[c], t.workers[c];
    if ThreadMove(w, v) {
      ThreadAddsNothing(w, v);
    } else if v.input == w.input && v.phase == w.phase {
      assert Todo(v) == Todo(w);
    } else {
      PushAddsOne(w, t.pc.job);
      OutstandingAtMostQueued(w);
    }
  }

  /** As long as a connection's limit on pending queries stays `cap`, no more than `cap` of
      its guarded jobs are ever outstanding, teardowns notwithstanding. */
  lemma {:induction false} BackpressureBounds(s: System, steps: seq<Step>, c: nat, cap: nat)
    requires Reachable(s) && c in s.workers && Outstanding(s.workers[c]) <= cap && cap > 0
    requires After(s, steps).Some?
    requires forall k :: 0 <= k < |steps| && After(s, steps[..k]).Some? ==> CapOf(After(s, steps[..k]).value, c) == cap
    ensures c in After(s, steps).value.workers && Outstanding(After(s, steps).value.workers[c]) <= cap
    decreases |steps|
  {
    if steps == [] {
    } else {
      var most := steps[..|steps| - 1];
      assert forall k :: 0 <= k < |most| ==> most[..k] == steps[..k];
      BackpressureBounds(s, most, c, cap);
      InvariantHolds(s);
      InvariantRun(s, most);
      CapHoldsStep(After(s, most).value, steps[|steps| - 1], c, cap);
    }
  }
}
