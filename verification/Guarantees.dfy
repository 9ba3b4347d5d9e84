/** What scripts can rely on after any run: where finished jobs arrive, how long statements and
    connections live, which queries can have run, and what handles and results mean. */
module Guarantees {
  import opened Options
  import opened SqlScan
  import opened Guards
  import opened Registries
  import opened Results
  import opened Workers
  import opened Protocol
  import opened Structure
  import opened Lifetimes
  import opened Delivery
  import opened Policy
  import opened Rates
  import opened Outcomes
  import opened Safety
  import opened Progress

  // --- Where finished jobs arrive ---------------------------------------------------------------

  /** The asynchronous jobs of a connection in the order they were queued: first those whose
      callbacks have fired, then those a tick has taken out, those in the sink, the one about to
      be pushed there, and those still to run. So callbacks fire in the order of the queries. */
  lemma DispatchedInOrder(s: System, c: nat)
    requires Reachable(s) && c in s.workers
    ensures var w := s.workers[c];
            && AsyncOnly(w.enqueued)
               == Of(c, s.dispatched) + Of(c, s.done) + Of(c, s.sink) + OwedAsync(w.phase) + AsyncOnly(Todo(w))
            && Of(c, s.dispatched) <= AsyncOnly(w.enqueued)
  {
    PlacesHold(s, c);
    HistoryHolds(s, c);
    var w := s.workers[c];
    AsyncOnlyConcat(w.executed, Todo(w));
  }

  lemma PlacesHold(s: System, c: nat)
    requires Reachable(s) && c in s.workers
    ensures AsyncOk(s, c, s.workers[c]) && SyncOk(s, c, s.workers[c])
  {
    DeliveryHolds(s);
  }

  lemma HistoryHolds(s: System, c: nat)
    requires Reachable(s) && c in s.workers
    ensures HistoryOk(c, s.workers[c]) && PendingOk(s.pc, c, s.workers[c])
  {
    WorkersHold(s);
  }

  lemma {:induction false} FromConnection(c: nat, jobs: seq<Job>, i: nat)
    requires i < |jobs| && jobs[i].conn == c
    ensures jobs[i] in Of(c, jobs)
    decreases jobs
  {
    if i == 0 {
    } else {
      FromConnection(c, jobs[1..], i - 1);
    }
  }

  lemma {:induction false} OnlyAsync(jobs: seq<Job>)
    ensures forall job :: job in AsyncOnly(jobs) <==> job in jobs && Async(job)
    decreases jobs
  {
    if jobs == [] {
    } else {
      OnlyAsync(jobs[1..]);
      assert jobs == [jobs[0]] + jobs[1..];
    }
  }

  lemma {:induction false} OnlySync(jobs: seq<Job>)
    ensures forall job :: job in SyncOnly(jobs) <==> job in jobs && job.sync && !job.kind.Close?
    decreases jobs
  {
    if jobs == [] {
    } else {
      OnlySync(jobs[1..]);
      assert jobs == [jobs[0]] + jobs[1..];
    }
  }

  /** What is dispatched, drained or in the sink is an asynchronous job that its own worker has
      run; what is returned is a synchronous one. So no job arrives in both ways, and a
      teardown arrives nowhere. */
  lemma ArrivesWhereItBelongs(s: System, job: Job)
    requires Reachable(s)
    ensures job in s.dispatched + s.done + s.sink ==>
            !job.sync && !job.kind.Close? && job.conn in s.workers && job in s.workers[job.conn].executed
    ensures job in s.returned ==>
            job.sync && !job.kind.Close? && job.conn in s.workers && job in s.workers[job.conn].executed
  {
    if job in s.dispatched + s.done + s.sink {
      ArrivesAsync(s, job);
    }
    if job in s.returned {
      ArrivesSync(s, job);
    }
  }

  lemma ArrivesAsync(s: System, job: Job)
    requires Reachable(s) && job in s.dispatched + s.done + s.sink
    ensures Async(job) && job.conn in s.workers && job in s.workers[job.conn].executed
  {
    HomesHold(s);
    assert job.conn in s.workers;
    PlacesHold(s, job.conn);
    var k :| 0 <= k < |s.dispatched + s.done + s.sink| && (s.dispatched + s.done + s.sink)[k] == job;
    FromConnection(job.conn, s.dispatched + s.done + s.sink, k);
    OfConcat(job.conn, s.dispatched + s.done, s.sink);
    OfConcat(job.conn, s.dispatched, s.done);
    OnlyAsync(s.workers[job.conn].executed);
  }

  lemma ArrivesSync(s: System, job: Job)
    requires Reachable(s) && job in s.returned
    ensures job.sync && !job.kind.Close? && job.conn in s.workers && job in s.workers[job.conn].executed
  {
    HomesHold(s);
    var k :| 0 <= k < |s.returned| && s.returned[k] == job;
    PlacesHold(s, job.conn);
    FromConnection(job.conn, s.returned, k);
    OnlySync(s.workers[job.conn].executed);
  }

  lemma HomesHold(s: System)
    requires Reachable(s)
    ensures HomesOk(s)
  {
    DeliveryHolds(s);
  }

  // --- Statements and connections -----------------------------------------------------------------

  /** No worker touches a connection that has been destroyed. */
  lemma WorkersTouchLiveConnections(s: System, step: Step)
    requires Reachable(s) && Enabled(s, step) && IsThreadStep(step)
    ensures step.c in s.alive
  {
    StructureHolds(s);
    TakeOfThread(s, step);
    ThreadStepKeeps(s, step);
  }

  /** A statement an execute job names, queued or in hand, exists, belongs to the connection the
      job runs on, and has not been destroyed; and a teardown still has its statement to destroy. */
  lemma StatementsOutliveTheirUses(s: System, c: nat, i: nat)
    requires Reachable(s) && c in s.workers && i < |Todo(s.workers[c])| && Todo(s.workers[c])[i].kind != Plain
    ensures var t := Todo(s.workers[c])[i].kind.stmt;
            t in s.stmts && s.stmts[t].conn == c && s.stmts[t].fate != Destroyed && !InGrave(s.graves, t)
  {
    LifetimesHold(s);
    assert UseOk(s.stmts, c, Todo(s.workers[c])[i]);
    var t := Todo(s.workers[c])[i].kind.stmt;
    forall k | 0 <= k < |s.graves| ensures s.graves[k].stmt != t {
      assert GraveOk(s, s.graves[k]);
    }
  }

  /** A statement is destroyed at most once: by its own connection's worker, or by the main
      thread when that connection is gone. */
  lemma DestroyedOnceInTheRightPlace(s: System, t: nat)
    requires Reachable(s) && t in s.stmts
    ensures s.stmts[t].fate == Destroyed <==> InGrave(s.graves, t)
    ensures forall i, j :: 0 <= i < |s.graves| && 0 <= j < |s.graves| && s.graves[i].stmt == t == s.graves[j].stmt ==>
            i == j
    ensures forall i :: 0 <= i < |s.graves| && s.graves[i].stmt == t ==>
              if s.graves[i].onWorker.Some? then s.graves[i].onWorker.value == s.stmts[t].conn
                else s.stmts[t].conn !in s.alive
  {
    GravesHold(s);
    forall i | 0 <= i < |s.graves| && s.graves[i].stmt == t ensures GraveOk(s, s.graves[i]) {
    }
  }

  lemma GravesHold(s: System)
    requires Reachable(s)
    ensures GravesOk(s)
  {
    LifetimesHold(s);
  }

  /** When a reset has finished, every statement there ever was has been destroyed, everything
      ever queued anywhere has run, and every thread is gone. */
  lemma ResetLeavesNothing(s: System)
    requires Reachable(s) && Enabled(s, ResetEnd)
    ensures var t := Take(s, ResetEnd);
            && t.alive == map[] && t.reg.connections == map[] && t.reg.statements == map[]
            && (forall x :: x in t.stmts ==> t.stmts[x].fate == Destroyed && InGrave(t.graves, x))
            && (forall c :: c in t.workers ==>
               t.workers[c].executed == t.workers[c].enqueued && t.workers[c].phase == Exited)
  {
    StructureHolds(s);
    ResetEndKeeps(s);
    LifetimesHold(s);
    forall c | c in s.workers ensures s.workers[c].executed == s.workers[c].enqueued && Todo(s.workers[c]) == [] {
      GoneIsDrained(s.pc, c, s.workers[c]);
    }
    AllGone(s);
  }

  lemma AllGone(s: System)
    requires LifetimesOk(s) && s.reg.statements == map[]
    requires forall c :: c in s.workers ==> Todo(s.workers[c]) == []
    ensures forall x :: x in s.stmts ==> s.stmts[x].fate == Destroyed && InGrave(s.graves, x)
  {
  }

  // --- Which queries can have run -------------------------------------------------------------------

  /** Every plain query a worker has run is a single statement unless its connection was
      registered for several, met the length limit in force when it was queued, and was never
      refused. */
  lemma OnlyAdmittedQueriesRun(s: System, c: nat, i: nat)
    requires Reachable(s) && c in s.workers && i < |s.workers[c].executed| && s.workers[c].executed[i].kind == Plain
    ensures c in s.multiAt
    ensures var job := s.workers[c].executed[i];
            && (s.multiAt[c] || !IsMulti(job.sql))
            && (job.terms.lengthCap == 0 || |job.sql| <= job.terms.lengthCap)
            && job.id !in s.refused
  {
    HistoryHolds(s, c);
    assert s.workers[c].executed[i] == s.workers[c].enqueued[i];
    PolicyHolds(s);
    assert JobOk(s.multiAt[c], s.workers[c].enqueued[i]);
  }

  /** No closed window of the rate limit's length, wherever it starts, ever holds more jobs let
      through under the limit on one connection than the largest limit any of them met. */
  lemma RateLimitHolds(s: System, c: nat, cap: nat, start: int)
    requires Reachable(s) && c in s.workers
    requires forall i :: 0 <= i < |s.workers[c].enqueued| ==> s.workers[c].enqueued[i].terms.rateLimit <= cap
    ensures Within(Counted(s.workers[c].enqueued), start, start + RATE_WINDOW) <= cap
  {
    RatesHold(s);
    WindowsBounded(s.workers[c].enqueued, s.clock, cap, start);
  }

  /** In every reachable state the guards' verdict on a query is what the full history of the
      connection says, and the log kept for it is sorted and past. */
  lemma VerdictFollowsHistory(s: System, h: int, prepared: bool, sql: string, now: int)
    requires Reachable(s) && Free(s) && h in s.reg.connections && s.clock <= now
    ensures s.reg.connections[h] in s.workers && s.reg.connections[h] in s.multiAt && h in s.reg.guards
    ensures var c := s.reg.connections[h];
            var w := s.workers[c];
            var g := s.reg.guards[h];
            Admit(s.reg, h, prepared, sql, PendingOf(s, h), now).0 == Accepted <==>
            && (prepared || g.maxQueryLength == 0 || |sql| <= g.maxQueryLength)
            && (prepared || s.multiAt[c] || !IsMulti(sql))
            && (g.maxPendingQueries == 0 || |w.input| + Busy(w.phase) < g.maxPendingQueries)
            && (g.maxQueriesPerWindow == 0
               || Within(Counted(w.enqueued), now - RATE_WINDOW, now) < g.maxQueriesPerWindow)
    ensures Sorted(LogOf(s.reg, h)) && AtMost(LogOf(s.reg, h), now)
  {
    RatesHold(s);
    var c := s.reg.connections[h];
    KnownPolicy(s, h);
    HistoryHolds(s, c);
    VerdictInTerms(s, h, prepared, sql, now);
  }

  lemma KnownPolicy(s: System, h: int)
    requires Reachable(s) && h in s.reg.connections
    ensures h in s.reg.multi && s.reg.connections[h] in s.multiAt && s.reg.multi[h] == s.multiAt[s.reg.connections[h]]
  {
    PolicyHolds(s);
  }

  lemma VerdictInTerms(s: System, h: int, prepared: bool, sql: string, now: int)
    requires Coherent(s.reg) && RatesOk(s) && h in s.reg.connections && s.clock <= now
    ensures var g := s.reg.guards[h];
            var history := Counted(s.workers[s.reg.connections[h]].enqueued);
            Admit(s.reg, h, prepared, sql, PendingOf(s, h), now).0 == Accepted <==>
            && (prepared || g.maxQueryLength == 0 || |sql| <= g.maxQueryLength)
            && (prepared || s.reg.multi[h] || !IsMulti(sql))
            && (g.maxPendingQueries == 0 || PendingOf(s, h) < g.maxPendingQueries)
            && (g.maxQueriesPerWindow == 0 || Within(history, now - RATE_WINDOW, now) < g.maxQueriesPerWindow)
    ensures Sorted(LogOf(s.reg, h)) && AtMost(LogOf(s.reg, h), now)
  {
    var g := s.reg.guards[h];
    var log := LogOf(s.reg, h);
    var history := Counted(s.workers[s.reg.connections[h]].enqueued);
    RateStep(log, history, s.clock, now, g.maxQueriesPerWindow);
    CheckAccepts(g, s.reg.multi[h], prepared, sql, PendingOf(s, h), log, now);
    RateIsWindow(log, now, g.maxQueriesPerWindow, RATE_WINDOW);
  }

  // --- Results --------------------------------------------------------------------------------------

  /** Whatever the cache shows or has retained is made of grids, so cells are always in bounds. */
  lemma CacheShowsGrids(s: System)
    requires Reachable(s)
    ensures s.cache.active.Some? ==> Grid(s.cache.active.value)
    ensures forall id :: id in s.cache.saved ==> Grid(s.cache.saved[id])
  {
    GridsHold(s);
  }

  lemma GridsHold(s: System)
    requires Reachable(s)
    ensures GridsOk(s)
  {
    InvariantHolds(s);
  }

  /** What came of a job that has run never changes again. */
  lemma {:induction false} OutcomeIsFinal(s: System, steps: seq<Step>, id: nat)
    requires Reachable(s) && HasRun(s.workers, id) && After(s, steps).Some?
    ensures HasRun(After(s, steps).value.workers, id) && SameOutcome(s, After(s, steps).value, id)
    decreases |steps|
  {
    if steps == [] {
    } else {
      var most := steps[..|steps| - 1];
      OutcomeIsFinal(s, most, id);
      ReachableRun(s, most);
      WorkersHold(After(s, most).value);
      PolicyHolds(After(s, most).value);
      StepKeepsOutcome(After(s, most).value, steps[|steps| - 1], id);
    }
  }

  /** However much later: a job has the result made of the server's answer to its own run, or
      none if that failed, and no other. */
  lemma ResultIsOfItsOwnRun(s: System, c: nat, reply: Reply, steps: seq<Step>, t: System)
    requires Reachable(s) && Enabled(s, WorkerRun(c, reply)) && !s.workers[c].phase.job.kind.Close?
    requires After(Take(s, WorkerRun(c, reply)), steps) == Some(t)
    ensures ResultFor(t, s.workers[c].phase.job) == ResultOf(reply, s.workers[c].phase.job.sql)
  {
    var id := s.workers[c].phase.job.id;
    NoResultYet(s, c);
    StepResults(s, WorkerRun(c, reply));
    Outcomes.JobHasRun(s, WorkerRun(c, reply));
    OneStepFurther(s, WorkerRun(c, reply));
    OutcomeIsFinal(Take(s, WorkerRun(c, reply)), steps, id);
  }

  function ResultFor(s: System, job: Job): Option<QueryResult> {
    if job.id in s.results then Some(s.results[job.id]) else None
  }

  lemma NoResultYet(s: System, c: nat)
    requires Reachable(s) && c in s.workers && s.workers[c].phase.Holding?
    ensures s.workers[c].phase.job.id !in s.results
  {
    WorkersHold(s);
    PolicyHolds(s);
    ResultsHold(s);
    InHandIsNew(s, c);
  }

  /** A callback that fires, and a synchronous call that returns, show the result of that very
      job's run; a call whose job failed leaves what was active. */
  lemma JobsShowTheirOwnResults(s: System, c: nat, reply: Reply, steps: seq<Step>, t: System)
    requires Reachable(s) && Enabled(s, WorkerRun(c, reply)) && !s.workers[c].phase.job.kind.Close?
    requires After(Take(s, WorkerRun(c, reply)), steps) == Some(t)
    ensures var job := s.workers[c].phase.job;
            var result := ResultOf(reply, job.sql);
            && (Enabled(t, Dispatch(true)) && t.done[0] == job ==>
                  result.Some? && Take(t, Dispatch(true)).cache.active == result)
            && (forall keep :: Enabled(t, SyncReturn(keep)) && t.promise == Some(job) ==>
                  Take(t, SyncReturn(keep)).cache.active == if result.Some? then result else t.cache.active)
  {
    var job := s.workers[c].phase.job;
    ResultIsOfItsOwnRun(s, c, reply, steps, t);
    forall keep | Enabled(t, SyncReturn(keep)) && t.promise == Some(job)
      ensures Take(t, SyncReturn(keep)).cache.active
              == if ResultFor(t, job).Some? then ResultFor(t, job) else t.cache.active
    {
      TakeOfReturn(t, keep);
      ReturnShows(t, keep);
    }
    if Enabled(t, Dispatch(true)) && t.done[0] == job {
      DispatchShows(t);
    }
  }

  lemma ReturnShows(s: System, keep: bool)
    requires s.promise.Some?
    ensures ReturnSync(s, keep).cache.active
            == if ResultFor(s, s.promise.value).Some? then ResultFor(s, s.promise.value) else s.cache.active
  {
  }

  lemma DispatchShows(s: System)
    requires Enabled(s, Dispatch(true))
    ensures Take(s, Dispatch(true)).cache.active == ResultFor(s, s.done[0])
  {
  }

  /** The steps that may end what a retained handle denotes. */
  predicate Forgets(step: Step, id: int) {
    step == Script(Release(id)) || step == ResetBegin
  }

  lemma StepKeepsHandle(s: System, step: Step, id: int)
    requires GridsOk(s) && Enabled(s, step) && id in s.cache.saved && !Forgets(step, id)
    ensures id in Take(s, step).cache.saved && Take(s, step).cache.saved[id] == s.cache.saved[id]
  {
    if step.SyncReturn? {
      ReturnKeepsHandle(s, step.keep, id);
    } else if !ChangesResults(step) {
      OtherKeepsResults(s, step);
    } else if step.WorkerRun? {
      TakeOfThread(s, step);
    } else {
      CacheStepKeepsHandle(s, step, id);
    }
  }

  lemma CacheStepKeepsHandle(s: System, step: Step, id: int)
    requires Enabled(s, step) && id in s.cache.saved && id < s.cache.next && !Forgets(step, id)
    requires step.Dispatch? || step.EndCallback? || step.Script?
    ensures id in Take(s, step).cache.saved && Take(s, step).cache.saved[id] == s.cache.saved[id]
  {
  }

  lemma ReturnKeepsHandle(s: System, keep: bool, id: int)
    requires s.promise.Some? && id in s.cache.saved && id < s.cache.next
    ensures var t := ReturnSync(s, keep); id in t.cache.saved && t.cache.saved[id] == s.cache.saved[id]
  {
  }

  /** A retained handle denotes the same result for as long as it is neither released nor reset
      away, whatever runs meanwhile. */
  lemma {:induction false} RetainedHandleSurvives(s: System, steps: seq<Step>, id: int)
    requires Reachable(s) && id in s.cache.saved && After(s, steps).Some?
    requires forall i :: 0 <= i < |steps| ==> !Forgets(steps[i], id)
    ensures var t := After(s, steps).value; id in t.cache.saved && t.cache.saved[id] == s.cache.saved[id]
    decreases |steps|
  {
    if steps == [] {
    } else {
      var most := steps[..|steps| - 1];
      RetainedHandleSurvives(s, most, id);
      ReachableRun(s, most);
      GridsHold(After(s, most).value);
      StepKeepsHandle(After(s, most).value, steps[|steps| - 1], id);
    }
  }

  // --- Handles --------------------------------------------------------------------------------------

  /** Connections, workers, policies and guards share their handles; between two operations of
      the main thread every registered connection is alive and its worker running. */
  lemma RegistryIsCoherent(s: System)
    requires Reachable(s)
    ensures Coherent(s.reg)
    ensures s.pc == Idle && s.mode != ClearingConnections ==>
              forall h :: h in s.reg.connections ==>
                var c := s.reg.connections[h];
                c in s.alive && c in s.workers && s.workers[c].running && s.workers[c].phase != Exited
  {
    StructureHolds(s);
    if s.pc == Idle && s.mode != ClearingConnections {
      forall h | h in s.reg.connections
        ensures s.reg.connections[h] in s.workers && s.workers[s.reg.connections[h]].running
                && s.workers[s.reg.connections[h]].phase != Exited
      {
        IdleMeansRunning(s, h);
      }
    }
  }

  /** No step but the end of a reset hands out a handle for the second time. */
  ghost predicate HandlesGrow(s: System, t: System) {
    && s.reg.nextHandle <= t.reg.nextHandle
    && forall h :: h in t.reg.connections && h < s.reg.nextHandle ==>
       h in s.reg.connections && t.reg.connections[h] == s.reg.connections[h]
  }

  lemma StepGrowsHandles(s: System, step: Step)
    requires Coherent(s.reg) && Enabled(s, step) && !step.ResetEnd?
    ensures HandlesGrow(s, Take(s, step))
  {
    match step
    case Query(h, sql, sync, now) => SubmitGrowsHandles(s, h, Plain, sql, sync, now);
    case Execute(sh, now) =>
      var stmt := s.reg.statements[sh];
      SubmitGrowsHandles(s, HandleOf(s.reg, stmt.conn), Exec(stmt.id), stmt.sql, false, now);
    case CloseStatement(sh) => CloseGrowsHandles(s, sh);
    case SyncReturn(keep) => ReturnFrame(s, keep);
    case Join => JoinGrowsHandles(s);
    case WorkerRun(d, reply) => RunFrame(s, d, reply);
    case WorkerDeliver(d) => DeliverFrame(s, d);
    case _ =>
  }

  lemma CloseGrowsHandles(s: System, sh: int)
    requires sh in s.reg.statements
    ensures HandlesGrow(s, CloseStmt(s, sh))
  {
  }

  lemma JoinGrowsHandles(s: System)
    requires Enabled(s, Join)
    ensures HandlesGrow(s, JoinWorker(s))
  {
  }

  lemma SubmitGrowsHandles(s: System, h: int, kind: Kind, sql: string, sync: bool, now: int)
    requires Coherent(s.reg)
    ensures HandlesGrow(s, Submit(s, h, kind, sql, sync, now))
  {
    var reg := Admit(s.reg, h, kind.Exec?, sql, PendingOf(s, h), now).1;
    AdmitKeeps(s.reg, h, kind.Exec?, sql, PendingOf(s, h), now);
    assert Submit(s, h, kind, sql, sync, now).reg == reg;
  }

  /** A handle that has been closed stays closed until the next reset ends. */
  lemma {:induction false} ClosedHandleStaysClosed(s: System, steps: seq<Step>, h: int)
    requires Reachable(s) && h < s.reg.nextHandle && h !in s.reg.connections && After(s, steps).Some?
    requires forall i :: 0 <= i < |steps| ==> !steps[i].ResetEnd?
    ensures h !in After(s, steps).value.reg.connections && h < After(s, steps).value.reg.nextHandle
    decreases |steps|
  {
    if steps == [] {
    } else {
      var most := steps[..|steps| - 1];
      ClosedHandleStaysClosed(s, most, h);
      ReachableRun(s, most);
      RegistryIsCoherent(After(s, most).value);
      StepGrowsHandles(After(s, most).value, steps[|steps| - 1]);
    }
  }
}
