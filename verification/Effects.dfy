/** What each operation of the engine does in every reachable state: when a query or an execution
    is queued and what is queued then, what becomes of finished jobs, and what the other steps
    change. */
module Effects {
  import opened Options
  import opened SqlScan
  import opened Guards
  import opened Registries
  import opened Results
  import opened Workers
  import opened Protocol
  import opened Structure
  import opened Delivery
  import opened Rates
  import opened Safety
  import opened Progress
  import opened Guarantees

  // --- Queries and executions -------------------------------------------------------------------

  /** The handle is registered; its connection has room for one more job, and few enough were
      let through in the window ending now. */
  ghost predicate Takes(s: System, h: int, now: int) {
    && h in s.reg.connections && s.reg.connections[h] in s.workers && h in s.reg.guards
    && var w := s.workers[s.reg.connections[h]];
       var g := s.reg.guards[h];
       && (g.maxPendingQueries == 0
          || |w.input| + (if w.phase == AtLoop || w.phase == Exited then 0 else 1) < g.maxPendingQueries)
       && (g.maxQueriesPerWindow == 0
          || Within(Counted(w.enqueued), now - RATE_WINDOW, now) < g.maxQueriesPerWindow)
  }

  /** A text is short enough for the connection, and a single statement unless several are allowed. */
  ghost predicate Permits(s: System, h: int, sql: string) {
    && h in s.reg.connections && s.reg.connections[h] in s.multiAt && h in s.reg.guards
    && (s.reg.guards[h].maxQueryLength == 0 || |sql| <= s.reg.guards[h].maxQueryLength)
    && (s.multiAt[s.reg.connections[h]] || !IsMulti(sql))
  }

  /** The job is the last on its connection's queue and in its history, the main thread is about
      to count it, and nothing else about any worker has changed. */
  ghost predicate Queued(s: System, t: System, job: Job) {
    && job.conn in s.workers && t.workers.Keys == s.workers.Keys
    && t.workers[job.conn].enqueued == s.workers[job.conn].enqueued + [job]
    && t.workers[job.conn].input == s.workers[job.conn].input + [job]
    && (forall d :: d in s.workers && d != job.conn ==> t.workers[d] == s.workers[d])
    && t.pc == AfterPush(job) && t.refused == s.refused && t.nextJob == s.nextJob + 1
  }

  /** Nothing is queued anywhere, and the identity the job would have had is refused. */
  ghost predicate TurnedAway(s: System, t: System) {
    t.workers == s.workers && t.pc == s.pc && t.refused == s.refused + {s.nextJob} && t.nextJob == s.nextJob + 1
  }

  ghost function JobAt(s: System, h: int, kind: Kind, sql: string, sync: bool, now: int): Job
    requires h in s.reg.connections && h in s.reg.guards
  {
    var g := s.reg.guards[h];
    Job(s.nextJob, s.reg.connections[h], sql, kind, sync, Terms(g.maxQueryLength, g.maxQueriesPerWindow, now))
  }

  lemma SubmitDecides(s: System, h: int, kind: Kind, sql: string, sync: bool, now: int)
    requires Reachable(s) && Free(s) && s.clock <= now
    ensures var t := Submit(s, h, kind, sql, sync, now);
            if Takes(s, h, now) && (kind.Exec? || Permits(s, h, sql))
            then Queued(s, t, JobAt(s, h, kind, sql, sync, now)) else TurnedAway(s, t)
  {
    RegistryIsCoherent(s);
    if h in s.reg.connections {
      VerdictFollowsHistory(s, h, kind.Exec?, sql, now);
      SubmitActs(s, h, kind, sql, sync, now);
    }
  }

  lemma SubmitActs(s: System, h: int, kind: Kind, sql: string, sync: bool, now: int)
    requires Coherent(s.reg) && h in s.reg.connections && s.reg.connections[h] in s.workers
    ensures var t := Submit(s, h, kind, sql, sync, now);
            if Admit(s.reg, h, kind.Exec?, sql, PendingOf(s, h), now).0 == Accepted
            then Queued(s, t, JobAt(s, h, kind, sql, sync, now)) else TurnedAway(s, t)
  {
  }

  /** A query on a registered connection joins the end of its queue, as it was given and under
      the guards then in force, exactly when the connection has room, few enough came before,
      and the text is permitted; otherwise it is queued nowhere, now or later. */
  lemma QueryIsQueuedOrRefused(s: System, h: int, sql: string, sync: bool, now: int)
    requires Reachable(s) && Enabled(s, Query(h, sql, sync, now))
    ensures var t := Take(s, Query(h, sql, sync, now));
            if Takes(s, h, now) && Permits(s, h, sql)
            then Queued(s, t, JobAt(s, h, Plain, sql, sync, now)) else TurnedAway(s, t)
  {
    TakeOfQuery(s, h, sql, sync, now);
    SubmitDecides(s, h, Plain, sql, sync, now);
  }

  /** The execution of a prepared statement joins the queue of the connection the statement was
      prepared on, with the statement's own text and whatever that text is, exactly when that
      connection is registered under some handle, has room, and few enough came before;
      otherwise it is queued nowhere. */
  lemma ExecutionIsQueuedOrRefused(s: System, sh: int, now: int)
    requires Reachable(s) && Enabled(s, Execute(sh, now))
    ensures var stmt := s.reg.statements[sh];
            var t := Take(s, Execute(sh, now));
            && (forall h :: h in s.reg.connections && s.reg.connections[h] == stmt.conn && Takes(s, h, now) ==>
                  Queued(s, t, JobAt(s, h, Exec(stmt.id), stmt.sql, false, now)))
            && ((forall h :: h in s.reg.connections && s.reg.connections[h] == stmt.conn ==> !Takes(s, h, now)) ==>
                  TurnedAway(s, t))
  {
    var stmt := s.reg.statements[sh];
    var h := HandleOf(s.reg, stmt.conn);
    RegistryIsCoherent(s);
    forall k | k in s.reg.connections && s.reg.connections[k] == stmt.conn ensures k == h != 0 {
      HandleOfRegistered(s.reg, k);
    }
    TakeOfExecute(s, sh, now);
    if h != 0 {
      SubmitDecides(s, h, Exec(stmt.id), stmt.sql, false, now);
    }
  }

  lemma TakeOfExecute(s: System, sh: int, now: int)
    requires Enabled(s, Execute(sh, now))
    ensures var stmt := s.reg.statements[sh];
            var h := HandleOf(s.reg, stmt.conn);
            Take(s, Execute(sh, now)) == if h == 0 then Refuse(s) else Submit(s, h, Exec(stmt.id), stmt.sql, false, now)
  {
  }

  // --- Connections and statements -----------------------------------------------------------------

  /** A connection starts under the next handle, with an idle worker of its own and the default
      limits: a megabyte of text and nothing else. */
  lemma ConnectionStarts(s: System, c: nat, multi: bool)
    requires Reachable(s) && Enabled(s, Connect(c, multi))
    ensures var t := Take(s, Connect(c, multi));
            var h := s.reg.nextHandle;
            && h !in s.reg.connections && t.reg.connections == s.reg.connections[h := c]
            && t.reg.nextHandle == h + 1 && t.reg.statements == s.reg.statements
            && t.workers == s.workers[c := Worker([], true, 0, AtLoop, [], [])]
            && t.reg.guards == s.reg.guards[h := QueryGuards(1048576, 0, RATE_WINDOW, 0)] && LogOf(t.reg, h) == []
            && t.reg.multi == s.reg.multi[h := multi] && t.multiAt == s.multiAt[c := multi]
            && t.alive == s.alive[c := h]
  {
    RegistryIsCoherent(s);
  }

  /** New limits hold from now on for the connection they were set for, and only for that one. */
  lemma LimitsTakeEffect(s: System, h: int, g: QueryGuards)
    requires Reachable(s) && Enabled(s, SetLimits(h, g))
    ensures var t := Take(s, SetLimits(h, g));
            && t.reg.guards == (if h in s.reg.connections then s.reg.guards[h := g] else s.reg.guards)
            && t == s.(reg := s.reg.(guards := t.reg.guards))
  {
    RegistryIsCoherent(s);
  }

  /** A prepared statement is registered under a handle of its own, with its connection and text. */
  lemma StatementStarts(s: System, h: int, id: nat, sql: string)
    requires Reachable(s) && Enabled(s, Prepare(h, id, sql))
    ensures var t := Take(s, Prepare(h, id, sql));
            var sh := s.reg.nextStatement;
            && sh !in s.reg.statements
            && t.reg.statements == s.reg.statements[sh := PreparedStatement(id, s.reg.connections[h], sql)]
            && t.reg.nextStatement == sh + 1 && t.reg.connections == s.reg.connections
            && t.stmts == s.stmts[id := StmtInfo(s.reg.connections[h], sh, Live)]
            && t.workers == s.workers && t.graves == s.graves
  {
    RegistryIsCoherent(s);
  }

  ghost predicate Registered(s: System, c: nat) {
    exists h :: h in s.reg.connections && s.reg.connections[h] == c
  }

  /** A statement that is closed leaves the registry. While its connection is registered a
      teardown joins the end of that connection's queue and nothing is destroyed yet; otherwise
      the statement is destroyed here. */
  lemma StatementCloses(s: System, sh: int)
    requires Reachable(s) && Enabled(s, CloseStatement(sh))
    ensures var stmt := s.reg.statements[sh];
            var t := Take(s, CloseStatement(sh));
            && t.reg == s.reg.(statements := s.reg.statements - {sh})
            && (Registered(s, stmt.conn) ==>
                  && Queued(s, t, Job(s.nextJob, stmt.conn, "", Close(stmt.id), false, Terms(0, 0, 0)))
                  && t.graves == s.graves && stmt.id in t.stmts && t.stmts[stmt.id].fate == Doomed)
            && (!Registered(s, stmt.conn) ==>
                  && t.workers == s.workers && t.pc == s.pc && t.graves == s.graves + [Grave(stmt.id, None)]
                  && stmt.id in t.stmts && t.stmts[stmt.id].fate == Destroyed)
  {
    var stmt := s.reg.statements[sh];
    RegistryIsCoherent(s);
    RegisteredIsKnown(s, sh);
    TakeOfClose(s, sh);
    if h :| h in s.reg.connections && s.reg.connections[h] == stmt.conn {
      HandleOfRegistered(s.reg, h);
      CloseHands(s, sh, h);
    } else {
      CloseDrops(s, sh);
    }
  }

  lemma RegisteredIsKnown(s: System, sh: int)
    requires Reachable(s) && sh in s.reg.statements
    ensures s.reg.statements[sh].id in s.stmts
  {
    LifetimesHold(s);
  }

  lemma CloseHands(s: System, sh: int, h: int)
    requires sh in s.reg.statements && s.reg.statements[sh].id in s.stmts && Coherent(s.reg)
    requires h != 0 && h == HandleOf(s.reg, s.reg.statements[sh].conn)
    requires h in s.reg.connections && s.reg.connections[h] == s.reg.statements[sh].conn
             && s.reg.connections[h] in s.workers
    ensures var stmt := s.reg.statements[sh];
            var t := CloseStmt(s, sh);
            && t.reg == s.reg.(statements := s.reg.statements - {sh})
            && Queued(s, t, Job(s.nextJob, stmt.conn, "", Close(stmt.id), false, Terms(0, 0, 0)))
            && t.graves == s.graves && stmt.id in t.stmts && t.stmts[stmt.id].fate == Doomed
  {
  }

  lemma CloseDrops(s: System, sh: int)
    requires sh in s.reg.statements && s.reg.statements[sh].id in s.stmts
    requires !Registered(s, s.reg.statements[sh].conn)
    ensures var stmt := s.reg.statements[sh];
            var t := CloseStmt(s, sh);
            && t.reg == s.reg.(statements := s.reg.statements - {sh}) && t.workers == s.workers && t.pc == s.pc
            && t.graves == s.graves + [Grave(stmt.id, None)]
            && stmt.id in t.stmts && t.stmts[stmt.id].fate == Destroyed
  {
  }

  // --- Stopping -----------------------------------------------------------------------------------

  /** Stopping tells one worker and waits for its thread. */
  lemma StopTellsTheWorker(s: System, h: int)
    requires Reachable(s) && Enabled(s, StopWorker(h))
    ensures h in s.reg.connections && s.reg.connections[h] in s.workers
    ensures var t := Take(s, StopWorker(h));
            var c := s.reg.connections[h];
            && t.workers == s.workers[c := s.workers[c].(running := false)]
            && t.pc == Joining(h) && t.reg == s.reg
  {
    RegistryIsCoherent(s);
    TakeOfStop(s, h);
  }

  /** When the thread is gone the connection is forgotten with everything kept for it, and
      nothing else is; during a reset that is left to its end. */
  lemma JoinForgets(s: System)
    requires Reachable(s) && Enabled(s, Join)
    ensures var t := Take(s, Join);
            var h := s.pc.handle;
            && h in s.reg.connections && t.pc == Idle
            && (s.mode == Serving ==>
                  && t.reg.connections == s.reg.connections - {h} && t.reg.workers == s.reg.connections - {h}
                  && t.reg.guards == s.reg.guards - {h} && t.reg.multi == s.reg.multi - {h}
                  && t.reg.rateLog == s.reg.rateLog - {h} && t.reg.statements == s.reg.statements
                  && t.alive == s.alive - {s.reg.connections[h]})
            && (s.mode != Serving ==> t.reg == s.reg && t.alive == s.alive)
  {
    RegistryIsCoherent(s);
    TakeOfJoin(s);
    JoinDrops(s);
  }

  lemma JoinDrops(s: System)
    requires Coherent(s.reg) && Enabled(s, Join)
    ensures var t := JoinWorker(s);
            var h := s.pc.handle;
            && h in s.reg.connections && t.pc == Idle
            && (s.mode == Serving ==>
                  && t.reg.connections == s.reg.connections - {h} && t.reg.workers == s.reg.connections - {h}
                  && t.reg.guards == s.reg.guards - {h} && t.reg.multi == s.reg.multi - {h}
                  && t.reg.rateLog == s.reg.rateLog - {h} && t.reg.statements == s.reg.statements
                  && t.alive == s.alive - {s.reg.connections[h]})
            && (s.mode != Serving ==> t.reg == s.reg && t.alive == s.alive)
  {
  }

  /** A reset first forgets every result, active and retained, and their handles begin anew;
      until its end nothing else is served. At its end every registry is empty and every
      handle begins anew. */
  lemma ResetStartsAnew(s: System, step: Step)
    requires Reachable(s) && Enabled(s, step) && (step.ResetBegin? || step.StatementsCleared? || step.ResetEnd?)
    ensures var t := Take(s, step);
            && (step.ResetBegin? ==> t == s.(cache := Cache(None, 0, map[], 1), mode := ClearingStatements))
            && (step.StatementsCleared? ==>
                  t == s.(mode := ClearingConnections, reg := s.reg.(nextStatement := 1)))
            && (step.ResetEnd? ==>
                  && t.reg == Registry(map[], map[], map[], map[], map[], map[], 1, 1)
                  && t == s.(reg := t.reg, alive := map[], mode := Serving))
  {
    StructureHolds(s);
  }

  // --- What becomes of finished jobs --------------------------------------------------------------

  /** A job that has run is somewhere on its way: a synchronous one has been returned, is in its
      promise, or is about to be put there; any other is dispatched, drained, in the sink, or
      about to be put there. */
  lemma NothingFinishedIsLost(s: System, c: nat, i: nat)
    requires Reachable(s) && c in s.workers && i < |s.workers[c].executed|
    ensures var job := s.workers[c].executed[i];
            job.kind.Close? || s.workers[c].phase == Ran(job)
            || if job.sync then job in s.returned || s.promise == Some(job) else job in s.dispatched + s.done + s.sink
  {
    var w := s.workers[c];
    var job := w.executed[i];
    PlacesHold(s, c);
    OnlyAsync(w.executed);
    OnlySync(w.executed);
    assert job in w.executed;
    if job.sync {
      OfIsPart(c, s.returned);
    } else {
      OfIsPart(c, s.dispatched);
      OfIsPart(c, s.done);
      OfIsPart(c, s.sink);
    }
  }

  lemma {:induction false} OfIsPart(c: nat, jobs: seq<Job>)
    ensures forall job :: job in Of(c, jobs) ==> job in jobs
    decreases jobs
  {
    if jobs == [] {
    } else {
      OfIsPart(c, jobs[1..]);
    }
  }

  /** As long as anything waits on a worker, is in its hands or is to be delivered, its thread
      can take its next step, whatever the main thread does and whatever the server answers;
      `ThreadStepDescends` says that this comes to an end. */
  lemma UnfinishedWorkCanMove(s: System, c: nat)
    requires Reachable(s) && c in s.workers
    requires s.workers[c].input != [] || s.workers[c].phase != AtLoop
    ensures s.workers[c].phase != Exited ==>
            Enabled(s, NextStep(c, s.workers[c])) && IsThreadStep(NextStep(c, s.workers[c]))
    ensures s.workers[c].phase == Exited ==> s.workers[c].executed == s.workers[c].enqueued
    ensures s.workers[c].phase.Holding? ==>
              forall reply: Reply ::
                reply.Failed? || (if s.workers[c].phase.job.kind.Exec? then reply.Rows? else reply.Answers?) ==>
                  Enabled(s, WorkerRun(c, reply))
  {
    HistoryHolds(s, c);
    if s.workers[c].phase == Exited {
      GoneIsDrained(s.pc, c, s.workers[c]);
    }
  }

  /** The steps of a tick for the jobs drained: a callback for each that has a result, none for
      one that failed. */
  ghost function Firing(jobs: seq<Job>, results: map<nat, QueryResult>): seq<Step>
    decreases |jobs|
  {
    if jobs == [] then []
    else
      var last := jobs[|jobs| - 1];
      Firing(jobs[..|jobs| - 1], results)
        + if last.id in results then [Dispatch(true), EndCallback] else [Dispatch(false)]
  }

  ghost predicate Answered(jobs: seq<Job>, results: map<nat, QueryResult>) {
    exists i :: 0 <= i < |jobs| && jobs[i].id in results
  }

  /** The state with the first `k` drained jobs dispatched. */
  ghost predicate Fired(s: System, t: System, k: nat)
    requires k <= |s.done|
  {
    && t == s.(done := s.done[k..], dispatched := s.dispatched + s.done[..k], cache := t.cache)
    && t.cache.saved == s.cache.saved && t.cache.next == s.cache.next
    && if Answered(s.done[..k], s.results) then t.cache.active == None else t.cache == s.cache
  }

  lemma OneMoreAnswered(s: System, k: nat)
    requires k < |s.done|
    ensures Answered(s.done[..k + 1], s.results) <==> Answered(s.done[..k], s.results) || s.done[k].id in s.results
    ensures s.done[k..] != [] && s.done[k..][0] == s.done[k] && s.done[k..][1..] == s.done[k + 1..]
    ensures (s.dispatched + s.done[..k]) + [s.done[k]] == s.dispatched + s.done[..k + 1]
  {
    assert s.done[..k + 1] == s.done[..k] + [s.done[k]];
  }

  lemma FireSilent(s: System, t: System, k: nat)
    requires Free(s) && !s.inCallback && k < |s.done| && Fired(s, t, k) && s.done[k].id !in s.results
    ensures Enabled(t, Dispatch(false)) && Fired(s, Take(t, Dispatch(false)), k + 1)
  {
    OneMoreAnswered(s, k);
  }

  lemma FireCallback(s: System, t: System, k: nat)
    requires Free(s) && !s.inCallback && k < |s.done| && Fired(s, t, k) && s.done[k].id in s.results
    ensures Enabled(t, Dispatch(true)) && Enabled(Take(t, Dispatch(true)), EndCallback)
    ensures Fired(s, Take(Take(t, Dispatch(true)), EndCallback), k + 1)
  {
    OneMoreAnswered(s, k);
    CallbackSeesItsResult(t, true);
    CallbackEnds(Take(t, Dispatch(true)));
  }

  lemma AfterOne(s: System, step: Step)
    requires Enabled(s, step)
    ensures After(s, [step]) == Some(Take(s, step))
  {
    assert [step][..0] == [];
  }

  lemma AfterTwo(s: System, step: Step, next: Step)
    requires Enabled(s, step) && Enabled(Take(s, step), next)
    ensures After(s, [step, next]) == Some(Take(Take(s, step), next))
  {
    AfterOne(s, step);
    assert [step, next][..1] == [step];
  }

  lemma FireOne(s: System, t: System, k: nat)
    requires Free(s) && !s.inCallback && k < |s.done| && Fired(s, t, k)
    ensures var steps := Firing([s.done[k]], s.results);
            After(t, steps).Some? && Fired(s, After(t, steps).value, k + 1)
  {
    assert [s.done[k]][..0] == [];
    if s.done[k].id in s.results {
      FireCallback(s, t, k);
      AfterTwo(t, Dispatch(true), EndCallback);
    } else {
      FireSilent(s, t, k);
      AfterOne(t, Dispatch(false));
    }
  }

  lemma FiringOneMore(jobs: seq<Job>, k: nat, results: map<nat, QueryResult>)
    requires k < |jobs|
    ensures Firing(jobs[..k + 1], results) == Firing(jobs[..k], results) + Firing([jobs[k]], results)
  {
    assert jobs[..k + 1][..k] == jobs[..k] && [jobs[k]][..0] == [];
  }

  lemma {:induction false} FireFirst(s: System, k: nat)
    requires Free(s) && !s.inCallback && k <= |s.done|
    ensures var steps := Firing(s.done[..k], s.results);
            After(s, steps).Some? && Fired(s, After(s, steps).value, k)
    decreases k
  {
    if k == 0 {
      assert s.done[..0] == [] && s.done[0..] == s.done && s.dispatched + [] == s.dispatched;
    } else {
      var most := Firing(s.done[..k - 1], s.results);
      var one := Firing([s.done[k - 1]], s.results);
      FireFirst(s, k - 1);
      FireOne(s, After(s, most).value, k - 1);
      AfterConcat(s, most, one);
      FiringOneMore(s.done, k - 1, s.results);
    }
  }

  /** One tick takes everything out of the sink and dispatches it in order; callbacks change
      nothing that has been retained and leave nothing active, and jobs meanwhile finished are
      left for the next tick. */
  lemma TickEmptiesSink(s: System)
    requires Free(s) && s.done == [] && !s.inCallback
    ensures Enabled(s, Drain)
    ensures var steps := Firing(s.sink, s.results);
            After(Take(s, Drain), steps).Some?
            && var t := After(Take(s, Drain), steps).value;
               && t == s.(sink := [], dispatched := s.dispatched + s.sink, cache := t.cache)
               && t.cache.saved == s.cache.saved && t.cache.next == s.cache.next
               && (Answered(s.sink, s.results) ==> t.cache.active == None)
  {
    var d := Take(s, Drain);
    assert d == s.(done := s.sink, sink := []);
    assert d.done[..|d.done|] == d.done && d.done[|d.done|..] == [];
    FireFirst(d, |d.done|);
  }

  // --- What scripts see -----------------------------------------------------------------------------

  /** While a callback runs, the first set of its own job's result is active; afterwards nothing
      is. Retained results stay. */
  lemma CallbackSeesItsResult(s: System, fires: bool)
    requires Enabled(s, Dispatch(fires))
    ensures var t := Take(s, Dispatch(fires));
            && t.done == s.done[1..] && t.dispatched == s.dispatched + [s.done[0]]
            && (fires ==> t.inCallback && t.cache == s.cache.(active := Some(s.results[s.done[0].id]), index := 0))
            && (!fires ==> !t.inCallback && t.cache == s.cache)
  {
  }

  lemma CallbackEnds(s: System)
    requires Enabled(s, EndCallback)
    ensures Take(s, EndCallback) == s.(cache := s.cache.(active := None, index := 0), inCallback := false)
  {
  }

  /** A synchronous call shows the first set of its job's result, if it has one, and retains it
      under the next handle exactly when it was asked to; a call whose job failed changes
      neither what is active nor what is retained. */
  lemma ReturnHandsOver(s: System, keep: bool)
    requires Enabled(s, SyncReturn(keep))
    ensures var t := Take(s, SyncReturn(keep));
            var job := s.promise.value;
            && t.pc == Idle && t.promise == None && t.returned == s.returned + [job]
            && (job.id !in s.results ==> t.cache == s.cache)
            && (job.id in s.results ==>
                  var q := s.results[job.id];
                  && t.cache.active == Some(q) && t.cache.index == 0
                  && t.cache.saved == (if keep then s.cache.saved[s.cache.next := q] else s.cache.saved)
                  && t.cache.next == (if keep then s.cache.next + 1 else s.cache.next))
  {
    TakeOfReturn(s, keep);
    ReturnedCache(s, keep);
    ReturnTo(s, keep);
  }

  lemma ReturnedCache(s: System, keep: bool)
    requires s.promise.Some?
    ensures var t := ReturnSync(s, keep);
            var job := s.promise.value;
            && t.pc == Idle
            && (job.id !in s.results ==> t.cache == s.cache)
            && (job.id in s.results ==>
                  var q := s.results[job.id];
                  && t.cache.active == Some(q) && t.cache.index == 0
                  && t.cache.saved == (if keep then s.cache.saved[s.cache.next := q] else s.cache.saved)
                  && t.cache.next == (if keep then s.cache.next + 1 else s.cache.next))
  {
  }

  /** What the cache's natives make of what is active and retained. */
  lemma ScriptActs(s: System, op: CacheOp)
    requires Enabled(s, Script(op))
    ensures var c := s.cache;
            var t := Take(s, Script(op));
            && t == s.(cache := t.cache)
            && (op.ClearActive? ==> t.cache == c.(active := None, index := 0))
            && (op.SelectSet? ==>
                  t.cache == if c.active.Some? && 0 <= op.i < |c.active.value.sets| then c.(index := op.i) else c)
            && (op.Retain? ==>
                  t.cache == if c.active.None? then c
                    else c.(saved := c.saved[c.next := c.active.value], next := c.next + 1))
            && (op.Activate? ==>
                  t.cache == if op.id in c.saved then c.(active := Some(c.saved[op.id]), index := 0) else c)
            && (op.Release? ==> t.cache == c.(saved := c.saved - {op.id}))
  {
  }

  /** A job that has been pushed is counted on its own worker; then the main thread waits for it
      if it is synchronous, and goes on otherwise. */
  lemma PushIsCounted(s: System)
    requires Enabled(s, CountPushed)
    ensures var t := Take(s, CountPushed);
            var job := s.pc.job;
            && t.workers == s.workers[job.conn := s.workers[job.conn].(pending := s.workers[job.conn].pending + 1)]
            && t.pc == if job.sync then SyncWait(job) else Idle
  {
    TakeOfCount(s);
  }

  // --- What can be done when ------------------------------------------------------------------------

  /** Between two operations every native can be called: queries for any handle and of any text,
      executions and closes of every registered statement, preparing on every registered
      connection, closing every registered connection, and a reset; likewise the cache's natives
      and the next part of a tick. */
  lemma ServingOffersEverything(s: System)
    requires Reachable(s) && Free(s)
    ensures forall h, sql, sync, now :: s.clock <= now ==> Enabled(s, Query(h, sql, sync, now))
    ensures forall sh, now :: sh in s.reg.statements && s.clock <= now ==> Enabled(s, Execute(sh, now))
    ensures forall sh :: sh in s.reg.statements ==> Enabled(s, CloseStatement(sh))
    ensures forall h, t, sql :: h in s.reg.connections && t !in s.stmts && sql != "" ==> Enabled(s, Prepare(h, t, sql))
    ensures forall c, multi :: c !in s.workers ==> Enabled(s, Connect(c, multi))
    ensures forall h :: h in s.reg.connections ==> Enabled(s, StopWorker(h))
    ensures Enabled(s, ResetBegin)
  {
    RegistryIsCoherent(s);
  }

  lemma ServingOffersResults(s: System)
    requires Free(s)
    ensures forall op: CacheOp :: op.ClearActive? || op.SelectSet? || op.Retain? || op.Activate? || op.Release? ==>
              Enabled(s, Script(op))
    ensures s.inCallback ==> Enabled(s, EndCallback)
    ensures !s.inCallback ==> if s.done == [] then Enabled(s, Drain) else Enabled(s, Dispatch(false))
  {
  }

  /** The main thread is never stuck in the middle of anything: what it pushed it can count, and
      what it waits for is there or the thread it waits for can move. */
  lemma NothingIsStuck(s: System)
    requires Reachable(s)
    ensures s.pc.AfterPush? ==> Enabled(s, CountPushed)
    ensures s.pc.SyncWait? ==>
              var c := s.pc.job.conn;
              c in s.workers
                && if s.promise.Some? then forall keep :: Enabled(s, SyncReturn(keep))
                   else Enabled(s, NextStep(c, s.workers[c])) && IsThreadStep(NextStep(c, s.workers[c]))
    ensures s.pc.Joining? ==>
              s.pc.handle in s.reg.workers && s.reg.workers[s.pc.handle] in s.workers
                && var c := s.reg.workers[s.pc.handle];
                   if s.workers[c].phase == Exited then Enabled(s, Join)
                   else Enabled(s, NextStep(c, s.workers[c])) && IsThreadStep(NextStep(c, s.workers[c]))
  {
    if s.pc.AfterPush? {
      PushedIsKnown(s);
    } else if s.pc.SyncWait? {
      WaitHolds(s);
      if s.promise.None? {
        BlockedWorkerCanMove(s, s.pc.job.conn);
      }
    } else if s.pc.Joining? {
      JoinedIsStopped(s);
      if s.workers[s.reg.workers[s.pc.handle]].phase != Exited {
        BlockedWorkerCanMove(s, s.reg.workers[s.pc.handle]);
      }
    }
  }

  lemma PushedIsKnown(s: System)
    requires Reachable(s) && s.pc.AfterPush?
    ensures s.pc.job.conn in s.workers
  {
    StructureHolds(s);
  }

  /** A reset that is not waiting finds a statement to close, a worker to stop, or its end. */
  lemma ResetFindsItsNextStep(s: System)
    requires Reachable(s) && s.pc == Idle
    ensures s.mode == ClearingStatements ==>
              if s.reg.statements == map[] then Enabled(s, StatementsCleared)
              else forall sh :: sh in s.reg.statements ==> Enabled(s, CloseStatement(sh))
    ensures s.mode == ClearingConnections ==>
              || Enabled(s, ResetEnd)
              || exists h :: h in s.reg.connections && Enabled(s, StopWorker(h))
  {
    RegistryIsCoherent(s);
    if s.mode == ClearingConnections && !Enabled(s, ResetEnd) {
      var h :| h in s.reg.workers && s.reg.workers[h] in s.workers && s.workers[s.reg.workers[h]].running;
      assert Enabled(s, StopWorker(h));
    }
  }
}
