/** What every step keeps about which jobs a worker may ever see, and about the results they
    produce: the guards' verdict is final, job identities are never shared, grids stay grids. */
module Policy {
  import opened SqlScan
  import opened Guards
  import opened Registries
  import opened Results
  import opened Workers
  import opened Protocol
  import opened Structure

  /** What the guards promise of a plain query on a connection with policy `multi`. */
  ghost predicate JobOk(multi: bool, job: Job) {
    job.kind == Plain ==> (multi || !IsMulti(job.sql)) && (job.terms.lengthCap == 0 || |job.sql| <= job.terms.lengthCap)
  }

  ghost predicate JobsOk(s: System) {
    && s.multiAt.Keys == s.workers.Keys
    && forall c, i :: c in s.workers && 0 <= i < |s.workers[c].enqueued| ==>
       JobOk(s.multiAt[c], s.workers[c].enqueued[i])
  }

  /** Every job got an identity of its own, and what was refused was never queued. */
  ghost predicate IdsOk(s: System) {
    && (forall c, i :: c in s.workers && 0 <= i < |s.workers[c].enqueued| ==>
          s.workers[c].enqueued[i].id < s.nextJob && s.workers[c].enqueued[i].id !in s.refused)
    && (forall c, i, d, j :: (c in s.workers && 0 <= i < |s.workers[c].enqueued|)
                             && (d in s.workers && 0 <= j < |s.workers[d].enqueued|) ==>
          s.workers[c].enqueued[i].id == s.workers[d].enqueued[j].id ==> c == d && i == j)
    && (forall id :: id in s.refused ==> id < s.nextJob)
  }

  /** The registry still knows the policy each connection was registered with. */
  ghost predicate MultiOk(s: System) {
    forall h :: h in s.reg.connections ==>
      h in s.reg.multi && s.reg.connections[h] in s.multiAt && s.reg.multi[h] == s.multiAt[s.reg.connections[h]]
  }

  ghost predicate PolicyOk(s: System) {
    JobsOk(s) && IdsOk(s) && MultiOk(s)
  }

  ghost predicate GridsOk(s: System) {
    CacheOk(s.cache) && forall id :: id in s.results ==> Grid(s.results[id])
  }

  // --- Steps that queue nothing --------------------------------------------------------------

  ghost predicate SameQueued(s: System, t: System) {
    && t.workers.Keys == s.workers.Keys
    && (forall c :: c in s.workers ==> t.workers[c].enqueued == s.workers[c].enqueued)
    && t.multiAt == s.multiAt && t.refused == s.refused && t.nextJob == s.nextJob
    && FewerConnections(s.reg, t.reg)
  }

  ghost predicate FewerConnections(r: Registry, r': Registry) {
    forall h :: h in r'.connections ==>
      h in r.connections && r'.connections[h] == r.connections[h]
        && (h in r.multi ==> h in r'.multi && r'.multi[h] == r.multi[h])
  }

  lemma SameQueuedKeeps(s: System, t: System)
    requires PolicyOk(s) && SameQueued(s, t)
    ensures PolicyOk(t)
  {
    forall c, i | c in t.workers && 0 <= i < |t.workers[c].enqueued|
      ensures JobOk(t.multiAt[c], t.workers[c].enqueued[i])
    {
      assert JobOk(s.multiAt[c], s.workers[c].enqueued[i]);
    }
  }

  predicate OnWorker(step: Step) {
    step.CountPushed? || step.StopWorker? || step.Join? || step.WorkerPop? || step.WorkerExit? || step.WorkerRun?
    || step.WorkerDeliver? || step.WorkerFinish?
  }

  lemma WorkerQueuesNothing(s: System, c: nat, v: Worker, t: System)
    requires c in s.workers && v.enqueued == s.workers[c].enqueued && t.workers == s.workers[c := v]
    requires t.multiAt == s.multiAt && t.refused == s.refused && t.nextJob == s.nextJob
    requires FewerConnections(s.reg, t.reg)
    ensures SameQueued(s, t)
  {
  }

  lemma WorkerStepFrame(s: System, step: Step)
    requires Enabled(s, step) && OnWorker(step)
    ensures SameQueued(s, Take(s, step))
  {
    var t := Take(s, step);
    match step
    case CountPushed => WorkerQueuesNothing(s, s.pc.job.conn, Bump(s.workers[s.pc.job.conn]), t);
    case StopWorker(h) => WorkerQueuesNothing(s, s.reg.workers[h], ClearRunning(s.workers[s.reg.workers[h]]), t);
    case Join => JoinFrame(s);
    case WorkerPop(c) => WorkerQueuesNothing(s, c, Pop(s.workers[c]), t);
    case WorkerExit(c) => WorkerQueuesNothing(s, c, Exit(s.workers[c]), t);
    case WorkerRun(c, reply) => RunQueuesNothing(s, c, reply);
    case WorkerDeliver(c) => DeliverQueuesNothing(s, c);
    case WorkerFinish(c) => WorkerQueuesNothing(s, c, Finish(s.workers[c]), t);
  }

  lemma JoinFrame(s: System)
    requires Enabled(s, Join)
    ensures SameQueued(s, JoinWorker(s))
  {
    var c := s.reg.workers[s.pc.handle];
    WorkerQueuesNothing(s, c, Reap(s.workers[c]), JoinWorker(s));
  }

  lemma RunQueuesNothing(s: System, c: nat, reply: Reply)
    requires c in s.workers && s.workers[c].phase.Holding?
    ensures SameQueued(s, RunOn(s, c, reply))
  {
    WorkerQueuesNothing(s, c, RunJob(s.workers[c]), RunOn(s, c, reply));
  }

  lemma DeliverQueuesNothing(s: System, c: nat)
    requires c in s.workers && s.workers[c].phase.Ran?
    ensures SameQueued(s, DeliverOn(s, c))
  {
    WorkerQueuesNothing(s, c, Deliver(s.workers[c]), DeliverOn(s, c));
  }

  lemma QuietFrame(s: System, step: Step)
    requires Enabled(s, step) && !OnWorker(step) && !Queueing(step)
    ensures SameQueued(s, Take(s, step))
  {
    if step.SyncReturn? {
      ReturnQueuesNothing(s, step.keep);
    }
  }

  lemma ReturnQueuesNothing(s: System, keep: bool)
    requires s.promise.Some?
    ensures SameQueued(s, ReturnSync(s, keep))
  {
  }

  // --- Steps that do -------------------------------------------------------------------------

  lemma RefuseKeeps(s: System)
    requires PolicyOk(s)
    ensures PolicyOk(Refuse(s))
  {
    var t := Refuse(s);
    forall c, i | c in t.workers && 0 <= i < |t.workers[c].enqueued|
      ensures JobOk(t.multiAt[c], t.workers[c].enqueued[i])
    {
      assert JobOk(s.multiAt[c], s.workers[c].enqueued[i]);
    }
  }

  /** A job with the next identity, fit for its connection, joins the history of its worker. */
  lemma PushKeepsPolicy(s: System, job: Job)
    requires PolicyOk(s) && job.conn in s.workers && job.id == s.nextJob && JobOk(s.multiAt[job.conn], job)
    ensures PolicyOk(PushJob(s, job))
  {
    PushKeepsJobs(s, job);
    PushKeepsIds(s, job);
  }

  lemma PushKeepsJobs(s: System, job: Job)
    requires JobsOk(s) && job.conn in s.workers && JobOk(s.multiAt[job.conn], job)
    ensures JobsOk(PushJob(s, job))
  {
    var t := PushJob(s, job);
    forall c, i | c in t.workers && 0 <= i < |t.workers[c].enqueued|
      ensures JobOk(t.multiAt[c], t.workers[c].enqueued[i])
    {
      if i < |s.workers[c].enqueued| {
        assert JobOk(s.multiAt[c], s.workers[c].enqueued[i]);
      }
    }
  }

  lemma PushKeepsIds(s: System, job: Job)
    requires IdsOk(s) && job.conn in s.workers && job.id == s.nextJob
    ensures IdsOk(PushJob(s, job))
  {
    var t := PushJob(s, job);
    assert forall c :: c in s.workers && c != job.conn ==> t.workers[c] == s.workers[c];
    assert t.workers[job.conn].enqueued == s.workers[job.conn].enqueued + [job];
  }

  /** What the guards accept is fit for the connection. */
  lemma AcceptedIsFit(s: System, h: int, prepared: bool, sql: string, pending: int, now: int)
    requires MultiOk(s) && h in s.reg.connections
    requires Admit(s.reg, h, prepared, sql, pending, now).0 == Accepted && !prepared
    ensures s.multiAt[s.reg.connections[h]] || !IsMulti(sql)
    ensures GuardsOf(s.reg, h).maxQueryLength == 0 || |sql| <= GuardsOf(s.reg, h).maxQueryLength
  {
  }

  lemma SubmitKeepsPolicy(s: System, h: int, kind: Kind, sql: string, sync: bool, now: int)
    requires Coherent(s.reg) && PolicyOk(s) && !kind.Close?
    ensures PolicyOk(Submit(s, h, kind, sql, sync, now))
  {
    var (reason, reg) := Admit(s.reg, h, kind.Exec?, sql, PendingOf(s, h), now);
    AdmitKeeps(s.reg, h, kind.Exec?, sql, PendingOf(s, h), now);
    var t := s.(reg := reg, clock := now);
    SameQueuedKeeps(s, t);
    if reason == Accepted && h in s.reg.workers && s.reg.workers[h] in s.workers {
      if kind == Plain {
        AcceptedIsFit(s, h, false, sql, PendingOf(s, h), now);
      }
      PushKeepsPolicy(t, Job(s.nextJob, s.reg.workers[h], sql, kind, sync, TermsOf(GuardsOf(s.reg, h), now)));
    } else {
      RefuseKeeps(t);
    }
  }

  lemma RetireQueuesNothing(s: System, sh: int)
    requires sh in s.reg.statements
    ensures SameQueued(s, DropNow(s, sh))
    ensures s.reg.statements[sh].id in s.stmts ==> SameQueued(s, Doom(s, sh))
  {
  }

  lemma CloseKeepsPolicy(s: System, sh: int)
    requires PolicyOk(s) && Enabled(s, CloseStatement(sh))
    ensures PolicyOk(CloseStmt(s, sh))
  {
    RetireQueuesNothing(s, sh);
    var stmt := s.reg.statements[sh];
    var h := HandleOf(s.reg, stmt.conn);
    if h != 0 && h in s.reg.workers && s.reg.workers[h] in s.workers && stmt.id in s.stmts {
      SameQueuedKeeps(s, Doom(s, sh));
      PushKeepsPolicy(Doom(s, sh), Teardown(s.nextJob, s.reg.workers[h], stmt.id));
    } else {
      SameQueuedKeeps(s, DropNow(s, sh));
    }
  }

  lemma ConnectKeepsPolicy(s: System, c: nat, multi: bool)
    requires PolicyOk(s) && Enabled(s, Connect(c, multi))
    ensures PolicyOk(Take(s, Connect(c, multi)))
  {
    ConnectMulti(s, c, multi);
    ConnectedPolicy(s, Take(s, Connect(c, multi)), c, multi);
  }

  lemma ConnectMulti(s: System, c: nat, multi: bool)
    requires MultiOk(s) && s.multiAt.Keys == s.workers.Keys && Enabled(s, Connect(c, multi))
    ensures var t := Take(s, Connect(c, multi));
            && MultiOk(t) && t.workers == s.workers[c := FRESH_WORKER] && t.multiAt == s.multiAt[c := multi]
            && t.refused == s.refused && t.nextJob == s.nextJob
  {
  }

  lemma ConnectedPolicy(s: System, t: System, c: nat, multi: bool)
    requires PolicyOk(s) && c !in s.workers && MultiOk(t) && t.refused == s.refused && t.nextJob == s.nextJob
    requires t.workers == s.workers[c := FRESH_WORKER] && t.multiAt == s.multiAt[c := multi]
    ensures PolicyOk(t)
  {
    assert forall d :: d in s.workers ==> t.workers[d] == s.workers[d];
    forall d, i | d in t.workers && 0 <= i < |t.workers[d].enqueued|
      ensures JobOk(t.multiAt[d], t.workers[d].enqueued[i])
    {
      assert JobOk(s.multiAt[d], s.workers[d].enqueued[i]);
    }
  }

  lemma QueueingKeepsPolicy(s: System, step: Step)
    requires Coherent(s.reg) && PolicyOk(s) && Enabled(s, step) && Queueing(step)
    ensures PolicyOk(Take(s, step))
  {
    match step
    case Connect(c, multi) => ConnectKeepsPolicy(s, c, multi);
    case Query(h, sql, sync, now) =>
      TakeOfQuery(s, h, sql, sync, now);
      SubmitKeepsPolicy(s, h, Plain, sql, sync, now);
    case Execute(sh, now) =>
      var stmt := s.reg.statements[sh];
      if HandleOf(s.reg, stmt.conn) == 0 {
        RefuseKeeps(s);
      } else {
        SubmitKeepsPolicy(s, HandleOf(s.reg, stmt.conn), Exec(stmt.id), stmt.sql, false, now);
      }
    case CloseStatement(sh) =>
      TakeOfClose(s, sh);
      CloseKeepsPolicy(s, sh);
  }

  lemma QueuesNothing(s: System, step: Step)
    requires Enabled(s, step) && !Queueing(step)
    ensures SameQueued(s, Take(s, step))
  {
    if OnWorker(step) {
      WorkerStepFrame(s, step);
    } else {
      QuietFrame(s, step);
    }
  }

  /** Every step keeps the guards' promises. */
  lemma PolicyStep(s: System, step: Step)
    requires Coherent(s.reg) && PolicyOk(s) && Enabled(s, step)
    ensures PolicyOk(Take(s, step))
  {
    if Queueing(step) {
      QueueingKeepsPolicy(s, step);
    } else {
      QueuesNothing(s, step);
      SameQueuedKeeps(s, Take(s, step));
    }
  }

  // --- Results -------------------------------------------------------------------------------

  predicate SameResults(s: System, t: System) {
    t.results == s.results && t.cache == s.cache
  }

  lemma ReturnKeepsGrids(s: System, keep: bool)
    requires GridsOk(s) && s.promise.Some?
    ensures GridsOk(ReturnSync(s, keep))
  {
    var job := s.promise.value;
    if job.id in s.results {
      ApplyKeepsOk(s.cache, SetActive(s.results[job.id]));
      ApplyKeepsOk(Apply(s.cache, SetActive(s.results[job.id])), Retain);
    }
  }

  lemma CacheStepKeepsGrids(s: System, step: Step)
    requires GridsOk(s) && Enabled(s, step)
    requires step.Dispatch? || step.EndCallback? || step.Script? || step.ResetBegin?
    ensures GridsOk(Take(s, step))
  {
    match step
    case Dispatch(fires) => if fires { ApplyKeepsOk(s.cache, SetActive(s.results[s.done[0].id])); }
    case EndCallback => ApplyKeepsOk(s.cache, ClearActive);
    case Script(op) => ApplyKeepsOk(s.cache, op);
    case ResetBegin => ApplyKeepsOk(s.cache, Reset);
  }

  lemma SubmitFrame(s: System, h: int, kind: Kind, sql: string, sync: bool, now: int)
    ensures SameResults(s, Submit(s, h, kind, sql, sync, now))
  {
    var (reason, reg) := Admit(s.reg, h, kind.Exec?, sql, PendingOf(s, h), now);
    assert SameResults(s, s.(reg := reg, clock := now));
  }

  lemma CloseFrame(s: System, sh: int)
    requires sh in s.reg.statements
    ensures SameResults(s, CloseStmt(s, sh))
  {
  }

  lemma ThreadFrame(s: System, step: Step)
    requires (step.WorkerPop? || step.WorkerExit? || step.WorkerFinish?) && ThreadCan(s, step)
    ensures SameResults(s, ThreadTake(s, step))
  {
  }

  lemma DeliverChangesNoResult(s: System, c: nat)
    requires c in s.workers && s.workers[c].phase.Ran?
    ensures SameResults(s, DeliverOn(s, c))
  {
  }

  lemma RegistryFrame(s: System, step: Step)
    requires Enabled(s, step)
    requires step.Connect? || step.CountPushed? || step.StopWorker? || step.Join? || step.SetLimits? || step.Prepare?
             || step.Drain? || step.StatementsCleared? || step.ResetEnd?
    ensures SameResults(s, Take(s, step))
  {
  }

  predicate ChangesResults(step: Step) {
    step.SyncReturn? || step.WorkerRun? || step.Dispatch? || step.EndCallback? || step.Script? || step.ResetBegin?
  }

  lemma OtherKeepsResults(s: System, step: Step)
    requires Enabled(s, step) && !ChangesResults(step)
    ensures SameResults(s, Take(s, step))
  {
    match step
    case Query(h, sql, sync, now) => SubmitFrame(s, h, Plain, sql, sync, now);
    case Execute(sh, now) =>
      var stmt := s.reg.statements[sh];
      SubmitFrame(s, HandleOf(s.reg, stmt.conn), Exec(stmt.id), stmt.sql, false, now);
    case CloseStatement(sh) => CloseFrame(s, sh);
    case WorkerPop(_) => ThreadFrame(s, step);
    case WorkerExit(_) => ThreadFrame(s, step);
    case WorkerDeliver(c) => DeliverChangesNoResult(s, c);
    case WorkerFinish(_) => ThreadFrame(s, step);
    case _ => RegistryFrame(s, step);
  }

  /** Every result a worker ever made, and everything the cache ever shows, is a grid. */
  lemma GridsStep(s: System, step: Step)
    requires GridsOk(s) && Enabled(s, step)
    ensures GridsOk(Take(s, step))
  {
    if !ChangesResults(step) {
      OtherKeepsResults(s, step);
    } else if step.SyncReturn? {
      ReturnKeepsGrids(s, step.keep);
    } else if step.WorkerRun? {
      TakeOfThread(s, step);
      RunKeepsGrids(s, step.c, step.reply);
    } else {
      CacheStepKeepsGrids(s, step);
    }
  }

  lemma RunKeepsGrids(s: System, c: nat, reply: Reply)
    requires GridsOk(s) && c in s.workers && s.workers[c].phase.Holding?
    ensures GridsOk(RunOn(s, c, reply))
  {
    ReplyIsGrid(reply, s.workers[c].phase.job.sql);
  }
}
