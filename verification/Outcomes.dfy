/** What every step keeps about the results of jobs: each belongs to a job that has run, and once
    a job has run nothing changes what came of it. */
module Outcomes {
  import opened Guards
  import opened Registries
  import opened Results
  import opened Workers
  import opened Protocol
  import opened Structure
  import opened Policy

  ghost predicate HasRun(workers: map<nat, Worker>, id: nat) {
    exists c, i :: c in workers && 0 <= i < |workers[c].executed| && workers[c].executed[i].id == id
  }

  ghost predicate ResultsOk(s: System) {
    forall id :: id in s.results ==> HasRun(s.workers, id)
  }

  /** The results of the jobs `ids` are the same. */
  ghost predicate SameOutcome(s: System, t: System, id: nat) {
    && (id in t.results <==> id in s.results)
    && (id in s.results ==> t.results[id] == s.results[id])
  }

  // --- Histories only grow --------------------------------------------------------------------

  ghost predicate Longer(workers: map<nat, Worker>, workers': map<nat, Worker>) {
    forall c :: c in workers ==> c in workers' && workers[c].executed <= workers'[c].executed
  }

  lemma RunStays(workers: map<nat, Worker>, workers': map<nat, Worker>, id: nat)
    requires HasRun(workers, id) && Longer(workers, workers')
    ensures HasRun(workers', id)
  {
    var c, i :| c in workers && 0 <= i < |workers[c].executed| && workers[c].executed[i].id == id;
    assert workers'[c].executed[i] == workers[c].executed[i];
  }

  lemma ThreadLonger(s: System, step: Step)
    requires IsThreadStep(step) && ThreadCan(s, step)
    ensures Longer(s.workers, ThreadTake(s, step).workers)
  {
    match step
    case WorkerRun(c, reply) => RunFrame(s, c, reply);
    case WorkerDeliver(c) => DeliverFrame(s, c);
    case _ =>
  }

  lemma PushLonger(s: System, job: Job)
    requires job.conn in s.workers
    ensures Longer(s.workers, PushJob(s, job).workers)
  {
  }

  lemma SubmitLonger(s: System, h: int, kind: Kind, sql: string, sync: bool, now: int)
    ensures Longer(s.workers, Submit(s, h, kind, sql, sync, now).workers)
  {
    var (reason, reg) := Admit(s.reg, h, kind.Exec?, sql, PendingOf(s, h), now);
    if reason == Accepted && h in s.reg.workers && s.reg.workers[h] in s.workers {
      var job := Job(s.nextJob, s.reg.workers[h], sql, kind, sync, TermsOf(GuardsOf(s.reg, h), now));
      PushLonger(s.(reg := reg, clock := now), job);
    } else {
      assert Submit(s, h, kind, sql, sync, now).workers == s.workers;
    }
  }

  lemma CloseLonger(s: System, sh: int)
    requires sh in s.reg.statements
    ensures Longer(s.workers, CloseStmt(s, sh).workers)
  {
    RetireStatements(s, sh);
  }

  lemma OtherLonger(s: System, step: Step)
    requires Enabled(s, step) && !IsThreadStep(step) && !step.Query? && !step.Execute? && !step.CloseStatement?
    ensures Longer(s.workers, Take(s, step).workers)
  {
    if step.SyncReturn? {
      ReturnFrame(s, step.keep);
    }
  }

  lemma StepLonger(s: System, step: Step)
    requires Enabled(s, step)
    ensures Longer(s.workers, Take(s, step).workers)
  {
    if IsThreadStep(step) {
      TakeOfThread(s, step);
      ThreadLonger(s, step);
    } else if step.Query? {
      TakeOfQuery(s, step.h, step.sql, step.sync, step.now);
      SubmitLonger(s, step.h, Plain, step.sql, step.sync, step.now);
    } else if step.Execute? {
      ExecuteLonger(s, step.sh, step.now);
    } else if step.CloseStatement? {
      TakeOfClose(s, step.sh);
      CloseLonger(s, step.sh);
    } else {
      OtherLonger(s, step);
    }
  }

  lemma ExecuteLonger(s: System, sh: int, now: int)
    requires Enabled(s, Execute(sh, now))
    ensures Longer(s.workers, Take(s, Execute(sh, now)).workers)
  {
    var stmt := s.reg.statements[sh];
    if HandleOf(s.reg, stmt.conn) != 0 {
      SubmitLonger(s, HandleOf(s.reg, stmt.conn), Exec(stmt.id), stmt.sql, false, now);
    }
  }

  // --- Results come from running, once --------------------------------------------------------

  /** The job in hand has not run before, anywhere. */
  lemma InHandIsNew(s: System, c: nat)
    requires WorkersOk(s) && IdsOk(s) && c in s.workers && s.workers[c].phase.Holding?
    ensures !HasRun(s.workers, s.workers[c].phase.job.id)
  {
    var w := s.workers[c];
    var n := |w.executed|;
    assert HistoryOk(c, w);
    assert w.enqueued[n] == w.phase.job by {
      assert Todo(w)[0] == w.phase.job;
    }
    forall d, i | d in s.workers && 0 <= i < |s.workers[d].executed|
      ensures s.workers[d].executed[i].id != w.phase.job.id
    {
      assert HistoryOk(d, s.workers[d]);
      assert s.workers[d].enqueued[i] == s.workers[d].executed[i];
    }
  }

  /** Only running a job touches results, and only its own. */
  lemma StepResults(s: System, step: Step)
    requires Enabled(s, step)
    ensures !step.WorkerRun? ==> Take(s, step).results == s.results
    ensures step.WorkerRun? ==>
              var job := s.workers[step.c].phase.job;
              var result := ResultOf(step.reply, job.sql);
              Take(s, step).results
              == if !job.kind.Close? && result.Some? then s.results[job.id := result.value] else s.results
  {
    if !ChangesResults(step) {
      OtherKeepsResults(s, step);
    } else if step.WorkerRun? {
      TakeOfThread(s, step);
    } else if step.SyncReturn? {
      TakeOfReturn(s, step.keep);
      ReturnLeavesResults(s, step.keep);
    } else {
      CacheStepLeavesResults(s, step);
    }
  }

  lemma ReturnLeavesResults(s: System, keep: bool)
    requires s.promise.Some?
    ensures ReturnSync(s, keep).results == s.results
  {
  }

  lemma CacheStepLeavesResults(s: System, step: Step)
    requires Enabled(s, step) && (step.Dispatch? || step.EndCallback? || step.Script? || step.ResetBegin?)
    ensures Take(s, step).results == s.results
  {
  }

  /** What came of a job that has run stays as it is. */
  lemma StepKeepsOutcome(s: System, step: Step, id: nat)
    requires WorkersOk(s) && IdsOk(s) && Enabled(s, step) && HasRun(s.workers, id)
    ensures HasRun(Take(s, step).workers, id) && SameOutcome(s, Take(s, step), id)
  {
    StepLonger(s, step);
    RunStays(s.workers, Take(s, step).workers, id);
    StepResults(s, step);
    if step.WorkerRun? {
      InHandIsNew(s, step.c);
    }
  }

  /** Every step keeps results to jobs that have run. */
  lemma ResultsStep(s: System, step: Step)
    requires ResultsOk(s) && Enabled(s, step)
    ensures ResultsOk(Take(s, step))
  {
    var t := Take(s, step);
    StepLonger(s, step);
    StepResults(s, step);
    if step.WorkerRun? {
      JobHasRun(s, step);
    }
    forall id | id in t.results ensures HasRun(t.workers, id) {
      if id in s.results {
        RunStays(s.workers, t.workers, id);
      }
    }
  }

  lemma JobHasRun(s: System, step: Step)
    requires Enabled(s, step) && step.WorkerRun?
    ensures HasRun(Take(s, step).workers, s.workers[step.c].phase.job.id)
  {
    TakeOfThread(s, step);
    var w := s.workers[step.c];
    var v := ThreadTake(s, step).workers[step.c];
    assert v.executed[|w.executed|] == w.phase.job;
  }
}
