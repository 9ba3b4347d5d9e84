/** Why a query's way through the guards to its worker's queue may be one step. The guards read
    the worker's counter, and the push comes later; but what threads do in between comes to the
    same as if they had done it after the push. */
module Atomicity {
  import opened Options
  import opened Guards
  import opened Registries
  import opened Results
  import opened Workers
  import opened Protocol
  import opened Structure
  import opened Safety

  /** A job pushed at the back is out of the way of the thread's next step at the front. */
  lemma MoveCommutes(w: Worker, job: Job)
    ensures CanPop(w) ==> CanPop(Push(w, job)) && Pop(Push(w, job)) == Push(Pop(w), job)
    ensures w.phase.Holding? ==> RunJob(Push(w, job)) == Push(RunJob(w), job)
    ensures w.phase.Ran? ==> Deliver(Push(w, job)) == Push(Deliver(w), job)
    ensures w.phase.Delivered? ==> Finish(Push(w, job)) == Push(Finish(w), job)
  {
    if w.input != [] {
      assert (w.input + [job])[1..] == w.input[1..] + [job];
    }
  }

  lemma QuietCommutes(s: System, job: Job, step: Step)
    requires (step.WorkerPop? || step.WorkerExit? || step.WorkerFinish?) && ThreadCan(s, step)
    requires job.conn in s.workers && s.workers[job.conn].running
    ensures job.conn in ThreadTake(s, step).workers && ThreadCan(PushJob(s, job), step)
    ensures ThreadTake(PushJob(s, job), step) == PushJob(ThreadTake(s, step), job)
  {
    MoveCommutes(s.workers[step.c], job);
    assert ThreadTake(PushJob(s, job), step).workers == PushJob(ThreadTake(s, step), job).workers;
  }

  lemma RunCommutes(s: System, job: Job, c: nat, reply: Reply)
    requires ThreadCan(s, WorkerRun(c, reply)) && job.conn in s.workers
    ensures job.conn in RunOn(s, c, reply).workers && ThreadCan(PushJob(s, job), WorkerRun(c, reply))
    ensures RunOn(PushJob(s, job), c, reply) == PushJob(RunOn(s, c, reply), job)
  {
    MoveCommutes(s.workers[c], job);
    assert RunOn(PushJob(s, job), c, reply).workers == PushJob(RunOn(s, c, reply), job).workers;
  }

  lemma DeliverCommutes(s: System, job: Job, c: nat)
    requires ThreadCan(s, WorkerDeliver(c)) && job.conn in s.workers
    ensures job.conn in DeliverOn(s, c).workers && ThreadCan(PushJob(s, job), WorkerDeliver(c))
    ensures DeliverOn(PushJob(s, job), c) == PushJob(DeliverOn(s, c), job)
  {
    MoveCommutes(s.workers[c], job);
    assert DeliverOn(PushJob(s, job), c).workers == PushJob(DeliverOn(s, c), job).workers;
  }

  /** A thread's step neither stops a worker nor raises its counter. */
  lemma StepLowersPending(s: System, step: Step, c: nat)
    requires IsThreadStep(step) && ThreadCan(s, step) && c in s.workers
    ensures var t := ThreadTake(s, step);
            c in t.workers && t.workers[c].running == s.workers[c].running
              && t.workers[c].pending <= s.workers[c].pending
  {
    ThreadChange(s, step, c);
  }

  /** Threads run on, and the push may come before them or after. */
  lemma {:induction false} ThreadsCommute(s: System, job: Job, steps: seq<Step>)
    requires job.conn in s.workers && s.workers[job.conn].running && After(s, steps).Some?
    requires forall i :: 0 <= i < |steps| ==> IsThreadStep(steps[i])
    ensures var t := After(s, steps).value;
            && job.conn in t.workers && t.workers[job.conn].running
            && t.workers[job.conn].pending <= s.workers[job.conn].pending
            && After(PushJob(s, job), steps) == Some(PushJob(t, job))
    decreases |steps|
  {
    if steps == [] {
    } else {
      var most, last := steps[..|steps| - 1], steps[|steps| - 1];
      ThreadsCommute(s, job, most);
      var t := After(s, most).value;
      LastCommutes(t, job, last);
    }
  }

  lemma LastCommutes(t: System, job: Job, last: Step)
    requires IsThreadStep(last) && Enabled(t, last) && job.conn in t.workers && t.workers[job.conn].running
    ensures job.conn in Take(t, last).workers && Take(t, last).workers[job.conn].running
    ensures Take(t, last).workers[job.conn].pending <= t.workers[job.conn].pending
    ensures Enabled(PushJob(t, job), last) && Take(PushJob(t, job), last) == PushJob(Take(t, last), job)
  {
    TakeOfThread(t, last);
    StepLowersPending(t, last, job.conn);
    if last.WorkerRun? {
      RunCommutes(t, job, last.c, last.reply);
    } else if last.WorkerDeliver? {
      DeliverCommutes(t, job, last.c);
    } else {
      QuietCommutes(t, job, last);
    }
    TakeOfThread(PushJob(t, job), last);
  }

  /** The guards have let a job through and it has not been pushed yet; threads move meanwhile.
      The counter the guards read is at most too high, and pushing the job now leads where the
      machine's one step leads, followed by the same moves. */
  lemma SubmitIsAtomic(s: System, h: int, kind: Kind, sql: string, sync: bool, now: int, steps: seq<Step>)
    requires Reachable(s) && Free(s) && h in s.reg.workers
    requires Admit(s.reg, h, kind.Exec?, sql, PendingOf(s, h), now).0 == Accepted
    requires After(s.(reg := Admit(s.reg, h, kind.Exec?, sql, PendingOf(s, h), now).1, clock := now), steps).Some?
    requires forall i :: 0 <= i < |steps| ==> IsThreadStep(steps[i])
    ensures var reg := Admit(s.reg, h, kind.Exec?, sql, PendingOf(s, h), now).1;
            var job := Job(s.nextJob, s.reg.workers[h], sql, kind, sync, TermsOf(GuardsOf(s.reg, h), now));
            var t := After(s.(reg := reg, clock := now), steps).value;
            && job.conn in t.workers && t.workers[job.conn].pending <= PendingOf(s, h)
            && After(Submit(s, h, kind, sql, sync, now), steps) == Some(PushJob(t, job))
  {
    StructureHolds(s);
    IdleMeansRunning(s, h);
    var reg := Admit(s.reg, h, kind.Exec?, sql, PendingOf(s, h), now).1;
    var job := Job(s.nextJob, s.reg.workers[h], sql, kind, sync, TermsOf(GuardsOf(s.reg, h), now));
    ThreadsCommute(s.(reg := reg, clock := now), job, steps);
  }
}
