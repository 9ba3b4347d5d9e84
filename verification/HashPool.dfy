/** The hashing pool: one input queue, one output queue, any number of threads between them. */
module HashPool {
  import opened Options

  datatype HashJob = HashJob(id: nat, password: string)

  /** A thread of the pool: waiting for work, computing, done computing, or gone. */
  datatype HashThread = Waiting | Working(job: HashJob) | Computed(job: HashJob) | Gone

  /** The pool, with the histories of what was submitted, taken up, computed and drained. While
      it is `stopping` the main thread is joining the threads and does nothing else. */
  datatype Pool = Pool(running: bool, stopping: bool, threads: seq<HashThread>,
                       input: seq<HashJob>, output: seq<HashJob>, drained: seq<HashJob>,
                       submitted: seq<HashJob>, started: seq<HashJob>, computed: seq<HashJob>)

  const NEW_POOL := Pool(false, false, [], [], [], [], [], [], [])

  datatype PoolStep =
    | Start(threads: nat)
    | Submit(job: HashJob)
    | DrainOutput
    | StopFlag
    | JoinAll
    | Take(i: nat)
    | Compute(i: nat)
    | Deliver(i: nat)
    | Leave(i: nat)

  predicate CanStep(s: Pool, step: PoolStep) {
    match step
    case Start(_) => !s.stopping
    case Submit(_) => !s.stopping
    case DrainOutput => !s.stopping
    case StopFlag => !s.stopping && s.running
    case JoinAll => s.stopping && forall i :: 0 <= i < |s.threads| ==> s.threads[i].Gone?
    case Take(i) => i < |s.threads| && s.threads[i].Waiting? && s.input != []
    case Compute(i) => i < |s.threads| && s.threads[i].Working?
    case Deliver(i) => i < |s.threads| && s.threads[i].Computed?
    case Leave(i) => i < |s.threads| && s.threads[i].Waiting? && s.input == [] && !s.running
  }

  /** A pool has at least one thread, however few are asked for. */
  function Step(s: Pool, step: PoolStep): Pool
    requires CanStep(s, step)
  {
    match step
    case Start(n) =>
      if s.running then s
      else s.(running := true, threads := seq(if n < 1 then 1 else n, i => Waiting))
    case Submit(job) => s.(input := s.input + [job], submitted := s.submitted + [job])
    case DrainOutput => s.(drained := s.drained + s.output, output := [])
    case StopFlag => s.(running := false, stopping := true)
    case JoinAll => s.(stopping := false, threads := [])
    case Take(i) =>
      s.(input := s.input[1..], started := s.started + [s.input[0]], threads := s.threads[i := Working(s.input[0])])
    case Compute(i) =>
      s.(computed := s.computed + [s.threads[i].job], threads := s.threads[i := Computed(s.threads[i].job)])
    case Deliver(i) => s.(output := s.output + [s.threads[i].job], threads := s.threads[i := Waiting])
    case Leave(i) => s.(threads := s.threads[i := Gone])
  }

  /** What the main thread's steps do: a pool starts once and with at least one thread, jobs
      queue up in order whether or not it runs, a drain takes everything out in order, and the
      threads are gone only after the join. */
  lemma MainStepActs(s: Pool, step: PoolStep)
    requires CanStep(s, step)
    ensures step.Start? ==>
              var t := Step(s, step);
              && t.running && t == s.(running := true, threads := t.threads)
              && (s.running ==> t.threads == s.threads)
              && (!s.running ==> |t.threads| >= 1 && (step.threads >= 1 ==> |t.threads| == step.threads)
                                 && forall i :: 0 <= i < |t.threads| ==> t.threads[i] == Waiting)
              && (!s.running && step.threads == 0 ==> |t.threads| == 1)
    ensures step.Submit? ==>
              Step(s, step) == s.(input := s.input + [step.job], submitted := s.submitted + [step.job])
    ensures step.DrainOutput? ==> Step(s, step).drained == s.drained + s.output && Step(s, step).output == []
    ensures step.StopFlag? ==> !Step(s, step).running && Step(s, step).threads == s.threads
    ensures step.JoinAll? ==> Step(s, step).threads == [] && Step(s, step).output == s.output
  {
  }

  function PoolAfter(steps: seq<PoolStep>): Option<Pool> {
    if steps == [] then Some(NEW_POOL)
    else
      var before :- PoolAfter(steps[..|steps| - 1]);
      if CanStep(before, steps[|steps| - 1]) then Some(Step(before, steps[|steps| - 1])) else None
  }

  // --- What the threads hold ------------------------------------------------------------------

  function Holds(t: HashThread, job: HashJob): nat {
    if (t.Working? || t.Computed?) && t.job == job then 1 else 0
  }

  function HoldsComputed(t: HashThread, job: HashJob): nat {
    if t.Computed? && t.job == job then 1 else 0
  }

  /** How often a job is taken up but not in the output yet. */
  function InProgress(threads: seq<HashThread>, job: HashJob): nat {
    if threads == [] then 0 else Holds(threads[0], job) + InProgress(threads[1..], job)
  }

  function DoneInHand(threads: seq<HashThread>, job: HashJob): nat {
    if threads == [] then 0 else HoldsComputed(threads[0], job) + DoneInHand(threads[1..], job)
  }

  lemma {:induction false} ThreadChanges(threads: seq<HashThread>, i: nat, t: HashThread, job: HashJob)
    requires i < |threads|
    ensures InProgress(threads[i := t], job) + Holds(threads[i], job) == InProgress(threads, job) + Holds(t, job)
    ensures DoneInHand(threads[i := t], job) + HoldsComputed(threads[i], job)
            == DoneInHand(threads, job) + HoldsComputed(t, job)
    decreases threads
  {
    var after := threads[i := t];
    if i == 0 {
      assert after[1..] == threads[1..];
    } else {
      assert after[1..] == threads[1..][i - 1 := t] && after[0] == threads[0];
      ThreadChanges(threads[1..], i - 1, t, job);
    }
  }

  lemma {:induction false} IdleThreads(threads: seq<HashThread>, job: HashJob)
    requires forall i :: 0 <= i < |threads| ==> threads[i].Waiting? || threads[i].Gone?
    ensures InProgress(threads, job) == 0 && DoneInHand(threads, job) == 0
    decreases threads
  {
    if threads == [] {
    } else {
      IdleThreads(threads[1..], job);
    }
  }

  // --- What every step keeps ------------------------------------------------------------------

  function Finished(s: Pool, job: HashJob): nat {
    multiset(s.output)[job] + multiset(s.drained)[job]
  }

  /** A job taken up is in a thread's hands, in the output or drained, and nowhere twice. */
  predicate ConservedFor(s: Pool, job: HashJob) {
    && multiset(s.started)[job] == InProgress(s.threads, job) + Finished(s, job)
    && multiset(s.computed)[job] == DoneInHand(s.threads, job) + Finished(s, job)
  }

  ghost predicate Conserved(s: Pool) {
    s.submitted == s.started + s.input && forall job :: ConservedFor(s, job)
  }

  /** Threads are gone only while the pool stops, and then there was nothing left to take. */
  ghost predicate ThreadsOk(s: Pool) {
    && (s.running || s.stopping <==> s.threads != [])
    && (s.running ==> !s.stopping)
    && (forall i :: 0 <= i < |s.threads| && s.threads[i].Gone? ==> s.stopping && s.input == [])
  }

  lemma StepConserves(s: Pool, step: PoolStep)
    requires Conserved(s) && ThreadsOk(s) && CanStep(s, step)
    ensures Conserved(Step(s, step))
  {
    if step.Take? {
      assert s.submitted == s.started + [s.input[0]] + s.input[1..];
    }
    forall job ensures ConservedFor(Step(s, step), job) {
      if step.Take? || step.Compute? || step.Deliver? || step.Leave? {
        ThreadStepConserves(s, step, job);
      } else {
        MainStepConserves(s, step, job);
      }
    }
  }

  lemma ThreadStepConserves(s: Pool, step: PoolStep, job: HashJob)
    requires ConservedFor(s, job) && CanStep(s, step) && (step.Take? || step.Compute? || step.Deliver? || step.Leave?)
    ensures ConservedFor(Step(s, step), job)
  {
    match step
    case Take(i) => TakeConserves(s, i, job);
    case Compute(i) => ComputeConserves(s, i, job);
    case Deliver(i) => DeliverConserves(s, i, job);
    case Leave(i) => ThreadChanges(s.threads, i, Gone, job);
  }

  lemma TakeConserves(s: Pool, i: nat, job: HashJob)
    requires ConservedFor(s, job) && CanStep(s, Take(i))
    ensures ConservedFor(Step(s, Take(i)), job)
  {
    ThreadChanges(s.threads, i, Working(s.input[0]), job);
    OneMore(s.started, s.input[0], job);
  }

  lemma ComputeConserves(s: Pool, i: nat, job: HashJob)
    requires ConservedFor(s, job) && CanStep(s, Compute(i))
    ensures ConservedFor(Step(s, Compute(i)), job)
  {
    ThreadChanges(s.threads, i, Computed(s.threads[i].job), job);
    OneMore(s.computed, s.threads[i].job, job);
  }

  lemma DeliverConserves(s: Pool, i: nat, job: HashJob)
    requires ConservedFor(s, job) && CanStep(s, Deliver(i))
    ensures ConservedFor(Step(s, Deliver(i)), job)
  {
    ThreadChanges(s.threads, i, Waiting, job);
    OneMore(s.output, s.threads[i].job, job);
  }

  lemma OneMore(jobs: seq<HashJob>, last: HashJob, job: HashJob)
    ensures multiset(jobs + [last])[job] == multiset(jobs)[job] + if last == job then 1 else 0
  {
  }

  lemma MainStepConserves(s: Pool, step: PoolStep, job: HashJob)
    requires ConservedFor(s, job) && ThreadsOk(s) && CanStep(s, step)
    requires step.Start? || step.Submit? || step.DrainOutput? || step.StopFlag? || step.JoinAll?
    ensures ConservedFor(Step(s, step), job)
  {
    match step
    case Start(n) => Idle(s, Step(s, step), job);
    case JoinAll => Idle(s, Step(s, step), job);
    case _ =>
  }

  /** Starting and joining exchange threads that hold nothing. */
  lemma Idle(s: Pool, t: Pool, job: HashJob)
    requires ConservedFor(s, job) && t == s.(running := t.running, stopping := t.stopping, threads := t.threads)
    requires t.threads == s.threads
             || ((forall i :: 0 <= i < |s.threads| ==> s.threads[i].Waiting? || s.threads[i].Gone?)
                 && forall i :: 0 <= i < |t.threads| ==> t.threads[i].Waiting?)
    ensures ConservedFor(t, job)
  {
    if t.threads != s.threads {
      IdleThreads(s.threads, job);
      IdleThreads(t.threads, job);
    }
  }

  lemma StepKeepsThreads(s: Pool, step: PoolStep)
    requires ThreadsOk(s) && CanStep(s, step)
    ensures ThreadsOk(Step(s, step))
  {
  }

  lemma {:induction false} PoolInvariant(steps: seq<PoolStep>)
    requires PoolAfter(steps).Some?
    ensures Conserved(PoolAfter(steps).value) && ThreadsOk(PoolAfter(steps).value)
    decreases |steps|
  {
    if steps == [] {
    } else {
      PoolInvariant(steps[..|steps| - 1]);
      StepConserves(PoolAfter(steps[..|steps| - 1]).value, steps[|steps| - 1]);
      StepKeepsThreads(PoolAfter(steps[..|steps| - 1]).value, steps[|steps| - 1]);
    }
  }

  // --- The theorems ---------------------------------------------------------------------------

  /** However many threads there are and however they interleave: jobs are taken up in the order
      they were submitted; every job is queued, in progress, finished or drained as often as it
      was submitted; and it is computed no more often than that. */
  lemma HashJobsAreConserved(steps: seq<PoolStep>, job: HashJob)
    requires PoolAfter(steps).Some?
    ensures var s := PoolAfter(steps).value;
            && s.submitted == s.started + s.input
            && multiset(s.submitted)[job] == multiset(s.input)[job] + InProgress(s.threads, job)
                                             + multiset(s.output)[job] + multiset(s.drained)[job]
            && multiset(s.output)[job] + multiset(s.drained)[job] <= multiset(s.computed)[job]
            && multiset(s.computed)[job] <= multiset(s.submitted)[job]
  {
    PoolInvariant(steps);
    var s := PoolAfter(steps).value;
    assert ConservedFor(s, job);
    DoneIsInProgress(s.threads, job);
  }

  lemma {:induction false} DoneIsInProgress(threads: seq<HashThread>, job: HashJob)
    ensures DoneInHand(threads, job) <= InProgress(threads, job)
    decreases threads
  {
    if threads == [] {
    } else {
      DoneIsInProgress(threads[1..], job);
    }
  }

  /** When a running pool has been stopped nothing is left queued or in progress: everything
      submitted has been computed exactly once and is in the output or drained. */
  lemma StoppedPoolIsEmpty(steps: seq<PoolStep>)
    requires PoolAfter(steps).Some? && CanStep(PoolAfter(steps).value, JoinAll)
    ensures var s := PoolAfter(steps).value;
            && s.input == [] && s.started == s.submitted
            && multiset(s.computed) == multiset(s.submitted) == multiset(s.output + s.drained)
  {
    PoolInvariant(steps);
    var s := PoolAfter(steps).value;
    assert s.threads[0].Gone?;
    assert s.started + [] == s.started;
    forall job ensures multiset(s.computed)[job] == multiset(s.submitted)[job] == multiset(s.output + s.drained)[job] {
      assert ConservedFor(s, job);
      IdleThreads(s.threads, job);
    }
  }

  /** Steps the threads still have to take to empty the pool. */
  function ThreadRank(t: HashThread): nat {
    match t
    case Gone => 0
    case Waiting => 1
    case Computed(_) => 2
    case Working(_) => 3
  }

  function Ranks(threads: seq<HashThread>): nat {
    if threads == [] then 0 else ThreadRank(threads[0]) + Ranks(threads[1..])
  }

  function ToDo(s: Pool): nat {
    3 * |s.input| + Ranks(s.threads)
  }

  lemma {:induction false} RankChanges(threads: seq<HashThread>, i: nat, t: HashThread)
    requires i < |threads|
    ensures Ranks(threads[i := t]) + ThreadRank(threads[i]) == Ranks(threads) + ThreadRank(t)
    decreases threads
  {
    var after := threads[i := t];
    if i == 0 {
      assert after[1..] == threads[1..];
    } else {
      assert after[1..] == threads[1..][i - 1 := t] && after[0] == threads[0];
      RankChanges(threads[1..], i - 1, t);
    }
  }

  /** The next step of a thread of a stopping pool. */
  function NextOf(s: Pool, i: nat): PoolStep
    requires i < |s.threads|
  {
    match s.threads[i]
    case Working(_) => Compute(i)
    case Computed(_) => Deliver(i)
    case _ => if s.input != [] then Take(i) else Leave(i)
  }

  /** A pool that is stopping gets there: each thread not gone can take a step, nothing but
      such steps can happen before the join, and each of them brings the end closer. */
  lemma StoppingMakesProgress(s: Pool, i: nat, step: PoolStep)
    requires ThreadsOk(s) && s.stopping && i < |s.threads| && !s.threads[i].Gone?
    ensures CanStep(s, NextOf(s, i)) && !CanStep(s, JoinAll)
    ensures CanStep(s, step) ==> ToDo(Step(s, step)) < ToDo(s)
  {
    assert !s.running;
    if CanStep(s, step) {
      match step
      case Take(k) => RankChanges(s.threads, k, Working(s.input[0]));
      case Compute(k) => RankChanges(s.threads, k, Computed(s.threads[k].job));
      case Deliver(k) => RankChanges(s.threads, k, Waiting);
      case Leave(k) => RankChanges(s.threads, k, Gone);
    }
  }

  /** The pool as the repository writes it. Its threads run here without interference. */
  class HashEngine {
    var running: bool
    var threads: nat
    var input: seq<HashJob>
    var output: seq<HashJob>
    ghost var submitted: seq<HashJob>
    ghost var taken: seq<HashJob>

    /** Between two calls: what was submitted was taken up in order or waits. */
    ghost predicate Valid()
      reads this
    {
      submitted == taken + input && (running <==> threads > 0)
    }

    constructor ()
      ensures Valid() && !running && input == [] && output == []
    {
      running, threads, input, output, submitted, taken := false, 0, [], [], [], [];
    }

    /** Starts the threads, once. */
    method StartHashing(n: nat)
      requires Valid()
      modifies this`running, this`threads
      ensures Valid() && running && threads == if old(running) then old(threads) else if n < 1 then 1 else n
    {
      if running {
        return;
      }
      running := true;
      var count := if n < 1 then 1 else n;
      threads := 0;
      for i := 0 to count
        invariant threads == i && running
      {
        threads := threads + 1;
      }
    }

    method EnqueueHash(job: HashJob)
      requires Valid()
      modifies this`input, this`submitted
      ensures Valid() && input == old(input) + [job] && submitted == old(submitted) + [job]
    {
      input := input + [job];
      submitted := submitted + [job];
    }

    /** The body of a thread's loop once there is work. */
    method Work()
      requires Valid() && input != []
      modifies this`input, this`output, this`taken
      ensures Valid() && input == old(input)[1..] && output == old(output) + [old(input)[0]]
              && taken == old(taken) + [old(input)[0]]
    {
      var job := input[0];
      assert submitted == taken + [job] + input[1..];
      input := input[1..];
      taken := taken + [job];
      output := output + [job];
    }

    /** Moves every finished job out, first finished first. */
    method DrainHashes() returns (out: seq<HashJob>)
      requires Valid()
      modifies this`output
      ensures Valid() && out == old(output) && output == []
    {
      out := [];
      while output != []
        invariant out + output == old(output)
        decreases |output|
      {
        out := out + [output[0]];
        output := output[1..];
      }
    }

    /** Stops a running pool; its threads empty the queue first. A pool that was never started
        keeps what is queued. */
    method StopHashing()
      requires Valid()
      modifies this
      ensures Valid() && !running && threads == 0 && submitted == old(submitted)
      ensures if old(running) then input == [] && output == old(output) + old(input) && taken == submitted
              else input == old(input) && output == old(output)
      ensures input == [] <==> old(running) || old(input) == []
    {
      if !running {
        return;
      }
      running := false;
      threads := 0;
      while input != []
        invariant Valid() && !running && threads == 0 && submitted == old(submitted)
        invariant output + input == old(output) + old(input)
        decreases |input|
      {
        assert input == [input[0]] + input[1..];
        Work();
      }
      assert output + [] == output && taken + [] == taken;
    }
  }
}
