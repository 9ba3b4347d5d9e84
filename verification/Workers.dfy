/** One connection's worker: an input queue, a thread that empties it, and the steps by which
    the two sides touch it. Each step is one locked region or one atomic operation. */
module Workers {
  import opened Options
  import opened Guards

  /** A plain query, the execution of a prepared statement, or the teardown of one. */
  datatype Kind = Plain | Exec(stmt: nat) | Close(stmt: nat)

  /** `conn` is the identity of the connection the job is queued on, `sync` whether a caller
      is blocked on it, `terms` what the guards held it to. */
  datatype Job = Job(id: nat, conn: nat, sql: string, kind: Kind, sync: bool, terms: Terms)

  /** The job that carries a statement to its end. */
  function Teardown(id: nat, conn: nat, stmt: nat): Job {
    Job(id, conn, "", Close(stmt), false, NO_TERMS)
  }

  predicate Async(job: Job) {
    !job.kind.Close? && !job.sync
  }

  /** Where the worker thread is: waiting for work, holding a popped job, done running it,
      done delivering it, or gone. */
  datatype Phase = AtLoop | Holding(job: Job) | Ran(job: Job) | Delivered | Exited

  /** The worker's state, with the histories of what was queued and what was run. */
  datatype Worker = Worker(input: seq<Job>, running: bool, pending: int, phase: Phase,
                           enqueued: seq<Job>, executed: seq<Job>)

  const FRESH_WORKER := Worker([], true, 0, AtLoop, [], [])

  // --- Steps of the caller's side ---------------------------------------------------------

  function Push(w: Worker, job: Job): Worker {
    w.(input := w.input + [job], enqueued := w.enqueued + [job])
  }

  function Bump(w: Worker): Worker {
    w.(pending := w.pending + 1)
  }

  function ClearRunning(w: Worker): Worker {
    w.(running := false)
  }

  /** After the thread has been joined: whatever is left in the queue is thrown away. */
  function Reap(w: Worker): Worker {
    w.(input := [], pending := 0)
  }

  // --- Steps of the thread ----------------------------------------------------------------

  predicate CanPop(w: Worker) {
    w.phase == AtLoop && w.input != []
  }

  predicate CanExit(w: Worker) {
    w.phase == AtLoop && w.input == [] && !w.running
  }

  function Pop(w: Worker): Worker
    requires CanPop(w)
  {
    w.(input := w.input[1..], phase := Holding(w.input[0]))
  }

  function Exit(w: Worker): Worker
    requires CanExit(w)
  {
    w.(phase := Exited)
  }

  /** A teardown has nothing to deliver. */
  function RunJob(w: Worker): Worker
    requires w.phase.Holding?
  {
    w.(phase := if w.phase.job.kind.Close? then Delivered else Ran(w.phase.job), executed := w.executed + [w.phase.job])
  }

  function Deliver(w: Worker): Worker
    requires w.phase.Ran?
  {
    w.(phase := Delivered)
  }

  function Finish(w: Worker): Worker
    requires w.phase.Delivered?
  {
    w.(phase := AtLoop, pending := w.pending - 1)
  }

  /** One whole iteration of the loop, when nobody else touches the worker meanwhile. */
  function Iteration(w: Worker): Worker
    requires CanPop(w)
  {
    w.(input := w.input[1..], pending := w.pending - 1, executed := w.executed + [w.input[0]])
  }

  lemma IterationIsItsSteps(w: Worker)
    requires CanPop(w)
    ensures var r := RunJob(Pop(w));
            Iteration(w) == Finish(if r.phase.Ran? then Deliver(r) else r)
  {
  }

  // --- What the queue holds -----------------------------------------------------------------

  function InHand(p: Phase): seq<Job> {
    if p.Holding? then [p.job] else []
  }

  /** Jobs not yet run, in the order they will be. */
  function Todo(w: Worker): seq<Job> {
    InHand(w.phase) + w.input
  }

  function Busy(p: Phase): int {
    if p == AtLoop || p == Exited then 0 else 1
  }

  function AsyncOnly(jobs: seq<Job>): seq<Job> {
    if jobs == [] then [] else (if Async(jobs[0]) then [jobs[0]] else []) + AsyncOnly(jobs[1..])
  }

  function SyncOnly(jobs: seq<Job>): seq<Job> {
    if jobs == [] then [] else (if jobs[0].sync && !jobs[0].kind.Close? then [jobs[0]] else []) + SyncOnly(jobs[1..])
  }

  ghost predicate HasTeardown(jobs: seq<Job>, t: nat) {
    exists i :: 0 <= i < |jobs| && jobs[i].kind == Close(t)
  }

  lemma TeardownStays(jobs: seq<Job>, more: seq<Job>, t: nat)
    requires HasTeardown(jobs, t) && jobs <= more
    ensures HasTeardown(more, t)
  {
    var i :| 0 <= i < |jobs| && jobs[i].kind == Close(t);
    assert more[i].kind == Close(t);
  }

  lemma Regroup(a: seq<Job>, b: seq<Job>, c: seq<Job>)
    ensures a + b + c == a + (b + c)
  {
  }

  lemma {:induction false} AsyncOnlyConcat(a: seq<Job>, b: seq<Job>)
    ensures AsyncOnly(a + b) == AsyncOnly(a) + AsyncOnly(b)
    decreases a
  {
    if a == [] {
      assert a + b == b;
    } else {
      assert (a + b)[1..] == a[1..] + b;
      AsyncOnlyConcat(a[1..], b);
      Regroup(if Async(a[0]) then [a[0]] else [], AsyncOnly(a[1..]), AsyncOnly(b));
    }
  }

  lemma {:induction false} SyncOnlyConcat(a: seq<Job>, b: seq<Job>)
    ensures SyncOnly(a + b) == SyncOnly(a) + SyncOnly(b)
    decreases a
  {
    if a == [] {
      assert a + b == b;
    } else {
      assert (a + b)[1..] == a[1..] + b;
      SyncOnlyConcat(a[1..], b);
      Regroup(if a[0].sync && !a[0].kind.Close? then [a[0]] else [], SyncOnly(a[1..]), SyncOnly(b));
    }
  }

  lemma TeardownOwesNothing(queue: seq<Job>, job: Job)
    requires job.kind.Close?
    ensures AsyncOnly(queue + [job]) == AsyncOnly(queue)
  {
    AsyncOnlyConcat(queue, [job]);
    assert [job][1..] == [] && AsyncOnly(queue) + [] == AsyncOnly(queue);
  }

  /** Working off the first job of a queue moves what it owes to the sink. */
  lemma FirstOff(completed: seq<Job>, input: seq<Job>)
    requires input != []
    ensures completed + AsyncOnly([input[0]]) + AsyncOnly(input[1..]) == completed + AsyncOnly(input)
  {
    assert input == [input[0]] + input[1..];
    AsyncOnlyConcat([input[0]], input[1..]);
    Regroup(completed, AsyncOnly([input[0]]), AsyncOnly(input[1..]));
  }

  /** The sink all workers share. */
  class QueryEngine {
    var completed: seq<Job>

    constructor ()
      ensures completed == []
    {
      completed := [];
    }

    method PushCompleted(job: Job)
      modifies this
      ensures completed == old(completed) + [job]
    {
      completed := completed + [job];
    }

    /** Moves every finished job out, first finished first. */
    method DrainCompleted() returns (out: seq<Job>)
      modifies this
      ensures out == old(completed) && completed == []
    {
      out := [];
      while completed != []
        invariant out + completed == old(completed)
        decreases |completed|
      {
        out := out + [completed[0]];
        completed := completed[1..];
      }
    }
  }

  /** The worker as the repository writes it. The thread's steps run here without
      interference; their interleavings are the subject of module `Protocol`. */
  class ConnectionWorker {
    const engine: QueryEngine
    /** The handle this worker was made for. */
    ghost const handle: int
    var input: seq<Job>
    var running: bool
    var joinable: bool
    var pending: int
    /** The job last handed back through its promise. */
    var handedBack: Option<Job>
    ghost var enqueued: seq<Job>
    ghost var executed: seq<Job>

    ghost function View(): Worker
      reads this
    {
      Worker(input, running, pending, if joinable then AtLoop else Exited, enqueued, executed)
    }

    /** The state between two calls: everything queued has run or is waiting, the counter says
        how much waits, and the thread is there as long as the worker runs. */
    ghost predicate Valid()
      reads this
    {
      enqueued == executed + input && pending == |input| && joinable == running
    }

    constructor (engine: QueryEngine, ghost handle: int)
      ensures Valid() && View() == FRESH_WORKER && this.engine == engine && this.handle == handle
    {
      this.engine := engine;
      this.handle := handle;
      input, running, joinable, pending, handedBack := [], true, true, 0, None;
      enqueued, executed := [], [];
    }

    /** Queues a job, on a stopped worker too: there it waits for ever. */
    method Enqueue(job: Job)
      requires Valid()
      modifies this
      ensures Valid() && View() == Bump(Push(old(View()), job))
      ensures input == old(input) + [job] && enqueued == old(enqueued) + [job] && pending == old(pending) + 1
      ensures executed == old(executed) && running == old(running) && joinable == old(joinable)
    {
      input := input + [job];
      enqueued := enqueued + [job];
      pending := pending + 1;
    }

    /** The body of the thread's loop once there is work. */
    method Iterate()
      requires input != [] && joinable
      modifies this, engine
      ensures View() == Iteration(old(View())) && joinable && executed + input == old(executed + input)
      ensures executed == old(executed) + [old(input)[0]] && input == old(input)[1..] && pending == old(pending) - 1
      ensures engine.completed == old(engine.completed) + AsyncOnly([old(input)[0]])
      ensures handedBack == if old(input)[0].sync && !old(input)[0].kind.Close? then Some(old(input)[0])
              else old(handedBack)
    {
      var job := input[0];
      input := input[1..];
      assert executed + [job] + input == old(executed + input);
      assert AsyncOnly([job][1..]) == [];
      executed := executed + [job];
      if job.kind.Close? {
        pending := pending - 1;
        assert engine.completed + [] == engine.completed;
        return;
      }
      if job.sync {
        handedBack := Some(job);
        assert engine.completed + [] == engine.completed;
      } else {
        engine.PushCompleted(job);
      }
      pending := pending - 1;
    }

    /** The thread after the stop flag is down: it empties the queue before it returns. */
    method DrainAndExit()
      requires !running && joinable && enqueued == executed + input && pending == |input|
      modifies this, engine
      ensures input == [] && pending == 0 && !joinable && !running && enqueued == executed
      ensures enqueued == old(enqueued) && executed == old(executed) + old(input)
      ensures engine.completed == old(engine.completed) + AsyncOnly(old(input))
    {
      while input != []
        invariant !running && joinable && enqueued == old(enqueued) && pending == |input|
        invariant executed + input == old(executed) + old(input)
        invariant engine.completed + AsyncOnly(input) == old(engine.completed) + AsyncOnly(old(input))
        decreases |input|
      {
        FirstOff(engine.completed, input);
        Iterate();
      }
      joinable := false;
      assert executed + [] == executed && engine.completed + [] == engine.completed;
    }

    /** Stops a running worker: joins the thread, then discards the queue. Nothing is lost,
        because the thread has left nothing to discard. A stopped worker is left as it is. */
    method Stop()
      requires Valid()
      modifies this, engine
      ensures Valid() && !running && enqueued == old(enqueued)
      ensures old(running) ==>
                input == [] && executed == enqueued && engine.completed == old(engine.completed) + AsyncOnly(old(input))
      ensures !old(running) ==> View() == old(View()) && engine.completed == old(engine.completed)
    {
      if !running {
        return;
      }
      running := false;
      DrainAndExit();
      assert input == [] && pending == 0;
      input := [];
      pending := 0;
    }

    /** Runs a job on the worker while the caller waits, so nothing is queued behind it:
        everything queued before it runs first, and the job that comes back is the one given. */
    method RunSync(job: Job) returns (r: Option<Job>)
      requires Valid() && job.sync && !job.kind.Close?
      modifies this, engine
      ensures Valid() && running == old(running)
      ensures r == if old(running) then Some(job) else None
      ensures r.Some? ==> executed == old(enqueued) + [job] && enqueued == executed
                          && engine.completed == old(engine.completed) + AsyncOnly(old(input))
      ensures r.None? ==> View() == old(View()) && engine.completed == old(engine.completed)
    {
      if !running || !joinable {
        return None;
      }
      ghost var queue := input;
      Enqueue(job);
      AsyncOnlyConcat(queue, [job]);
      assert AsyncOnly(input) == AsyncOnly(queue) by {
        assert [job][1..] == [];
        assert AsyncOnly(queue) + [] == AsyncOnly(queue);
      }
      RunAll(job);
      r := handedBack;
    }

    /** The thread works off a queue that ends with the job its caller waits for. */
    method RunAll(ghost last: Job)
      requires Valid() && running && input != [] && input[|input| - 1] == last && last.sync && !last.kind.Close?
      modifies this, engine
      ensures Valid() && running && enqueued == old(enqueued) && executed == enqueued && input == []
      ensures handedBack == Some(last)
      ensures engine.completed == old(engine.completed) + AsyncOnly(old(input))
    {
      ghost var goal := engine.completed + AsyncOnly(input);
      while input != []
        invariant Valid() && running && enqueued == old(enqueued)
        invariant if input == [] then handedBack == Some(last) else input[|input| - 1] == last
        invariant engine.completed + AsyncOnly(input) == goal
        decreases |input|
      {
        ghost var queue, sink := input, engine.completed;
        FirstOff(sink, queue);
        Iterate();
        assert input == [] ==> queue[0] == last;
        assert input != [] ==> input[|input| - 1] == queue[|queue| - 1];
        assert engine.completed + AsyncOnly(input) == goal;
      }
      assert executed + [] == executed && engine.completed + [] == engine.completed;
    }
  }
}
