/** What every step keeps about where a finished job goes: an asynchronous one to the shared
    sink and from there to its callback, a synchronous one to the caller that waits for it,
    a teardown nowhere. */
module Delivery {
  import opened Options
  import opened Guards
  import opened Registries
  import opened Results
  import opened Workers
  import opened Protocol
  import opened Structure

  /** The jobs of one connection, in order. */
  function Of(c: nat, jobs: seq<Job>): seq<Job> {
    if jobs == [] then [] else (if jobs[0].conn == c then [jobs[0]] else []) + Of(c, jobs[1..])
  }

  function OwedAsync(p: Phase): seq<Job> {
    if p.Ran? && Async(p.job) then [p.job] else []
  }

  function OwedSync(p: Phase): seq<Job> {
    if p.Ran? && p.job.sync && !p.job.kind.Close? then [p.job] else []
  }

  function Promised(c: nat, promise: Option<Job>): seq<Job> {
    if promise.Some? && promise.value.conn == c then [promise.value] else []
  }

  /** Each asynchronous job that has run is in exactly one place: dispatched, drained, in the
      sink, or about to be pushed there; and within a connection those places keep its order. */
  ghost predicate AsyncOk(s: System, c: nat, w: Worker) {
    AsyncOnly(w.executed) == Of(c, s.dispatched) + Of(c, s.done) + Of(c, s.sink) + OwedAsync(w.phase)
  }

  /** Each synchronous job that has run has been returned, is in its promise, or about to be. */
  ghost predicate SyncOk(s: System, c: nat, w: Worker) {
    SyncOnly(w.executed) == Of(c, s.returned) + Promised(c, s.promise) + OwedSync(w.phase)
  }

  /** The synchronous job the main thread is waiting for, or about to. */
  function Waiting(pc: MainPc): Option<Job> {
    if pc.AfterPush? && pc.job.sync then Some(pc.job) else if pc.SyncWait? then Some(pc.job) else None
  }

  /** Only the job being waited for is synchronous, and nothing is queued behind it. */
  ghost predicate OnlyWaited(waiting: Option<Job>, w: Worker) {
    && (forall i :: 0 <= i < |Todo(w)| && Todo(w)[i].sync ==> i == |Todo(w)| - 1 && waiting == Some(Todo(w)[i]))
    && (w.phase.Ran? && w.phase.job.sync ==> waiting == Some(w.phase.job) && Todo(w) == [])
  }

  /** The worker of the job being waited for: it is the last job queued, and it is still to
      run, just run, or in its promise. */
  ghost predicate WaitedOn(job: Job, promise: Option<Job>, w: Worker) {
    && job.sync && !job.kind.Close?
    && w.enqueued != [] && w.enqueued[|w.enqueued| - 1] == job
    && (if promise.Some? then promise == Some(job) && Todo(w) == [] && !w.phase.Ran?
        else if Todo(w) == [] then w.phase == Ran(job) else true)
  }

  ghost predicate WaitOk(s: System) {
    && (s.promise.Some? ==> Waiting(s.pc).Some?)
    && (Waiting(s.pc).Some? ==> Waiting(s.pc).value.conn in s.workers
                                && WaitedOn(Waiting(s.pc).value, s.promise, s.workers[Waiting(s.pc).value.conn]))
    && (forall c :: c in s.workers ==> OnlyWaited(Waiting(s.pc), s.workers[c]))
  }

  ghost predicate PlacesOk(s: System) {
    forall c :: c in s.workers ==> AsyncOk(s, c, s.workers[c]) && SyncOk(s, c, s.workers[c])
  }

  ghost predicate AllHome(conns: set<nat>, jobs: seq<Job>) {
    forall i :: 0 <= i < |jobs| ==> jobs[i].conn in conns
  }

  /** Jobs come from known connections only. */
  ghost predicate HomesOk(s: System) {
    && AllHome(s.workers.Keys, s.sink) && AllHome(s.workers.Keys, s.done)
    && AllHome(s.workers.Keys, s.dispatched) && AllHome(s.workers.Keys, s.returned)
  }

  ghost predicate DeliveryOk(s: System) {
    PlacesOk(s) && HomesOk(s) && WaitOk(s)
  }

  lemma OneMoreHome(conns: set<nat>, jobs: seq<Job>, job: Job)
    requires AllHome(conns, jobs) && job.conn in conns
    ensures AllHome(conns, jobs + [job])
  {
  }

  lemma {:induction false} OfConcat(c: nat, a: seq<Job>, b: seq<Job>)
    ensures Of(c, a + b) == Of(c, a) + Of(c, b)
    decreases a
  {
    if a == [] {
      assert a + b == b;
    } else {
      assert (a + b)[1..] == a[1..] + b;
      OfConcat(c, a[1..], b);
      Regroup(if a[0].conn == c then [a[0]] else [], Of(c, a[1..]), Of(c, b));
    }
  }

  lemma OfOne(c: nat, a: seq<Job>, job: Job)
    ensures Of(c, a + [job]) == if job.conn == c then Of(c, a) + [job] else Of(c, a)
  {
    OfConcat(c, a, [job]);
    assert [job][1..] == [];
  }

  lemma {:induction false} OfNobody(c: nat, jobs: seq<Job>)
    requires forall i :: 0 <= i < |jobs| ==> jobs[i].conn != c
    ensures Of(c, jobs) == []
    decreases jobs
  {
    if jobs == [] {
    } else {
      OfNobody(c, jobs[1..]);
    }
  }

  lemma ExecutedOne(executed: seq<Job>, job: Job)
    ensures AsyncOnly(executed + [job]) == AsyncOnly(executed) + (if Async(job) then [job] else [])
    ensures SyncOnly(executed + [job]) == SyncOnly(executed) + (if job.sync && !job.kind.Close? then [job] else [])
  {
    AsyncOnlyConcat(executed, [job]);
    SyncOnlyConcat(executed, [job]);
    assert [job][1..] == [];
  }

  // --- Steps that deliver nothing and run nothing --------------------------------------------

  /** The worker has run no more and owes no more than before. */
  ghost predicate SameOwed(w: Worker, v: Worker) {
    && v.executed == w.executed && OwedAsync(v.phase) == OwedAsync(w.phase) && OwedSync(v.phase) == OwedSync(w.phase)
  }

  ghost predicate SamePlaces(s: System, t: System) {
    && t.sink == s.sink && t.done == s.done && t.dispatched == s.dispatched && t.returned == s.returned
       && t.promise == s.promise
    && t.workers.Keys == s.workers.Keys
    && forall c :: c in s.workers ==> SameOwed(s.workers[c], t.workers[c])
  }

  lemma PlacesKeep(s: System, t: System)
    requires DeliveryOk(s) && SamePlaces(s, t) && WaitOk(t)
    ensures DeliveryOk(t)
  {
    forall c | c in t.workers ensures AsyncOk(t, c, t.workers[c]) && SyncOk(t, c, t.workers[c]) {
      assert AsyncOk(s, c, s.workers[c]) && SyncOk(s, c, s.workers[c]);
    }
  }

  /** Without anybody waiting, a worker stays in order whoever starts to wait elsewhere. */
  lemma StartToWait(w: Worker, waiting: Option<Job>)
    requires OnlyWaited(None, w)
    ensures OnlyWaited(waiting, w)
  {
  }

  lemma PushOnlyWaited(w: Worker, job: Job)
    requires OnlyWaited(None, w)
    ensures OnlyWaited(if job.sync then Some(job) else None, Push(w, job))
  {
    assert Todo(Push(w, job)) == Todo(w) + [job];
    forall i | 0 <= i < |Todo(w)| ensures !Todo(w)[i].sync {
    }
  }

  /** A push by an idle main thread. */
  lemma PushKeepsDelivery(s: System, job: Job)
    requires DeliveryOk(s) && s.pc == Idle && job.conn in s.workers && (job.sync ==> !job.kind.Close?)
    ensures DeliveryOk(PushJob(s, job))
  {
    PushKeepsWait(s, job);
    PushSamePlaces(s, job);
    PlacesKeep(s, PushJob(s, job));
  }

  lemma PushSamePlaces(s: System, job: Job)
    requires job.conn in s.workers
    ensures SamePlaces(s, PushJob(s, job))
  {
  }

  lemma PushKeepsWait(s: System, job: Job)
    requires WaitOk(s) && s.pc == Idle && job.conn in s.workers && (job.sync ==> !job.kind.Close?)
    ensures WaitOk(PushJob(s, job))
  {
    var t := PushJob(s, job);
    var w := s.workers[job.conn];
    assert Todo(Push(w, job)) == Todo(w) + [job];
    PushOnlyWaited(w, job);
    forall c | c in t.workers ensures OnlyWaited(Waiting(t.pc), t.workers[c]) {
      if c != job.conn {
        StartToWait(s.workers[c], Waiting(t.pc));
      }
    }
  }

  // --- The other steps of the main thread ------------------------------------------------------

  /** The system as delivery sees it is unchanged. */
  ghost predicate SameDelivery(s: System, t: System) {
    && t.sink == s.sink && t.done == s.done && t.dispatched == s.dispatched && t.returned == s.returned
       && t.promise == s.promise
    && t.workers == s.workers && Waiting(t.pc) == Waiting(s.pc)
  }

  lemma SameKeeps(s: System, t: System)
    requires DeliveryOk(s) && SameDelivery(s, t)
    ensures DeliveryOk(t)
  {
    forall c | c in t.workers ensures AsyncOk(t, c, t.workers[c]) && SyncOk(t, c, t.workers[c]) {
      assert AsyncOk(s, c, s.workers[c]) && SyncOk(s, c, s.workers[c]);
    }
  }

  lemma SubmitKeepsDelivery(s: System, h: int, kind: Kind, sql: string, sync: bool, now: int)
    requires DeliveryOk(s) && Free(s) && !kind.Close?
    ensures DeliveryOk(Submit(s, h, kind, sql, sync, now))
  {
    var (reason, reg) := Admit(s.reg, h, kind.Exec?, sql, PendingOf(s, h), now);
    var conn := if h in s.reg.workers then s.reg.workers[h] else 0;
    var job := Job(s.nextJob, conn, sql, kind, sync, TermsOf(GuardsOf(s.reg, h), now));
    AdmittedKeepsDelivery(s, s.(reg := reg, clock := now), job);
  }

  /** Whatever the guards say of a job. */
  lemma AdmittedKeepsDelivery(s: System, t: System, job: Job)
    requires DeliveryOk(s) && SameDelivery(s, t) && t.pc == Idle && !job.kind.Close?
    ensures DeliveryOk(Refuse(t))
    ensures job.conn in t.workers ==> DeliveryOk(PushJob(t, job))
  {
    SameKeeps(s, t);
    SameKeeps(t, Refuse(t));
    if job.conn in t.workers {
      PushKeepsDelivery(t, job);
    }
  }

  lemma RetireSame(s: System, sh: int)
    requires sh in s.reg.statements
    ensures SameDelivery(s, DropNow(s, sh))
    ensures s.reg.statements[sh].id in s.stmts ==> SameDelivery(s, Doom(s, sh))
  {
  }

  lemma CloseKeepsDelivery(s: System, sh: int)
    requires DeliveryOk(s) && Enabled(s, CloseStatement(sh))
    ensures DeliveryOk(CloseStmt(s, sh))
  {
    RetireSame(s, sh);
    var stmt := s.reg.statements[sh];
    var h := HandleOf(s.reg, stmt.conn);
    if h != 0 && h in s.reg.workers && s.reg.workers[h] in s.workers && stmt.id in s.stmts {
      SameKeeps(s, Doom(s, sh));
      PushKeepsDelivery(Doom(s, sh), Teardown(s.nextJob, s.reg.workers[h], stmt.id));
    } else {
      SameKeeps(s, DropNow(s, sh));
    }
  }

  /** The main thread touches a worker, but neither its queue nor what it runs. */
  lemma TouchKeepsDelivery(s: System, c: nat, v: Worker, pc: MainPc)
    requires DeliveryOk(s) && c in s.workers && Waiting(pc) == Waiting(s.pc)
    requires v.executed == s.workers[c].executed && v.phase == s.workers[c].phase && v.input == s.workers[c].input
             && v.enqueued == s.workers[c].enqueued
    ensures DeliveryOk(SetWorker(s, c, v).(pc := pc))
  {
    TouchKeepsWait(s, c, v, pc);
    TouchSamePlaces(s, c, v, pc);
    PlacesKeep(s, SetWorker(s, c, v).(pc := pc));
  }

  lemma TouchSamePlaces(s: System, c: nat, v: Worker, pc: MainPc)
    requires c in s.workers && v.executed == s.workers[c].executed && v.phase == s.workers[c].phase
    ensures SamePlaces(s, SetWorker(s, c, v).(pc := pc))
  {
  }

  lemma TouchKeepsWait(s: System, c: nat, v: Worker, pc: MainPc)
    requires WaitOk(s) && c in s.workers && Waiting(pc) == Waiting(s.pc)
    requires v.executed == s.workers[c].executed && v.phase == s.workers[c].phase && v.input == s.workers[c].input
             && v.enqueued == s.workers[c].enqueued
    ensures WaitOk(SetWorker(s, c, v).(pc := pc))
  {
    assert Todo(v) == Todo(s.workers[c]);
    assert OnlyWaited(Waiting(s.pc), s.workers[c]);
  }

  lemma ConnectKeepsDelivery(s: System, c: nat, multi: bool)
    requires DeliveryOk(s) && Enabled(s, Connect(c, multi))
    ensures DeliveryOk(Take(s, Connect(c, multi)))
  {
    var t := Take(s, Connect(c, multi));
    OfNobody(c, s.sink);
    OfNobody(c, s.done);
    OfNobody(c, s.dispatched);
    OfNobody(c, s.returned);
    forall d | d in t.workers
      ensures AsyncOk(t, d, t.workers[d]) && SyncOk(t, d, t.workers[d]) && OnlyWaited(None, t.workers[d])
    {
      assert d in s.workers ==>
        AsyncOk(s, d, s.workers[d]) && SyncOk(s, d, s.workers[d]) && OnlyWaited(None, s.workers[d]);
    }
  }

  /** A tick takes the sink out whole, and dispatches from its front. */
  lemma DrainKeepsDelivery(s: System)
    requires DeliveryOk(s) && Enabled(s, Drain)
    ensures DeliveryOk(s.(done := s.sink, sink := []))
  {
    var t := s.(done := s.sink, sink := []);
    forall c | c in t.workers ensures AsyncOk(t, c, t.workers[c]) && SyncOk(t, c, t.workers[c]) {
      DrainAsync(s, c, s.workers[c]);
      assert SyncOk(s, c, s.workers[c]);
    }
  }

  lemma DrainAsync(s: System, c: nat, w: Worker)
    requires AsyncOk(s, c, w) && s.done == []
    ensures AsyncOk(s.(done := s.sink, sink := []), c, w)
  {
    assert Of(c, s.dispatched) + [] + Of(c, s.sink) == Of(c, s.dispatched) + Of(c, s.sink) + [];
  }

  /** Dispatching moves the first drained job, whatever the callback does to the cache. */
  function Dispatched(s: System, cache: Cache, inCallback: bool): System
    requires s.done != []
  {
    s.(done := s.done[1..], dispatched := s.dispatched + [s.done[0]], cache := cache, inCallback := inCallback)
  }

  lemma DispatchKeepsDelivery(s: System, cache: Cache, inCallback: bool)
    requires DeliveryOk(s) && s.done != []
    ensures DeliveryOk(Dispatched(s, cache, inCallback))
  {
    DispatchPlaces(s, Dispatched(s, cache, inCallback));
    OneMoreHome(s.workers.Keys, s.dispatched, s.done[0]);
  }

  lemma DispatchPlaces(s: System, t: System)
    requires PlacesOk(s) && s.done != [] && t.workers == s.workers && t.returned == s.returned && t.promise == s.promise
    requires t.done == s.done[1..] && t.dispatched == s.dispatched + [s.done[0]] && t.sink == s.sink
    ensures PlacesOk(t)
  {
    forall c | c in t.workers ensures AsyncOk(t, c, t.workers[c]) && SyncOk(t, c, t.workers[c]) {
      DispatchAsync(s, t, c, s.workers[c]);
      assert SyncOk(s, c, s.workers[c]);
    }
  }

  lemma DispatchAsync(s: System, t: System, c: nat, w: Worker)
    requires AsyncOk(s, c, w) && s.done != []
    requires t.done == s.done[1..] && t.dispatched == s.dispatched + [s.done[0]] && t.sink == s.sink
    ensures AsyncOk(t, c, w)
  {
    OfOne(c, s.dispatched, s.done[0]);
    MoveFirst(Of(c, s.dispatched), s.done[0], Of(c, t.done));
  }

  lemma MoveFirst(before: seq<Job>, job: Job, rest: seq<Job>)
    ensures before + [job] + rest == before + ([job] + rest)
    ensures before + ([] + rest) == before + rest
  {
  }

  /** The caller takes its job out of the promise and nobody waits any more. */
  lemma ReturnKeepsDelivery(s: System, keep: bool)
    requires WorkersOk(s) && DeliveryOk(s) && Enabled(s, SyncReturn(keep))
    ensures DeliveryOk(ReturnSync(s, keep))
  {
    var t := ReturnSync(s, keep);
    ReturnTo(s, keep);
    ReturnKeepsWait(s, t);
    ReturnPlaces(s, t);
    var job := s.pc.job;
    assert s.promise == Some(job) && job.conn in s.workers;
    OneMoreHome(s.workers.Keys, s.returned, job);
  }

  lemma ReturnTo(s: System, keep: bool)
    requires s.promise.Some?
    ensures var t := ReturnSync(s, keep);
            && t.workers == s.workers && t.returned == s.returned + [s.promise.value] && t.promise == None
            && t.sink == s.sink && t.done == s.done && t.dispatched == s.dispatched && t.pc == Idle
  {
  }

  lemma ReturnPlaces(s: System, t: System)
    requires PlacesOk(s) && s.promise.Some? && t.returned == s.returned + [s.promise.value] && t.promise == None
    requires t.workers == s.workers && t.sink == s.sink && t.done == s.done && t.dispatched == s.dispatched
    ensures PlacesOk(t)
  {
    forall c | c in t.workers ensures AsyncOk(t, c, t.workers[c]) && SyncOk(t, c, t.workers[c]) {
      assert AsyncOk(s, c, s.workers[c]);
      ReturnSyncOk(s, t, c, s.workers[c]);
    }
  }

  lemma ReturnKeepsWait(s: System, t: System)
    requires WorkersOk(s) && WaitOk(s) && s.pc.SyncWait? && s.promise.Some?
    requires t.workers == s.workers && t.promise == None && t.pc == Idle
    ensures WaitOk(t)
  {
    forall c | c in t.workers ensures OnlyWaited(None, t.workers[c]) {
      assert OnlyWaited(Some(s.pc.job), s.workers[c]) && HistoryOk(c, s.workers[c]);
      NotWaitedElsewhere(c, s.workers[c], s.pc.job);
    }
  }

  lemma ReturnSyncOk(s: System, t: System, c: nat, w: Worker)
    requires SyncOk(s, c, w) && s.promise.Some? && t.returned == s.returned + [s.promise.value] && t.promise == None
    ensures SyncOk(t, c, w)
  {
    OfOne(c, s.returned, s.promise.value);
    assert Of(c, t.returned) + [] == Of(c, t.returned);
    assert Of(c, s.returned) + [] == Of(c, s.returned);
  }

  /** A worker that waits for nothing of its own has no synchronous job. */
  lemma NotWaitedElsewhere(c: nat, w: Worker, job: Job)
    requires HistoryOk(c, w) && OnlyWaited(Some(job), w)
    requires job.conn != c || (Todo(w) == [] && !w.phase.Ran?)
    ensures OnlyWaited(None, w)
  {
    forall i | 0 <= i < |Todo(w)| ensures !Todo(w)[i].sync {
      assert w.enqueued[|w.executed| + i] == Todo(w)[i];
    }
    if w.phase.Ran? {
      assert w.enqueued[|w.executed| - 1] == w.phase.job;
    }
  }

  // --- The thread's steps --------------------------------------------------------------------

  /** Popping, leaving and finishing move no job past a place. */
  lemma MoveKeepsDelivery(s: System, c: nat, v: Worker)
    requires DeliveryOk(s) && c in s.workers && Todo(v) == Todo(s.workers[c]) && !v.phase.Ran?
             && !s.workers[c].phase.Ran?
    requires v.enqueued == s.workers[c].enqueued && v.executed == s.workers[c].executed
    ensures DeliveryOk(SetWorker(s, c, v))
  {
    MoveKeepsWait(s, c, v);
    MoveSamePlaces(s, c, v);
    PlacesKeep(s, SetWorker(s, c, v));
  }

  lemma MoveSamePlaces(s: System, c: nat, v: Worker)
    requires c in s.workers && v.executed == s.workers[c].executed && !v.phase.Ran? && !s.workers[c].phase.Ran?
    ensures SamePlaces(s, SetWorker(s, c, v))
  {
  }

  lemma MoveKeepsWait(s: System, c: nat, v: Worker)
    requires WaitOk(s) && c in s.workers && Todo(v) == Todo(s.workers[c]) && !v.phase.Ran? && !s.workers[c].phase.Ran?
    requires v.enqueued == s.workers[c].enqueued
    ensures WaitOk(SetWorker(s, c, v))
  {
    assert OnlyWaited(Waiting(s.pc), s.workers[c]);
  }

  /** Running a job makes the worker owe it, unless it was a teardown. */
  lemma RunKeepsDelivery(s: System, c: nat)
    requires DeliveryOk(s) && WorkersOk(s) && c in s.workers && s.workers[c].phase.Holding?
    ensures DeliveryOk(SetWorker(s, c, RunJob(s.workers[c])))
  {
    var w := s.workers[c];
    var t := SetWorker(s, c, RunJob(w));
    RunKeepsWait(s, c);
    forall d | d in t.workers ensures AsyncOk(t, d, t.workers[d]) && SyncOk(t, d, t.workers[d]) {
      assert AsyncOk(s, d, s.workers[d]) && SyncOk(s, d, s.workers[d]);
      if d == c {
        RunOwes(s, c, w);
      }
    }
  }

  lemma RunOwes(s: System, c: nat, w: Worker)
    requires AsyncOk(s, c, w) && SyncOk(s, c, w) && w.phase.Holding?
    ensures AsyncOk(s, c, RunJob(w)) && SyncOk(s, c, RunJob(w))
  {
    ExecutedOne(w.executed, w.phase.job);
    var a := Of(c, s.dispatched) + Of(c, s.done) + Of(c, s.sink);
    var b := Of(c, s.returned) + Promised(c, s.promise);
    assert a + [] == a && b + [] == b;
  }

  lemma RunKeepsWait(s: System, c: nat)
    requires WaitOk(s) && c in s.workers && s.workers[c].phase.Holding? && HistoryOk(c, s.workers[c])
    ensures WaitOk(SetWorker(s, c, RunJob(s.workers[c])))
  {
    var w := s.workers[c];
    var v := RunJob(w);
    assert OnlyWaited(Waiting(s.pc), w);
    assert Todo(w) == [w.phase.job] + w.input && Todo(v) == w.input;
    RunOnlyWaited(Waiting(s.pc), w);
    if Waiting(s.pc).Some? && Waiting(s.pc).value.conn == c {
      RunWaitedOn(Waiting(s.pc).value, s.promise, w);
    }
  }

  lemma RunOnlyWaited(waiting: Option<Job>, w: Worker)
    requires OnlyWaited(waiting, w) && w.phase.Holding?
    ensures OnlyWaited(waiting, RunJob(w))
  {
    var todo := Todo(w);
    assert todo == [w.phase.job] + w.input && todo[0] == w.phase.job;
    assert Todo(RunJob(w)) == w.input == todo[1..];
    assert forall i :: 0 <= i < |w.input| ==> w.input[i] == todo[i + 1];
  }

  lemma RunWaitedOn(job: Job, promise: Option<Job>, w: Worker)
    requires WaitedOn(job, promise, w) && w.phase.Holding? && w.enqueued == w.executed + Todo(w)
    ensures WaitedOn(job, promise, RunJob(w))
  {
    assert Todo(w) == [w.phase.job] + w.input && Todo(RunJob(w)) == w.input;
    assert w.enqueued[|w.enqueued| - 1] == Todo(w)[|Todo(w)| - 1];
  }

  /** Delivery: the job goes to the sink, or into the promise of its waiting caller. */
  lemma DeliverKeepsDelivery(s: System, c: nat)
    requires DeliveryOk(s) && WorkersOk(s) && c in s.workers && s.workers[c].phase.Ran?
    ensures DeliveryOk(DeliverOn(s, c))
  {
    var w := s.workers[c];
    var t := DeliverOn(s, c);
    var job := w.phase.job;
    assert HistoryOk(c, w) && w.enqueued[|w.executed| - 1] == job;
    assert t.workers == s.workers[c := Deliver(w)];
    assert OnlyWaited(Waiting(s.pc), w);
    DeliverKeepsWait(s, c);
    forall d | d in t.workers ensures AsyncOk(t, d, t.workers[d]) && SyncOk(t, d, t.workers[d]) {
      assert AsyncOk(s, d, s.workers[d]) && SyncOk(s, d, s.workers[d]);
      DeliverPlaces(s, t, c, d);
    }
  }

  lemma DeliverKeepsWait(s: System, c: nat)
    requires WaitOk(s) && c in s.workers && s.workers[c].phase.Ran? && HistoryOk(c, s.workers[c])
    requires s.workers[c].phase.job.conn == c
    ensures WaitOk(DeliverOn(s, c)) && (s.workers[c].phase.job.sync ==> s.promise == None)
  {
    var w := s.workers[c];
    var t := DeliverOn(s, c);
    assert OnlyWaited(Waiting(s.pc), w) && Todo(Deliver(w)) == Todo(w);
    assert t.workers == s.workers[c := Deliver(w)] && t.pc == s.pc;
    forall d | d in t.workers ensures OnlyWaited(Waiting(t.pc), t.workers[d]) {
      assert OnlyWaited(Waiting(s.pc), s.workers[d]);
    }
  }

  lemma DeliverPlaces(s: System, t: System, c: nat, d: nat)
    requires c in s.workers && d in s.workers && s.workers[c].phase.Ran? && t == DeliverOn(s, c)
    requires s.workers[c].phase.job.conn == c && !s.workers[c].phase.job.kind.Close?
    requires s.workers[c].phase.job.sync ==> s.promise == None
    requires AsyncOk(s, d, s.workers[d]) && SyncOk(s, d, s.workers[d])
    ensures AsyncOk(t, d, t.workers[d]) && SyncOk(t, d, t.workers[d])
  {
    var job := s.workers[c].phase.job;
    DeliverTo(s, c);
    assert OwedAsync(Delivered) == [] && OwedSync(Delivered) == [];
    if job.sync {
      PromiseKept(Of(d, s.returned), d, job, OwedSync(s.workers[d].phase));
    } else {
      OfOne(d, s.sink, job);
      SinkFed(Of(d, s.dispatched) + Of(d, s.done), Of(d, s.sink), job);
    }
  }

  lemma DeliverTo(s: System, c: nat)
    requires c in s.workers && s.workers[c].phase.Ran?
    ensures var t := DeliverOn(s, c);
            var job := s.workers[c].phase.job;
            && t.workers == s.workers[c := Deliver(s.workers[c])]
            && t.dispatched == s.dispatched && t.done == s.done && t.returned == s.returned && t.pc == s.pc
            && t.sink == (if job.sync then s.sink else s.sink + [job])
            && t.promise == (if job.sync then Some(job) else s.promise)
  {
  }

  lemma SinkFed(before: seq<Job>, sink: seq<Job>, job: Job)
    ensures before + sink + [job] == before + (sink + [job]) + []
    ensures before + sink + [] == before + sink
  {
  }

  lemma PromiseKept(returned: seq<Job>, d: nat, job: Job, owed: seq<Job>)
    ensures returned + [] + [job] == returned + [job] + []
    ensures returned + [] + owed == returned + owed
    ensures returned + owed + [] == returned + owed
  {
  }

  // --- All steps -----------------------------------------------------------------------------

  lemma QuietStepKeepsDelivery(s: System, step: Step)
    requires DeliveryOk(s) && (step.WorkerPop? || step.WorkerExit? || step.WorkerFinish?) && ThreadCan(s, step)
    ensures DeliveryOk(ThreadTake(s, step))
  {
    var v := QuietMove(s, step);
    MoveKeepsDelivery(s, step.c, v);
  }

  /** What the thread makes of its worker. */
  lemma QuietMove(s: System, step: Step) returns (v: Worker)
    requires (step.WorkerPop? || step.WorkerExit? || step.WorkerFinish?) && ThreadCan(s, step)
    ensures var w := s.workers[step.c];
            && ThreadTake(s, step) == SetWorker(s, step.c, v)
            && Todo(v) == Todo(w) && !v.phase.Ran? && !w.phase.Ran?
            && v.enqueued == w.enqueued && v.executed == w.executed
  {
    var w := s.workers[step.c];
    match step
    case WorkerPop(_) =>
      PopKeepsTodo(w);
      v := Pop(w);
    case WorkerExit(_) =>
      v := Exit(w);
    case WorkerFinish(_) =>
      v := Finish(w);
  }

  lemma PopKeepsTodo(w: Worker)
    requires CanPop(w)
    ensures Todo(Pop(w)) == Todo(w)
  {
  }

  lemma ThreadStepKeepsDelivery(s: System, step: Step)
    requires WorkersOk(s) && DeliveryOk(s) && IsThreadStep(step) && ThreadCan(s, step)
    ensures DeliveryOk(ThreadTake(s, step))
  {
    if step.WorkerDeliver? {
      DeliverKeepsDelivery(s, step.c);
    } else if step.WorkerRun? {
      RunOnKeepsDelivery(s, step.c, step.reply);
    } else {
      QuietStepKeepsDelivery(s, step);
    }
  }

  lemma RunOnKeepsDelivery(s: System, c: nat, reply: Reply)
    requires DeliveryOk(s) && WorkersOk(s) && c in s.workers && s.workers[c].phase.Holding?
    ensures DeliveryOk(RunOn(s, c, reply))
  {
    RunKeepsDelivery(s, c);
    RunSame(s, c, reply);
    SameKeeps(SetWorker(s, c, RunJob(s.workers[c])), RunOn(s, c, reply));
  }

  lemma RunSame(s: System, c: nat, reply: Reply)
    requires c in s.workers && s.workers[c].phase.Holding?
    ensures SameDelivery(SetWorker(s, c, RunJob(s.workers[c])), RunOn(s, c, reply))
  {
  }

  /** The steps delivery does not notice. */
  predicate Unnoticed(step: Step) {
    step.SetLimits? || step.Prepare? || step.EndCallback? || step.Script? || step.ResetBegin?
      || step.StatementsCleared? || step.ResetEnd?
  }

  lemma UnnoticedFrame(s: System, step: Step)
    requires Enabled(s, step) && Unnoticed(step)
    ensures SameDelivery(s, Take(s, step))
  {
  }

  lemma JoinSame(s: System)
    requires WorkersOk(s) && Enabled(s, Join)
    ensures SameDelivery(s, JoinWorker(s))
  {
    var c := s.reg.workers[s.pc.handle];
    JoinedWorkerIsDrained(s);
    assert s.workers[c := s.workers[c]] == s.workers;
  }

  lemma JoinKeepsDelivery(s: System)
    requires WorkersOk(s) && DeliveryOk(s) && Enabled(s, Join)
    ensures DeliveryOk(JoinWorker(s))
  {
    JoinSame(s);
    SameKeeps(s, JoinWorker(s));
  }

  lemma CountKeepsDelivery(s: System)
    requires DeliveryOk(s) && Enabled(s, CountPushed)
    ensures DeliveryOk(Take(s, CountPushed))
  {
    var c := s.pc.job.conn;
    var pc := if s.pc.job.sync then SyncWait(s.pc.job) else Idle;
    TakeOfCount(s);
    TouchKeepsDelivery(s, c, Bump(s.workers[c]), pc);
  }

  lemma StopKeepsDelivery(s: System, h: int)
    requires DeliveryOk(s) && Enabled(s, StopWorker(h))
    ensures DeliveryOk(Take(s, StopWorker(h)))
  {
    var c := s.reg.workers[h];
    TakeOfStop(s, h);
    TouchKeepsDelivery(s, c, ClearRunning(s.workers[c]), Joining(h));
  }

  lemma TickKeepsDelivery(s: System, step: Step)
    requires DeliveryOk(s) && Enabled(s, step) && (step.Drain? || step.Dispatch?)
    ensures DeliveryOk(Take(s, step))
  {
    match step
    case Drain => DrainKeepsDelivery(s);
    case Dispatch(fires) => DispatchKeepsDelivery(s, Take(s, step).cache, Take(s, step).inCallback);
  }

  lemma ExecuteKeepsDelivery(s: System, sh: int, now: int)
    requires DeliveryOk(s) && Enabled(s, Execute(sh, now))
    ensures DeliveryOk(Take(s, Execute(sh, now)))
  {
    var stmt := s.reg.statements[sh];
    if HandleOf(s.reg, stmt.conn) == 0 {
      SameKeeps(s, Refuse(s));
    } else {
      SubmitKeepsDelivery(s, HandleOf(s.reg, stmt.conn), Exec(stmt.id), stmt.sql, false, now);
    }
  }

  lemma UnnoticedKeepsDelivery(s: System, step: Step)
    requires DeliveryOk(s) && Enabled(s, step) && Unnoticed(step)
    ensures DeliveryOk(Take(s, step))
  {
    UnnoticedFrame(s, step);
    SameKeeps(s, Take(s, step));
  }

  lemma QueueingKeepsDelivery(s: System, step: Step)
    requires DeliveryOk(s) && Enabled(s, step) && Queueing(step)
    ensures DeliveryOk(Take(s, step))
  {
    match step
    case Connect(c, multi) => ConnectKeepsDelivery(s, c, multi);
    case Query(h, sql, sync, now) =>
      TakeOfQuery(s, h, sql, sync, now);
      SubmitKeepsDelivery(s, h, Plain, sql, sync, now);
    case Execute(sh, now) => ExecuteKeepsDelivery(s, sh, now);
    case CloseStatement(sh) =>
      TakeOfClose(s, sh);
      CloseKeepsDelivery(s, sh);
  }

  /** Every step keeps every job where it belongs. */
  lemma DeliveryStep(s: System, step: Step)
    requires WorkersOk(s) && DeliveryOk(s) && Enabled(s, step)
    ensures DeliveryOk(Take(s, step))
  {
    if IsThreadStep(step) {
      TakeOfThread(s, step);
      ThreadStepKeepsDelivery(s, step);
    } else if Queueing(step) {
      QueueingKeepsDelivery(s, step);
    } else if Unnoticed(step) {
      UnnoticedKeepsDelivery(s, step);
    } else if step.Drain? || step.Dispatch? {
      TickKeepsDelivery(s, step);
    } else {
      HandshakeKeepsDelivery(s, step);
    }
  }

  /** The steps in which the main thread and one worker meet. */
  lemma HandshakeKeepsDelivery(s: System, step: Step)
    requires WorkersOk(s) && DeliveryOk(s) && Enabled(s, step)
    requires step.CountPushed? || step.SyncReturn? || step.StopWorker? || step.Join?
    ensures DeliveryOk(Take(s, step))
  {
    if step.SyncReturn? || step.Join? {
      WaitEndKeepsDelivery(s, step);
    } else if step.CountPushed? {
      CountKeepsDelivery(s);
    } else {
      StopKeepsDelivery(s, step.h);
    }
  }

  /** The main thread gets what it waited for. */
  lemma WaitEndKeepsDelivery(s: System, step: Step)
    requires WorkersOk(s) && DeliveryOk(s) && Enabled(s, step) && (step.SyncReturn? || step.Join?)
    ensures DeliveryOk(Take(s, step))
  {
    match step
    case SyncReturn(keep) =>
      TakeOfReturn(s, keep);
      ReturnKeepsDelivery(s, keep);
    case Join =>
      TakeOfJoin(s);
      JoinKeepsDelivery(s);
  }
}
