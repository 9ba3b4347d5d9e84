/** What every step keeps about the rate limit: the pruned log of each connection against the
    history of the jobs the limit let through to its worker. */
module Rates {
  import opened Guards
  import opened Registries
  import opened Workers
  import opened Protocol
  import opened Structure
  import opened Policy

  /** Jobs let through under a rate limit. */
  predicate IsCounted(job: Job) {
    !job.kind.Close? && job.terms.rateLimit != 0
  }

  /** When they were let through. */
  function Counted(jobs: seq<Job>): seq<int> {
    if jobs == [] then []
    else Counted(jobs[..|jobs| - 1]) + CountedOne(jobs[|jobs| - 1])
  }

  function CountedOne(job: Job): seq<int> {
    if IsCounted(job) then [job.terms.at] else []
  }

  /** A log is the end of the history; what was pruned is older than any window that can still
      be asked about. */
  ghost predicate LogOk(log: seq<int>, history: seq<int>, clock: int) {
    |log| <= |history| && Faithful(Limiter(log, history[..|history| - |log|], history), RATE_WINDOW, clock)
  }

  /** When each counted job was let through, the closed window ending then held no more counted
      jobs than its limit, the job itself included; and time never ran backwards. */
  predicate Paced(jobs: seq<Job>) {
    jobs == [] || (Paced(jobs[..|jobs| - 1]) && LastPaced(Counted(jobs), jobs[|jobs| - 1]))
  }

  predicate LastPaced(times: seq<int>, job: Job) {
    IsCounted(job) ==>
      AtMost(times, job.terms.at) && Within(times, job.terms.at - RATE_WINDOW, job.terms.at) <= job.terms.rateLimit
  }

  ghost predicate TimesOk(jobs: seq<Job>, clock: int) {
    Paced(jobs) && AtMost(Counted(jobs), clock)
  }

  ghost predicate AllTimesOk(s: System) {
    forall c :: c in s.workers ==> TimesOk(s.workers[c].enqueued, s.clock)
  }

  ghost predicate LogsOk(s: System) {
    forall h :: h in s.reg.connections ==>
      s.reg.connections[h] in s.workers
      && LogOk(LogOf(s.reg, h), Counted(s.workers[s.reg.connections[h]].enqueued), s.clock)
  }

  ghost predicate WindowsOk(r: Registry) {
    forall h :: h in r.guards ==> r.guards[h].rateWindow == RATE_WINDOW
  }

  ghost predicate RatesOk(s: System) {
    AllTimesOk(s) && LogsOk(s) && WindowsOk(s.reg)
  }

  // --- Time passes ----------------------------------------------------------------------------

  lemma LogAges(log: seq<int>, history: seq<int>, clock: int, later: int)
    requires LogOk(log, history, clock) && clock <= later
    ensures LogOk(log, history, later)
  {
  }

  lemma TimesAge(jobs: seq<Job>, clock: int, later: int)
    requires TimesOk(jobs, clock) && clock <= later
    ensures TimesOk(jobs, later)
  {
  }

  // --- Steps that let nothing through ------------------------------------------------------------

  /** No job is queued, no log is touched; connections may go. */
  ghost predicate SameRates(s: System, t: System) {
    && t.workers.Keys == s.workers.Keys
    && (forall c :: c in s.workers ==> t.workers[c].enqueued == s.workers[c].enqueued)
    && s.clock <= t.clock && WindowsOk(t.reg)
    && (forall h :: h in t.reg.connections ==>
          h in s.reg.connections && t.reg.connections[h] == s.reg.connections[h] && LogOf(t.reg, h) == LogOf(s.reg, h))
  }

  lemma SameRatesKeep(s: System, t: System)
    requires RatesOk(s) && SameRates(s, t)
    ensures RatesOk(t)
  {
    forall c | c in t.workers ensures TimesOk(t.workers[c].enqueued, t.clock) {
      TimesAge(s.workers[c].enqueued, s.clock, t.clock);
    }
    forall h | h in t.reg.connections
      ensures LogOk(LogOf(t.reg, h), Counted(t.workers[t.reg.connections[h]].enqueued), t.clock)
    {
      LogAges(LogOf(s.reg, h), Counted(s.workers[s.reg.connections[h]].enqueued), s.clock, t.clock);
    }
  }

  /** The registry as the rate limit sees it. */
  ghost predicate SameLogs(r: Registry, r': Registry) {
    && (WindowsOk(r) ==> WindowsOk(r'))
    && forall h :: h in r'.connections ==>
         h in r.connections && r'.connections[h] == r.connections[h] && LogOf(r', h) == LogOf(r, h)
  }

  lemma QuietLogs(s: System, step: Step)
    requires Enabled(s, step) && !Queueing(step)
    ensures Take(s, step).clock == s.clock && SameLogs(s.reg, Take(s, step).reg)
  {
    if step.SyncReturn? {
      ReturnFrame(s, step.keep);
      ReturnReadsNoClock(s, step.keep);
    } else if step.Join? {
      JoinLogs(s);
    } else if IsThreadStep(step) {
      ThreadLogs(s, step);
    } else {
      OtherLogs(s, step);
    }
  }

  lemma ReturnReadsNoClock(s: System, keep: bool)
    requires s.promise.Some?
    ensures ReturnSync(s, keep).clock == s.clock
  {
  }

  lemma JoinLogs(s: System)
    requires Enabled(s, Join)
    ensures JoinWorker(s).clock == s.clock && SameLogs(s.reg, JoinWorker(s).reg)
  {
  }

  lemma ThreadLogs(s: System, step: Step)
    requires IsThreadStep(step) && ThreadCan(s, step)
    ensures ThreadTake(s, step).clock == s.clock && ThreadTake(s, step).reg == s.reg
  {
  }

  lemma OtherLogs(s: System, step: Step)
    requires Enabled(s, step) && !Queueing(step) && !IsThreadStep(step) && !step.SyncReturn? && !step.Join?
    ensures Take(s, step).clock == s.clock && SameLogs(s.reg, Take(s, step).reg)
  {
  }

  // --- Steps that do -------------------------------------------------------------------------------

  lemma OneMoreJob(jobs: seq<Job>, job: Job)
    ensures Counted(jobs + [job]) == Counted(jobs) + CountedOne(job)
    ensures Paced(jobs) && LastPaced(Counted(jobs) + CountedOne(job), job) ==> Paced(jobs + [job])
  {
    assert (jobs + [job])[..|jobs|] == jobs && (jobs + [job])[|jobs|] == job;
  }

  /** A job that is not counted joins a history without changing it. */
  lemma UncountedTimes(jobs: seq<Job>, job: Job, clock: int)
    requires TimesOk(jobs, clock) && !IsCounted(job)
    ensures TimesOk(jobs + [job], clock) && Counted(jobs + [job]) == Counted(jobs)
  {
    OneMoreJob(jobs, job);
    assert Counted(jobs) + [] == Counted(jobs);
  }

  /** A counted job joins a history that has room for it in the window ending now. */
  lemma CountedTimes(jobs: seq<Job>, job: Job, clock: int)
    requires TimesOk(jobs, clock) && IsCounted(job) && clock <= job.terms.at
    requires Within(Counted(jobs), job.terms.at - RATE_WINDOW, job.terms.at) < job.terms.rateLimit
    ensures TimesOk(jobs + [job], job.terms.at) && Counted(jobs + [job]) == Counted(jobs) + [job.terms.at]
  {
    OneMoreJob(jobs, job);
    WithinOneMore(Counted(jobs), job.terms.at, job.terms.at - RATE_WINDOW, job.terms.at);
  }

  lemma WithinOneMore(times: seq<int>, at: int, lo: int, hi: int)
    ensures Within(times + [at], lo, hi) == Within(times, lo, hi) + if lo <= at <= hi then 1 else 0
  {
    WithinConcat(times, [at], lo, hi);
    assert [at][1..] == [] && Within([], lo, hi) == 0;
  }

  /** The limit's decision on a faithful log, and the log it leaves. */
  lemma RateStep(log: seq<int>, history: seq<int>, clock: int, now: int, limit: nat)
    requires LogOk(log, history, clock) && clock <= now
    ensures var (log', ok) := RateCheck(log, now, limit, RATE_WINDOW);
            && (ok <==> limit == 0 || Within(history, now - RATE_WINDOW, now) < limit)
            && LogOk(log', if ok && limit != 0 then history + [now] else history, now)
  {
    var s := Limiter(log, history[..|history| - |log|], history);
    RateDecision(s, RATE_WINDOW, clock, Arrival(now, limit));
    var t := Arrive(s, Arrival(now, limit), RATE_WINDOW);
    assert t.history[..|t.history| - |t.log|] == t.pruned;
  }

  /** The guards as the rate limit meets them: the log changes only when it is asked. */
  lemma AdmitIsRateCheck(r: Registry, h: int, prepared: bool, sql: string, pending: int, now: int)
    requires Coherent(r) && WindowsOk(r) && h in r.connections
    ensures var (reason, r') := Admit(r, h, prepared, sql, pending, now);
            var (log, ok) := RateCheck(LogOf(r, h), now, r.guards[h].maxQueriesPerWindow, RATE_WINDOW);
            && (reason == Accepted ==> ok)
            && (LogOf(r', h) == (if reason == Accepted || reason == RateLimited then log else LogOf(r, h)))
            && (reason == RateLimited ==> !ok) && WindowsOk(r')
  {
    assert r.guards[h := r.guards[h]] == r.guards;
  }

  /** What the guards make of the log of the handle asked about. */
  lemma AdmitRates(s: System, h: int, prepared: bool, sql: string, pending: int, now: int)
    requires Coherent(s.reg) && RatesOk(s) && h in s.reg.connections && s.clock <= now
    ensures var (reason, reg) := Admit(s.reg, h, prepared, sql, pending, now);
            var history := Counted(s.workers[s.reg.connections[h]].enqueued);
            var limit := s.reg.guards[h].maxQueriesPerWindow;
            && (reason == Accepted ==> limit == 0 || Within(history, now - RATE_WINDOW, now) < limit)
            && LogOk(LogOf(reg, h), if reason == Accepted && limit != 0 then history + [now] else history, now)
            && WindowsOk(reg)
  {
    var log := LogOf(s.reg, h);
    var history := Counted(s.workers[s.reg.connections[h]].enqueued);
    RateStep(log, history, s.clock, now, s.reg.guards[h].maxQueriesPerWindow);
    LogAges(log, history, s.clock, now);
    AdmitIsRateCheck(s.reg, h, prepared, sql, pending, now);
  }

  /** A query the guards let through, on its worker's queue. */
  lemma AcceptedRates(s: System, reg: Registry, h: int, job: Job, now: int)
    requires Coherent(s.reg) && RatesOk(s) && h in s.reg.connections && s.clock <= now
    requires job.conn == s.reg.connections[h] && !job.kind.Close? && job.terms.at == now
    requires reg.connections == s.reg.connections && WindowsOk(reg)
    requires forall k :: k != h ==> LogOf(reg, k) == LogOf(s.reg, k)
    requires var history := Counted(s.workers[job.conn].enqueued);
             && (IsCounted(job) ==> Within(history, now - RATE_WINDOW, now) < job.terms.rateLimit)
             && LogOk(LogOf(reg, h), history + CountedOne(job), now)
    ensures RatesOk(PushJob(s.(reg := reg, clock := now), job))
  {
    var t := PushJob(s.(reg := reg, clock := now), job);
    PushedTimes(s, job, now);
    forall c | c in t.workers ensures TimesOk(t.workers[c].enqueued, now) {
      if c != job.conn {
        TimesAge(s.workers[c].enqueued, s.clock, now);
      }
    }
    forall k | k in t.reg.connections
      ensures LogOk(LogOf(t.reg, k), Counted(t.workers[t.reg.connections[k]].enqueued), now)
    {
      if k != h {
        LogAges(LogOf(s.reg, k), Counted(s.workers[s.reg.connections[k]].enqueued), s.clock, now);
      }
    }
  }

  lemma PushedTimes(s: System, job: Job, now: int)
    requires AllTimesOk(s) && job.conn in s.workers && s.clock <= now && !job.kind.Close? && job.terms.at == now
    requires IsCounted(job) ==>
             Within(Counted(s.workers[job.conn].enqueued), now - RATE_WINDOW, now) < job.terms.rateLimit
    ensures var jobs := Push(s.workers[job.conn], job).enqueued;
            TimesOk(jobs, now) && Counted(jobs) == Counted(s.workers[job.conn].enqueued) + CountedOne(job)
  {
    var jobs := s.workers[job.conn].enqueued;
    if IsCounted(job) {
      CountedTimes(jobs, job, s.clock);
    } else {
      TimesAge(jobs, s.clock, now);
      UncountedTimes(jobs, job, now);
      assert Counted(jobs) + [] == Counted(jobs);
    }
  }

  lemma SubmitKeepsRates(s: System, h: int, kind: Kind, sql: string, sync: bool, now: int)
    requires Coherent(s.reg) && RatesOk(s) && s.clock <= now && !kind.Close?
    ensures RatesOk(Submit(s, h, kind, sql, sync, now))
  {
    var (reason, reg) := Admit(s.reg, h, kind.Exec?, sql, PendingOf(s, h), now);
    AdmitKeeps(s.reg, h, kind.Exec?, sql, PendingOf(s, h), now);
    if h !in s.reg.connections {
      SameRatesKeep(s, Refuse(s.(reg := reg, clock := now)));
    } else {
      AdmitRates(s, h, kind.Exec?, sql, PendingOf(s, h), now);
      if reason == Accepted {
        var job := Job(s.nextJob, s.reg.workers[h], sql, kind, sync, TermsOf(GuardsOf(s.reg, h), now));
        var history := Counted(s.workers[job.conn].enqueued);
        assert history + [] == history;
        AcceptedRates(s, reg, h, job, now);
      } else {
        RefusedRates(s, reg, h, now);
      }
    }
  }

  lemma RefusedRates(s: System, reg: Registry, h: int, now: int)
    requires RatesOk(s) && h in s.reg.connections && s.clock <= now
    requires reg.connections == s.reg.connections && WindowsOk(reg)
    requires forall k :: k != h ==> LogOf(reg, k) == LogOf(s.reg, k)
    requires LogOk(LogOf(reg, h), Counted(s.workers[s.reg.connections[h]].enqueued), now)
    ensures RatesOk(Refuse(s.(reg := reg, clock := now)))
  {
    var t := Refuse(s.(reg := reg, clock := now));
    forall c | c in t.workers ensures TimesOk(t.workers[c].enqueued, now) {
      TimesAge(s.workers[c].enqueued, s.clock, now);
    }
    forall k | k in t.reg.connections
      ensures LogOk(LogOf(t.reg, k), Counted(t.workers[t.reg.connections[k]].enqueued), now)
    {
      if k != h {
        LogAges(LogOf(s.reg, k), Counted(s.workers[s.reg.connections[k]].enqueued), s.clock, now);
      }
    }
  }

  lemma TeardownKeepsRates(s: System, job: Job)
    requires RatesOk(s) && job.conn in s.workers && job.kind.Close?
    ensures RatesOk(PushJob(s, job))
  {
    UncountedTimes(s.workers[job.conn].enqueued, job, s.clock);
    var t := PushJob(s, job);
    assert forall c :: c in s.workers && c != job.conn ==> t.workers[c] == s.workers[c];
  }

  lemma RetireLogs(s: System, sh: int)
    requires sh in s.reg.statements && WindowsOk(s.reg)
    ensures SameRates(s, DropNow(s, sh))
    ensures s.reg.statements[sh].id in s.stmts ==> SameRates(s, Doom(s, sh))
  {
  }

  lemma CloseKeepsRates(s: System, sh: int)
    requires RatesOk(s) && Enabled(s, CloseStatement(sh))
    ensures RatesOk(CloseStmt(s, sh))
  {
    RetireLogs(s, sh);
    var stmt := s.reg.statements[sh];
    var h := HandleOf(s.reg, stmt.conn);
    if h != 0 && h in s.reg.workers && s.reg.workers[h] in s.workers && stmt.id in s.stmts {
      SameRatesKeep(s, Doom(s, sh));
      TeardownKeepsRates(Doom(s, sh), Teardown(s.nextJob, s.reg.workers[h], stmt.id));
    } else {
      SameRatesKeep(s, DropNow(s, sh));
    }
  }

  lemma ConnectKeepsRates(s: System, c: nat, multi: bool)
    requires Coherent(s.reg) && RatesOk(s) && Enabled(s, Connect(c, multi))
    ensures RatesOk(Take(s, Connect(c, multi)))
  {
    var t := Take(s, Connect(c, multi));
    ConnectLogs(s.reg, c, multi);
    assert t.workers == s.workers[c := FRESH_WORKER] && t.reg == AddConnection(s.reg, c, multi) && t.clock == s.clock;
    ConnectedRates(s, t, c);
  }

  lemma ConnectLogs(r: Registry, c: nat, multi: bool)
    requires Coherent(r) && WindowsOk(r)
    ensures var r' := AddConnection(r, c, multi);
            && WindowsOk(r') && LogOf(r', r.nextHandle) == [] && r'.connections == r.connections[r.nextHandle := c]
            && forall h :: h in r.connections ==> h != r.nextHandle && LogOf(r', h) == LogOf(r, h)
  {
  }

  lemma ConnectedRates(s: System, t: System, c: nat)
    requires AllTimesOk(s) && LogsOk(s) && c !in s.workers && t.clock == s.clock && WindowsOk(t.reg)
    requires t.workers == s.workers[c := FRESH_WORKER] && t.reg.connections == s.reg.connections[s.reg.nextHandle := c]
    requires LogOf(t.reg, s.reg.nextHandle) == []
    requires forall h :: h in s.reg.connections ==> h != s.reg.nextHandle && LogOf(t.reg, h) == LogOf(s.reg, h)
    ensures RatesOk(t)
  {
    assert forall d :: d in s.workers ==> t.workers[d] == s.workers[d];
  }

  lemma QueueingKeepsRates(s: System, step: Step)
    requires Coherent(s.reg) && RatesOk(s) && Enabled(s, step) && Queueing(step)
    ensures RatesOk(Take(s, step))
  {
    match step
    case Connect(c, multi) => ConnectKeepsRates(s, c, multi);
    case Query(h, sql, sync, now) =>
      TakeOfQuery(s, h, sql, sync, now);
      SubmitKeepsRates(s, h, Plain, sql, sync, now);
    case Execute(sh, now) =>
      var stmt := s.reg.statements[sh];
      if HandleOf(s.reg, stmt.conn) == 0 {
        SameRatesKeep(s, Refuse(s));
      } else {
        SubmitKeepsRates(s, HandleOf(s.reg, stmt.conn), Exec(stmt.id), stmt.sql, false, now);
      }
    case CloseStatement(sh) =>
      TakeOfClose(s, sh);
      CloseKeepsRates(s, sh);
  }

  /** Every step keeps every log faithful to its connection's history. */
  lemma RatesStep(s: System, step: Step)
    requires Coherent(s.reg) && RatesOk(s) && Enabled(s, step)
    ensures RatesOk(Take(s, step))
  {
    if Queueing(step) {
      QueueingKeepsRates(s, step);
    } else {
      QuietLogs(s, step);
      QueuesNothing(s, step);
      SameRatesKeep(s, Take(s, step));
    }
  }

  // --- What the histories say --------------------------------------------------------------------

  /** When every job was within its own limit, no window anywhere holds more counted jobs than
      the largest of those limits. */
  lemma {:induction false} WindowsBounded(jobs: seq<Job>, clock: int, cap: nat, start: int)
    requires TimesOk(jobs, clock) && forall i :: 0 <= i < |jobs| ==> jobs[i].terms.rateLimit <= cap
    ensures Within(Counted(jobs), start, start + RATE_WINDOW) <= cap
    decreases |jobs|
  {
    if jobs == [] {
    } else {
      var n := |jobs| - 1;
      InitTimes(jobs, clock);
      WindowsBounded(jobs[..n], clock, cap, start);
      LastInWindow(jobs, start);
    }
  }

  lemma InitTimes(jobs: seq<Job>, clock: int)
    requires TimesOk(jobs, clock) && jobs != []
    ensures TimesOk(jobs[..|jobs| - 1], clock)
  {
    var init := jobs[..|jobs| - 1];
    assert forall i :: 0 <= i < |Counted(init)| ==> Counted(jobs)[i] == Counted(init)[i];
  }

  lemma LastInWindow(jobs: seq<Job>, start: int)
    requires jobs != [] && Paced(jobs)
    ensures var job := jobs[|jobs| - 1];
            if IsCounted(job) && start <= job.terms.at <= start + RATE_WINDOW
            then Within(Counted(jobs), start, start + RATE_WINDOW) <= job.terms.rateLimit
            else Within(Counted(jobs), start, start + RATE_WINDOW)
                 == Within(Counted(jobs[..|jobs| - 1]), start, start + RATE_WINDOW)
  {
    var job := jobs[|jobs| - 1];
    var before := Counted(jobs[..|jobs| - 1]);
    assert before + [] == before;
    if IsCounted(job) {
      WithinOneMore(before, job.terms.at, start, start + RATE_WINDOW);
      if start <= job.terms.at <= start + RATE_WINDOW {
        WithinNarrower(Counted(jobs), start, start + RATE_WINDOW, job.terms.at - RATE_WINDOW, job.terms.at);
      }
    }
  }
}
