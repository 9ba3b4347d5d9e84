/** The per-connection query guards: the decision a query meets before it may reach a worker,
    and the sliding-window rate limit in particular. */
module Guards {
  import opened SqlScan

  /** Limits of one connection; 0 means no limit. */
  datatype QueryGuards = QueryGuards(maxQueryLength: nat, maxQueriesPerWindow: nat, rateWindow: nat,
    maxPendingQueries: nat)

  type Ticks = t: nat | 0 < t witness 1

  /** The one window any connection is ever given: one second, in whatever ticks the clock has. */
  const RATE_WINDOW: Ticks

  const DEFAULT_GUARDS := QueryGuards(1024 * 1024, 0, RATE_WINDOW, 0)

  /** The limits a query met when it was let through, and when that was. */
  datatype Terms = Terms(lengthCap: nat, rateLimit: nat, at: int)

  const NO_TERMS := Terms(0, 0, 0)

  function TermsOf(g: QueryGuards, now: int): Terms {
    Terms(g.maxQueryLength, g.maxQueriesPerWindow, now)
  }

  datatype GuardReject = Accepted | UnknownHandle | TooLong | RateLimited | TooManyPending | MultiStatement

  /** The log without the entries that fell out of the window: it stops at the first that did not. */
  function Prune(log: seq<int>, cutoff: int): (r: seq<int>)
    ensures |r| <= |log|
  {
    if log == [] || log[0] >= cutoff then log else Prune(log[1..], cutoff)
  }

  /** The entries pruning takes off. */
  function Stale(log: seq<int>, cutoff: int): (r: seq<int>)
    ensures log == r + Prune(log, cutoff)
  {
    if log == [] || log[0] >= cutoff then [] else [log[0]] + Stale(log[1..], cutoff)
  }

  /** One query meeting the rate limit at time `now`: the new log, and whether it passes. */
  function RateCheck(log: seq<int>, now: int, limit: nat, window: nat): (seq<int>, bool) {
    if limit == 0 then (log, true)
    else
      var kept := Prune(log, now - window);
      if |kept| >= limit then (kept, false) else (kept + [now], true)
  }

  /** The guards in the order the component applies them. A prepared statement's execution
      carries no SQL of its own and skips the first two. */
  ghost function Check(g: QueryGuards, multiOk: bool, prepared: bool, sql: string,
                       pending: int, log: seq<int>, now: int): (GuardReject, seq<int>) {
    if !prepared && g.maxQueryLength != 0 && |sql| > g.maxQueryLength then (TooLong, log)
    else if !prepared && !multiOk && IsMulti(sql) then (MultiStatement, log)
    else if g.maxPendingQueries != 0 && pending >= g.maxPendingQueries then (TooManyPending, log)
    else
      var (log', ok) := RateCheck(log, now, g.maxQueriesPerWindow, g.rateWindow);
      (if ok then Accepted else RateLimited, log')
  }

  // --- The rate limit against the full history ---------------------------------------------

  /** How many entries of `history` lie in the closed interval. */
  function Within(history: seq<int>, lo: int, hi: int): nat {
    if history == [] then 0
    else (if lo <= history[0] <= hi then 1 else 0) + Within(history[1..], lo, hi)
  }

  /** A query arriving at a rate-limited connection, with the limit in force at that moment. */
  datatype Arrival = Arrival(now: int, limit: nat)

  /** The log the component keeps, what it has pruned from it, and, independently of both,
      the full history of logged acceptances. */
  datatype Limiter = Limiter(log: seq<int>, pruned: seq<int>, history: seq<int>)

  function Arrive(s: Limiter, a: Arrival, window: nat): Limiter {
    var (log, ok) := RateCheck(s.log, a.now, a.limit, window);
    var stale := if a.limit == 0 then [] else Stale(s.log, a.now - window);
    Limiter(log, s.pruned + stale, if ok && a.limit != 0 then s.history + [a.now] else s.history)
  }

  function Arrivals(arrivals: seq<Arrival>, window: nat): Limiter {
    if arrivals == [] then Limiter([], [], [])
    else Arrive(Arrivals(arrivals[..|arrivals| - 1], window), arrivals[|arrivals| - 1], window)
  }

  predicate Monotone(arrivals: seq<Arrival>) {
    forall i, j :: 0 <= i < j < |arrivals| ==> arrivals[i].now <= arrivals[j].now
  }

  predicate Sorted(s: seq<int>) {
    |s| <= 1 || (s[0] <= s[1] && Sorted(s[1..]))
  }

  predicate AtMost(s: seq<int>, hi: int) {
    forall i :: 0 <= i < |s| ==> s[i] <= hi
  }

  predicate AtLeast(s: seq<int>, lo: int) {
    forall i :: 0 <= i < |s| ==> s[i] >= lo
  }

  predicate Below(s: seq<int>, lo: int) {
    forall i :: 0 <= i < |s| ==> s[i] < lo
  }

  /** The history is sorted and past; the log is what is left of it once entries older than
      any window that can still be asked about are gone. */
  ghost predicate Faithful(s: Limiter, window: nat, last: int) {
    && s.history == s.pruned + s.log
    && Sorted(s.log) && AtMost(s.log, last)
    && Below(s.pruned, last - window)
  }

  lemma {:induction false} WithinConcat(a: seq<int>, b: seq<int>, lo: int, hi: int)
    ensures Within(a + b, lo, hi) == Within(a, lo, hi) + Within(b, lo, hi)
    decreases a
  {
    if a == [] {
      assert a + b == b;
    } else {
      assert (a + b)[1..] == a[1..] + b;
      WithinConcat(a[1..], b, lo, hi);
    }
  }

  lemma {:induction false} WithinAllOrNone(h: seq<int>, lo: int, hi: int)
    ensures AtLeast(h, lo) && AtMost(h, hi) ==> Within(h, lo, hi) == |h|
    ensures Below(h, lo) ==> Within(h, lo, hi) == 0
    decreases h
  {
    if h == [] {
    } else {
      WithinAllOrNone(h[1..], lo, hi);
    }
  }

  lemma {:induction false} WithinNarrower(h: seq<int>, lo: int, hi: int, lo': int, hi': int)
    requires lo' <= lo && AtMost(h, hi')
    ensures Within(h, lo, hi) <= Within(h, lo', hi')
    decreases h
  {
    if h == [] {
    } else {
      WithinNarrower(h[1..], lo, hi, lo', hi');
    }
  }

  lemma {:induction false} SortedFrom(s: seq<int>, lo: int)
    requires Sorted(s) && s != [] && s[0] >= lo
    ensures AtLeast(s, lo)
    decreases s
  {
    if |s| <= 1 {
    } else {
      SortedFrom(s[1..], lo);
    }
  }

  lemma {:induction false} SortedSnoc(s: seq<int>, x: int)
    requires Sorted(s) && AtMost(s, x)
    ensures Sorted(s + [x])
    decreases s
  {
    if |s| > 1 {
      SortedSnoc(s[1..], x);
      assert (s + [x])[1..] == s[1..] + [x];
    } else if |s| == 1 {
      assert (s + [x])[1..] == [x];
    }
  }

  /** What pruning leaves of a sorted log is its part in the window, and what it drops is older. */
  lemma {:induction false} PruneIsWindow(log: seq<int>, cutoff: int, now: int)
    requires Sorted(log) && AtMost(log, now)
    ensures var kept := Prune(log, cutoff);
            |kept| == Within(log, cutoff, now) && Sorted(kept) && AtMost(kept, now) && Below(Stale(log, cutoff), cutoff)
    decreases log
  {
    if log == [] || log[0] >= cutoff {
      if log == [] {
      } else {
        SortedFrom(log, cutoff);
      }
      WithinAllOrNone(log, cutoff, now);
    } else {
      PruneIsWindow(log[1..], cutoff, now);
    }
  }

  /** What lets a query through: a length within the cap and a single statement, unless it is
      the execution of a prepared one; fewer jobs pending than the cap; and fewer logged
      queries in the window than the limit. A refusal names the first of these that fails. */
  lemma CheckAccepts(g: QueryGuards, multiOk: bool, prepared: bool, sql: string, pending: int, log: seq<int>, now: int)
    requires Sorted(log) && AtMost(log, now)
    ensures var short := prepared || g.maxQueryLength == 0 || |sql| <= g.maxQueryLength;
            var single := prepared || multiOk || !IsMulti(sql);
            var room := g.maxPendingQueries == 0 || pending < g.maxPendingQueries;
            var rare := g.maxQueriesPerWindow == 0 || Within(log, now - g.rateWindow, now) < g.maxQueriesPerWindow;
            var (reason, log') := Check(g, multiOk, prepared, sql, pending, log, now);
            && (reason == Accepted <==> short && single && room && rare)
            && (reason == TooLong <==> !short)
            && (reason == MultiStatement <==> short && !single)
            && (reason == TooManyPending <==> short && single && !room)
            && (reason == RateLimited <==> short && single && room && !rare)
            && (log' != log ==> short && single && room && g.maxQueriesPerWindow != 0)
  {
    RateIsWindow(log, now, g.maxQueriesPerWindow, g.rateWindow);
  }

  lemma RateIsWindow(log: seq<int>, now: int, limit: nat, window: nat)
    requires Sorted(log) && AtMost(log, now)
    ensures RateCheck(log, now, limit, window).1 <==> limit == 0 || Within(log, now - window, now) < limit
    ensures limit == 0 ==> RateCheck(log, now, limit, window).0 == log
  {
    PruneIsWindow(log, now - window, now);
  }

  lemma HistorySplit(pruned: seq<int>, log: seq<int>, lo: int, hi: int)
    requires Below(pruned, lo)
    ensures Within(pruned + log, lo, hi) == Within(log, lo, hi)
  {
    WithinConcat(pruned, log, lo, hi);
    WithinAllOrNone(pruned, lo, hi);
  }

  /** The decision against the pruned log is the decision against the full history. */
  lemma RateDecision(s: Limiter, window: nat, last: int, a: Arrival)
    requires Faithful(s, window, last) && last <= a.now
    ensures RateCheck(s.log, a.now, a.limit, window).1
       <==> a.limit == 0 || Within(s.history, a.now - window, a.now) < a.limit
    ensures Faithful(Arrive(s, a, window), window, a.now)
  {
    var cutoff := a.now - window;
    PruneIsWindow(s.log, cutoff, a.now);
    HistorySplit(s.pruned, s.log, cutoff, a.now);
    StillFaithful(s, window, last, a, Prune(s.log, cutoff), Stale(s.log, cutoff));
  }

  lemma StillFaithful(s: Limiter, window: nat, last: int, a: Arrival, kept: seq<int>, stale: seq<int>)
    requires Faithful(s, window, last) && last <= a.now
    requires kept == Prune(s.log, a.now - window) && stale == Stale(s.log, a.now - window)
    requires Sorted(kept) && AtMost(kept, a.now) && Below(stale, a.now - window)
    ensures Faithful(Arrive(s, a, window), window, a.now)
  {
    if a.limit == 0 {
      assert s.pruned + [] == s.pruned;
      assert Arrive(s, a, window) == s;
    } else {
      var t := Limiter(kept, s.pruned + stale, s.history);
      Repruned(s, stale, kept, window, a.now);
      if |kept| < a.limit {
        Logged(t, window, a.now);
        assert Arrive(s, a, window) == Limiter(t.log + [a.now], t.pruned, t.history + [a.now]);
      } else {
        assert Arrive(s, a, window) == t;
      }
    }
  }

  lemma Repruned(s: Limiter, stale: seq<int>, kept: seq<int>, window: nat, now: int)
    requires s.history == s.pruned + s.log && s.log == stale + kept
    requires Below(s.pruned, now - window) && Below(stale, now - window) && Sorted(kept) && AtMost(kept, now)
    ensures Faithful(Limiter(kept, s.pruned + stale, s.history), window, now)
  {
  }

  lemma Logged(s: Limiter, window: nat, now: int)
    requires Faithful(s, window, now)
    ensures Faithful(Limiter(s.log + [now], s.pruned, s.history + [now]), window, now)
  {
    SortedSnoc(s.log, now);
    assert s.pruned + s.log + [now] == s.pruned + (s.log + [now]);
  }

  lemma {:induction false} ArrivalsFaithful(arrivals: seq<Arrival>, window: nat, last: int)
    requires Monotone(arrivals) && forall i :: 0 <= i < |arrivals| ==> arrivals[i].now <= last
    ensures Faithful(Arrivals(arrivals, window), window, last)
    decreases arrivals
  {
    if arrivals == [] {
    } else {
      var n := |arrivals| - 1;
      ArrivalsFaithful(arrivals[..n], window, arrivals[n].now);
      RateDecision(Arrivals(arrivals[..n], window), window, arrivals[n].now, arrivals[n]);
    }
  }

  /** Over every run of arrivals on a monotone clock, a query passes exactly when fewer
      acceptances than the limit lie in the closed window ending at its arrival. */
  lemma RateLimiterRefinesHistory(arrivals: seq<Arrival>, a: Arrival, window: nat)
    requires Monotone(arrivals + [a])
    ensures var s := Arrivals(arrivals, window);
            RateCheck(s.log, a.now, a.limit, window).1
            <==> a.limit == 0 || Within(s.history, a.now - window, a.now) < a.limit
  {
    forall i | 0 <= i < |arrivals| ensures arrivals[i].now <= a.now {
      assert (arrivals + [a])[i] == arrivals[i] && (arrivals + [a])[|arrivals|] == a;
    }
    assert forall i :: 0 <= i < |arrivals| ==> (arrivals + [a])[i] == arrivals[i];
    ArrivalsFaithful(arrivals, window, a.now);
    RateDecision(Arrivals(arrivals, window), window, a.now, a);
  }

  /** Hence no closed window of that length, wherever it starts, ever holds more acceptances
      than the largest limit in force, and the log is never longer than that. */
  lemma {:induction false} EveryWindowIsBounded(arrivals: seq<Arrival>, window: nat, cap: nat, start: int)
    requires Monotone(arrivals) && forall i :: 0 <= i < |arrivals| ==> arrivals[i].limit <= cap
    ensures Within(Arrivals(arrivals, window).history, start, start + window) <= cap
    ensures |Arrivals(arrivals, window).log| <= cap
    decreases arrivals
  {
    if arrivals == [] {
    } else {
      var n := |arrivals| - 1;
      var a := arrivals[n];
      EveryWindowIsBounded(arrivals[..n], window, cap, start);
      ArrivalsFaithful(arrivals[..n], window, a.now);
      OneMoreArrival(Arrivals(arrivals[..n], window), window, a, cap, start);
    }
  }

  lemma OneMoreArrival(s: Limiter, window: nat, a: Arrival, cap: nat, start: int)
    requires Faithful(s, window, a.now) && a.limit <= cap
    requires Within(s.history, start, start + window) <= cap && |s.log| <= cap
    ensures Within(Arrive(s, a, window).history, start, start + window) <= cap && |Arrive(s, a, window).log| <= cap
  {
    RateDecision(s, window, a.now, a);
    WithinConcat(s.history, [a.now], start, start + window);
    assert Within([a.now], start, start + window) == (if start <= a.now <= start + window then 1 else 0) by {
      assert [a.now][1..] == [];
    }
    if start <= a.now <= start + window {
      assert AtMost(s.history, a.now);
      WithinNarrower(s.history, start, start + window, a.now - window, a.now);
    }
  }
}
