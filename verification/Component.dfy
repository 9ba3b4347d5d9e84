/** The component as the repository writes it: registries updated in place, one worker object
    per connection. Module `Registries` says what each operation makes of the registries. */
module Component {
  import opened Options
  import opened SqlScan
  import opened Scanners
  import opened Guards
  import opened Parsing
  import opened Models
  import opened Registries
  import opened Results
  import opened Workers

  class MySQLComponent {
    const engine: QueryEngine
    const cache: ResultCache
    var connections: map<int, nat>
    var workers: map<int, ConnectionWorker>
    var multiStatementAllowed: map<int, bool>
    var guards: map<int, QueryGuards>
    var rateLog: map<int, seq<int>>
    var statements: map<int, PreparedStatement>
    var nextHandle: int
    var nextStatement: int
    var nextJob: nat
    /** Statements destroyed by the main thread because their connection was gone. */
    var destroyedInline: set<nat>

    /** The workers in `workers`. */
    ghost var Repr: set<ConnectionWorker>

    ghost function View(): Registry
      reads this`connections, this`multiStatementAllowed, this`guards, this`rateLog, this`statements, this`nextHandle,
        this`nextStatement
    {
      Registry(connections, connections, multiStatementAllowed, guards, rateLog, statements, nextHandle, nextStatement)
    }

    ghost predicate Serves(w: ConnectionWorker)
      reads w
    {
      w.Valid() && w.running && w.engine == engine
    }

    /** Every worker runs and serves one handle. */
    ghost predicate WorkersRun()
      reads this`workers, this`Repr, Repr
    {
      && (forall h :: h in workers ==> workers[h] in Repr && workers[h].handle == h)
      && (forall w :: w in Repr ==> Serves(w))
    }

    ghost predicate Valid()
      reads this, Repr
    {
      Coherent(View()) && workers.Keys == connections.Keys && WorkersRun()
    }

    constructor ()
      ensures Valid() && View() == EMPTY_REGISTRY && fresh(engine) && fresh(cache) && destroyedInline == {}
      ensures cache.Valid() && cache.View() == EMPTY_CACHE
    {
      engine := new QueryEngine();
      cache := new ResultCache();
      connections, workers, multiStatementAllowed := map[], map[], map[];
      guards, rateLog, statements := map[], map[], map[];
      nextHandle, nextStatement, nextJob, destroyedInline, Repr := 1, 1, 0, {}, {};
    }

    // --- What the workers owe the sink ----------------------------------------------------------

    /** The asynchronous jobs each worker still has to run, in order. */
    ghost function Owed(): map<int, seq<Job>>
      reads this`workers, this`Repr, Repr
    {
      map h | h in workers && workers[h] in Repr :: AsyncOnly(workers[h].input)
    }

    /** What reaches the sink when the workers are stopped in that order. */
    static ghost function Flushed(order: seq<int>, owed: map<int, seq<Job>>): seq<Job> {
      if order == [] then []
      else
        var last := order[|order| - 1];
        Flushed(order[..|order| - 1], owed) + if last in owed then owed[last] else []
    }

    /** Each of the handles once. */
    static ghost predicate InSomeOrder(order: seq<int>, handles: set<int>) {
      && (forall h :: h in order <==> h in handles)
      && forall i, j :: 0 <= i < j < |order| ==> order[i] != order[j]
    }

    static lemma OneMoreStopped(order: seq<int>, h: int, handles: set<int>, owed: map<int, seq<Job>>)
      requires InSomeOrder(order, handles) && h !in handles && h in owed
      ensures InSomeOrder(order + [h], handles + {h})
      ensures Flushed(order + [h], owed) == Flushed(order, owed) + owed[h]
    {
      assert (order + [h])[..|order|] == order;
    }

    // --- Connections ------------------------------------------------------------------------

    method AddConnection(conn: Option<nat>, multi: bool) returns (handle: int)
      requires Valid() && (conn.Some? ==> forall h :: h in connections ==> connections[h] != conn.value)
      modifies this
      ensures Valid()
      ensures conn.None? ==> handle == 0 && View() == old(View()) && workers == old(workers)
      ensures conn.Some? ==> handle == old(nextHandle) && handle !in old(connections)
                             && View() == Registries.AddConnection(old(View()), conn.value, multi)
                             && connections == old(connections)[handle := conn.value]
                             && guards == old(guards)[handle := QueryGuards(1048576, 0, RATE_WINDOW, 0)]
                             && multiStatementAllowed == old(multiStatementAllowed)[handle := multi]
                             && fresh(workers[handle]) && workers[handle].View() == FRESH_WORKER
                             && forall h :: h in old(workers) ==> h in workers && workers[h] == old(workers)[h]
    {
      if conn.None? {
        return 0;
      }
      handle := Register(conn.value, multi);
      StartWorker(handle);
    }

    method Register(conn: nat, multi: bool) returns (handle: int)
      requires Coherent(View()) && forall h :: h in connections ==> connections[h] != conn
      modifies this`connections, this`multiStatementAllowed, this`guards, this`nextHandle
      ensures handle == old(nextHandle) && handle !in old(connections)
      ensures View() == Registries.AddConnection(old(View()), conn, multi) && Coherent(View())
    {
      Registries.AddConnectionKeeps(View(), conn, multi);
      handle := nextHandle;
      nextHandle := nextHandle + 1;
      connections := connections[handle := conn];
      multiStatementAllowed := multiStatementAllowed[handle := multi];
      guards := guards[handle := DEFAULT_GUARDS];
    }

    /** Gives a new handle its dedicated worker. */
    method StartWorker(handle: int)
      requires WorkersRun() && handle !in workers
      modifies this`workers, this`Repr
      ensures WorkersRun() && handle in workers && Repr == old(Repr) + {workers[handle]}
              && workers == old(workers)[handle := workers[handle]]
      ensures fresh(workers[handle]) && workers[handle].View() == FRESH_WORKER
    {
      var worker := new ConnectionWorker(engine, handle);
      workers := workers[handle := worker];
      Repr := Repr + {worker};
    }

    /** Looks a connection up among the registered ones; 0 when it is not there, or null. */
    method ConnectionHandleOf(conn: Option<nat>) returns (handle: int)
      requires Coherent(View())
      ensures handle == if conn.None? then 0 else HandleOf(View(), conn.value)
      ensures handle != 0 ==> handle in connections && conn == Some(connections[handle])
      ensures handle == 0 ==> forall h :: h in connections ==> conn != Some(connections[h])
    {
      if conn.None? {
        return 0;
      }
      var todo := connections.Keys;
      while exists h :: h in todo
        invariant todo <= connections.Keys
        invariant forall h :: h in connections && h !in todo ==> connections[h] != conn.value
        decreases |todo|
      {
        var h :| h in todo;
        if connections[h] == conn.value {
          HandleOfRegistered(View(), h);
          return h;
        }
        todo := todo - {h};
      }
      handle := 0;
    }

    /** Stops the worker before the connection goes. */
    method RemoveConnection(handle: int) returns (found: bool)
      requires Valid()
      modifies this, engine, Repr
      ensures Valid() && View() == Registries.RemoveConnection(old(View()), handle)
              && found == (handle in old(connections))
      ensures handle in old(workers) ==>
                var w := old(workers)[handle]; !w.running && w.enqueued == old(w.enqueued) && w.executed == w.enqueued
      ensures engine.completed
              == old(engine.completed) + old(if handle in workers then AsyncOnly(workers[handle].input) else [])
      ensures workers == old(workers) - {handle}
      ensures forall h :: h in workers ==> unchanged(workers[h])
    {
      found := handle in connections;
      DropWorker(handle);
      Forget(handle);
    }

    method Forget(handle: int)
      requires Coherent(View())
      modifies this`multiStatementAllowed, this`guards, this`rateLog, this`connections
      ensures View() == Registries.RemoveConnection(old(View()), handle) && Coherent(View())
    {
      Registries.RemoveConnectionKeeps(View(), handle);
      multiStatementAllowed := multiStatementAllowed - {handle};
      guards := guards - {handle};
      rateLog := rateLog - {handle};
      connections := connections - {handle};
    }

    /** Stops one worker, which empties its queue first, and lets it go. */
    method DropWorker(handle: int)
      requires WorkersRun()
      modifies this`workers, this`Repr, engine, Repr
      ensures WorkersRun() && workers == old(workers) - {handle} && Repr <= old(Repr)
      ensures forall h :: h in workers ==> unchanged(workers[h])
      ensures handle in old(workers) ==>
                var w := old(workers)[handle]; !w.running && w.enqueued == old(w.enqueued) && w.executed == w.enqueued
      ensures engine.completed
              == old(engine.completed) + old(if handle in workers then AsyncOnly(workers[handle].input) else [])
    {
      if handle in workers {
        assert Serves(workers[handle]);
        workers[handle].Stop();
        Repr := Repr - {workers[handle]};
      } else {
        assert engine.completed + [] == engine.completed;
      }
      workers := workers - {handle};
    }

    /** Stops every worker, then forgets every connection. What the workers owed is in the sink,
        worker by worker. */
    method ClearConnections(ghost owed: map<int, seq<Job>>) returns (ghost order: seq<int>)
      requires Valid() && owed == Owed()
      modifies this, engine, Repr
      ensures Valid() && View() == Registries.ClearConnections(old(View()))
      ensures forall h :: h in old(workers) ==>
                var w := old(workers)[h]; !w.running && w.enqueued == old(w.enqueued) && w.executed == w.enqueued
      ensures InSomeOrder(order, old(workers).Keys)
      ensures engine.completed == old(engine.completed) + Flushed(order, owed)
      ensures destroyedInline == old(destroyedInline)
    {
      order := StopAll(owed);
      workers, connections, Repr := map[], map[], {};
      multiStatementAllowed, guards, rateLog := map[], map[], map[];
    }

    method StopAll(ghost owed: map<int, seq<Job>>) returns (ghost order: seq<int>)
      requires WorkersRun() && owed == Owed()
      modifies engine, Repr
      ensures forall h :: h in workers ==>
                !workers[h].running && workers[h].enqueued == old(workers[h].enqueued)
                && workers[h].executed == workers[h].enqueued
      ensures InSomeOrder(order, workers.Keys)
      ensures engine.completed == old(engine.completed) + Flushed(order, owed)
    {
      ghost var start := engine.completed;
      var todo := workers.Keys;
      order := [];
      assert start + [] == start;
      while exists h :: h in todo
        invariant todo <= workers.Keys
        invariant forall h :: h in todo ==> unchanged(workers[h])
        invariant forall h :: h in workers && h !in todo ==>
                  !workers[h].running && workers[h].enqueued == old(workers[h].enqueued)
                  && workers[h].executed == workers[h].enqueued
        invariant InSomeOrder(order, workers.Keys - todo) && engine.completed == start + Flushed(order, owed)
        decreases |todo|
      {
        var h :| h in todo;
        StopOne(h, owed[h]);
        Regroup(start, Flushed(order, owed), owed[h]);
        OneMoreStopped(order, h, workers.Keys - todo, owed);
        order := order + [h];
        todo := todo - {h};
      }
    }

    method StopOne(h: int, ghost owed: seq<Job>)
      requires h in workers && Serves(workers[h]) && owed == AsyncOnly(workers[h].input)
      modifies workers[h], engine
      ensures !workers[h].running && workers[h].enqueued == old(workers[h].enqueued)
      ensures workers[h].executed == workers[h].enqueued && engine.completed == old(engine.completed) + owed
    {
      workers[h].Stop();
    }

    // --- The guards ---------------------------------------------------------------------------

    /** Drops what fell out of the window, from the front. */
    method PruneLog(log: seq<int>, cutoff: int) returns (kept: seq<int>)
      ensures kept == Prune(log, cutoff)
    {
      kept := log;
      while kept != [] && kept[0] < cutoff
        invariant Prune(kept, cutoff) == Prune(log, cutoff)
        decreases |kept|
      {
        kept := kept[1..];
      }
    }

    method CheckGuards(h: int, prepared: bool, sql: string, now: int) returns (reason: GuardReject)
      requires Coherent(View()) && h in workers && h in connections
      modifies this`guards, this`rateLog
      ensures (reason, View()) == Admit(old(View()), h, prepared, sql, workers[h].pending, now)
    {
      var g := if h in guards then guards[h] else DEFAULT_GUARDS;
      guards := guards[h := g];
      if !prepared && g.maxQueryLength != 0 && |sql| > g.maxQueryLength {
        return TooLong;
      }
      if !prepared {
        var multiOk := h in multiStatementAllowed && multiStatementAllowed[h];
        if !multiOk {
          var multi, _ := IsMultiStatement(sql);
          if multi {
            return MultiStatement;
          }
        }
      }
      if g.maxPendingQueries != 0 && workers[h].pending >= g.maxPendingQueries {
        return TooManyPending;
      }
      reason := RateGuard(h, g.maxQueriesPerWindow, g.rateWindow, now);
    }

    /** The last guard: the window's log is pruned, then the query is turned away or logged. */
    method RateGuard(h: int, limit: nat, window: nat, now: int) returns (reason: GuardReject)
      modifies this`rateLog
      ensures limit == 0 ==> reason == Accepted && rateLog == old(rateLog)
      ensures limit != 0 ==> var (log, ok) := RateCheck(LogOf(old(View()), h), now, limit, window);
                             reason == (if ok then Accepted else RateLimited) && rateLog == old(rateLog)[h := log]
    {
      if limit != 0 {
        var log := PruneLog(if h in rateLog then rateLog[h] else [], now - window);
        rateLog := rateLog[h := log];
        if |log| >= limit {
          return RateLimited;
        }
        rateLog := rateLog[h := log + [now]];
      }
      reason := Accepted;
    }

    // --- Jobs ---------------------------------------------------------------------------------

    /** The job a query or execution becomes on its connection. */
    ghost function JobFor(h: int, kind: Kind, sql: string, sync: bool, now: int): Job
      reads this
    {
      var conn := if h in connections then connections[h] else 0;
      Job(nextJob, conn, sql, kind, sync, TermsOf(if h in guards then guards[h] else DEFAULT_GUARDS, now))
    }

    ghost function PendingOn(h: int): int
      reads this, Repr
    {
      if h in workers && workers[h] in Repr then workers[h].pending else 0
    }

    /** Puts a job on one worker's queue and leaves the others alone. */
    method PushOn(h: int, job: Job)
      requires WorkersRun() && h in workers
      modifies workers[h]
      ensures WorkersRun() && workers[h].View() == Bump(Push(old(workers[h].View()), job))
      ensures forall k :: k in workers && k != h ==> unchanged(workers[k])
    {
      assert Serves(workers[h]);
      workers[h].Enqueue(job);
    }

    /** What queuing and running synchronously begin with: the worker is looked up and the
        guards decide. */
    method Screen(h: int, kind: Kind, sql: string, sync: bool, now: int) returns (reason: GuardReject, job: Option<Job>)
      requires Valid()
      modifies this`guards, this`rateLog, this`nextJob
      ensures (reason, View()) == Admit(old(View()), h, kind.Exec?, sql, old(PendingOn(h)), now)
      ensures Valid()
      ensures job == if reason == Accepted then Some(old(JobFor(h, kind, sql, sync, now))) else None
      ensures reason == Accepted ==> h in workers
    {
      AdmitKeeps(View(), h, kind.Exec?, sql, PendingOn(h), now);
      if h !in workers {
        return UnknownHandle, None;
      }
      var terms := TermsOf(if h in guards then guards[h] else DEFAULT_GUARDS, now);
      var j := Job(nextJob, connections[h], sql, kind, sync, terms);
      nextJob := nextJob + 1;
      reason := CheckGuards(h, kind.Exec?, sql, now);
      job := if reason == Accepted then Some(j) else None;
    }

    /** A job the guards accept is queued, as it is and on its own connection's worker; a job
        they refuse changes nothing but the rate log. */
    method EnqueueJob(h: int, kind: Kind, sql: string, now: int) returns (reason: GuardReject)
      requires Valid()
      modifies this`guards, this`rateLog, this`nextJob, Repr
      ensures Valid()
      ensures (reason, View()) == Admit(old(View()), h, kind.Exec?, sql, old(PendingOn(h)), now)
      ensures reason == Accepted ==>
                h in workers
                  && workers[h].View() == Bump(Push(old(workers[h].View()), old(JobFor(h, kind, sql, false, now))))
      ensures reason == Accepted ==>
                h in old(connections) && h in old(guards)
                  && old(JobFor(h, kind, sql, false, now))
                     == Job(old(nextJob), old(connections)[h], sql, kind, false,
                            Terms(old(guards)[h].maxQueryLength, old(guards)[h].maxQueriesPerWindow, now))
      ensures forall k :: k in workers && k != h ==> unchanged(workers[k])
      ensures h in workers && reason != Accepted ==> unchanged(workers[h])
    {
      var job: Option<Job>;
      reason, job := Screen(h, kind, sql, false, now);
      if job.Some? {
        PushOn(h, job.value);
      }
    }

    /** A synchronous job the guards accept comes back itself, when everything queued before it
        on its connection has run and it has, too. */
    method RunJobSync(h: int, sql: string, now: int) returns (reason: GuardReject, job: Option<Job>)
      requires Valid()
      modifies this`guards, this`rateLog, this`nextJob, engine, Repr
      ensures Valid()
      ensures (reason, View()) == Admit(old(View()), h, false, sql, old(PendingOn(h)), now)
      ensures job == if reason == Accepted then Some(old(JobFor(h, Plain, sql, true, now))) else None
      ensures reason == Accepted ==>
                h in old(connections) && h in old(guards)
                  && job.value == Job(old(nextJob), old(connections)[h], sql, Plain, true,
                                      Terms(old(guards)[h].maxQueryLength, old(guards)[h].maxQueriesPerWindow, now))
      ensures reason == Accepted ==>
                h in workers && workers[h].enqueued == old(workers[h].enqueued) + [job.value]
                  && workers[h].executed == workers[h].enqueued
                  && engine.completed == old(engine.completed) + AsyncOnly(old(workers[h].input))
      ensures reason != Accepted ==> engine.completed == old(engine.completed)
      ensures forall k :: k in workers && k != h ==> unchanged(workers[k])
      ensures h in workers && reason != Accepted ==> unchanged(workers[h])
    {
      reason, job := Screen(h, Plain, sql, true, now);
      if job.Some? {
        job := RunOn(h, job.value);
      }
    }

    method RunOn(h: int, job: Job) returns (r: Option<Job>)
      requires WorkersRun() && h in workers && job.sync && !job.kind.Close?
      modifies workers[h], engine
      ensures WorkersRun() && r == Some(job)
      ensures workers[h].enqueued == old(workers[h].enqueued) + [job] && workers[h].executed == workers[h].enqueued
      ensures engine.completed == old(engine.completed) + AsyncOnly(old(workers[h].input))
      ensures forall k :: k in workers && k != h ==> unchanged(workers[k])
    {
      assert Serves(workers[h]);
      r := workers[h].RunSync(job);
    }

    /** Sets one limit of a registered connection. */
    method SetLimit(handle: int, kind: int, value: int) returns (ok: bool)
      requires Valid()
      modifies this`guards
      ensures Valid() && ok == (handle in old(guards) && value >= 0 && 0 <= kind <= 2)
      ensures !ok ==> View() == old(View())
      ensures ok ==> View() == SetGuards(old(View()), handle, WithLimit(old(guards)[handle], kind, value))
      ensures ok ==> var g := old(guards)[handle];
                     guards == old(guards)[handle :=
                       if kind == 0 then QueryGuards(value, g.maxQueriesPerWindow, g.rateWindow, g.maxPendingQueries)
                       else if kind == 1 then QueryGuards(g.maxQueryLength, g.maxQueriesPerWindow, g.rateWindow, value)
                       else QueryGuards(g.maxQueryLength, value, RATE_WINDOW, g.maxPendingQueries)]
    {
      if handle !in guards || value < 0 || kind < 0 || kind > 2 {
        return false;
      }
      guards := guards[handle := WithLimit(guards[handle], kind, value)];
      ok := true;
    }

    static function WithLimit(g: QueryGuards, kind: int, value: nat): QueryGuards {
      match kind
      case 0 => g.(maxQueryLength := value)
      case 1 => g.(maxPendingQueries := value)
      case _ => g.(maxQueriesPerWindow := value, rateWindow := RATE_WINDOW)
    }

    /** Builds the SQL of a model operation and queues it. Whatever the model is bound to, the
        job is never turned away as several statements, and what is queued reads back as
        exactly the statement the bindings describe. */
    method ExecuteModel(m: Model, op: ModelOp, mem: Memory, esc: string -> string, now: int)
      returns (queued: bool, reason: GuardReject)
      requires Valid() && Escapes(esc) && PrintsFloats(mem)
      modifies this`guards, this`rateLog, this`nextJob, Repr
      ensures Valid() && reason != MultiStatement
      ensures var sql := Text(ModelStatement(op, m.table, m.key, m.fields, mem, esc));
              var h := m.connectionHandle;
              if h in connections && Buildable(op, m.key, m.fields)
              then (reason, View()) == Admit(old(View()), h, false, sql, old(PendingOn(h)), now)
              else reason == UnknownHandle && View() == old(View())
      ensures queued <==> reason == Accepted
      ensures !queued ==> forall k :: k in workers ==> unchanged(workers[k])
      ensures var stmt := ModelStatement(op, m.table, m.key, m.fields, mem, esc);
              var h := m.connectionHandle;
              queued ==>
                && h in workers && Parse(Text(stmt)) == stmt
                && stmt.Some? && Means(stmt.value, op, m.table, m.key, m.fields, mem)
                && workers[h].View()
                   == Bump(Push(old(workers[h].View()), old(JobFor(h, Plain, Text(stmt), false, now))))
      ensures forall k :: k in workers && k != m.connectionHandle ==> unchanged(workers[k])
    {
      if m.connectionHandle !in connections {
        return false, UnknownHandle;
      }
      var sql := m.Sql(op, mem, esc);
      ModelStatementMeans(op, m.table, m.key, m.fields, mem, esc);
      reason := EnqueueSingle(m.connectionHandle, sql, now);
      queued := reason == Accepted;
    }

    method EnqueueSingle(h: int, sql: string, now: int) returns (reason: GuardReject)
      requires Valid() && (sql != "" ==> !IsMulti(sql))
      modifies this`guards, this`rateLog, this`nextJob, Repr
      ensures Valid() && reason != MultiStatement
      ensures if sql != ""
              then (reason, View()) == Admit(old(View()), h, false, sql, old(PendingOn(h)), now)
              else reason == UnknownHandle && View() == old(View())
      ensures reason == Accepted ==>
                h in workers
                && workers[h].View() == Bump(Push(old(workers[h].View()), old(JobFor(h, Plain, sql, false, now))))
      ensures forall k :: k in workers && k != h ==> unchanged(workers[k])
      ensures h in workers && reason != Accepted ==> unchanged(workers[h])
    {
      if sql == "" {
        return UnknownHandle;
      }
      SingleIsNotRefused(View(), h, sql, PendingOn(h), now);
      reason := EnqueueJob(h, Plain, sql, now);
    }

    // --- Statements ---------------------------------------------------------------------------

    method AddStatement(stmt: Option<PreparedStatement>) returns (handle: int)
      requires Valid()
      modifies this`statements, this`nextStatement
      ensures Valid()
      ensures stmt.None? ==> handle == 0 && View() == old(View())
      ensures stmt.Some? ==> handle == old(nextStatement) && handle !in old(statements)
                             && View() == Registries.AddStatement(old(View()), stmt.value)
    {
      if stmt.None? {
        return 0;
      }
      StatementsKeep(View(), stmt.value, 0);
      handle := nextStatement;
      nextStatement := nextStatement + 1;
      statements := statements[handle := stmt.value];
    }

    method PushTeardown(h: int, stmt: PreparedStatement)
      requires WorkersRun() && h in workers
      modifies this`nextJob, workers[h]
      ensures WorkersRun()
              && workers[h].View() == Bump(Push(old(workers[h].View()), old(Teardown(nextJob, stmt.conn, stmt.id))))
      ensures forall k :: k in workers && k != h ==> unchanged(workers[k])
    {
      PushOn(h, Teardown(nextJob, stmt.conn, stmt.id));
      nextJob := nextJob + 1;
    }

    /** A statement goes to a teardown job on its own connection's worker, or, when that is
        gone, is destroyed here. */
    method Retire(stmt: PreparedStatement) returns (ghost h: int)
      requires Valid()
      modifies this`nextJob, this`destroyedInline, Repr
      ensures Valid() && h == HandleOf(View(), stmt.conn)
      ensures h != 0 ==> h in workers && destroyedInline == old(destroyedInline)
                         && workers[h].View()
                            == Bump(Push(old(workers[h].View()), old(Teardown(nextJob, stmt.conn, stmt.id))))
      ensures h == 0 ==> destroyedInline == old(destroyedInline) + {stmt.id}
      ensures forall k :: k in workers && k != h ==> unchanged(workers[k])
    {
      var handle := ConnectionHandleOf(Some(stmt.conn));
      if handle != 0 && handle in workers {
        PushTeardown(handle, stmt);
      } else {
        destroyedInline := destroyedInline + {stmt.id};
      }
      h := handle;
    }

    method Unlist(sh: int) returns (stmt: PreparedStatement)
      requires Coherent(View()) && sh in statements
      modifies this`statements
      ensures stmt == old(statements)[sh] && View() == Registries.RemoveStatement(old(View()), sh) && Coherent(View())
    {
      stmt := statements[sh];
      StatementsKeep(View(), stmt, sh);
      statements := statements - {sh};
    }

    method RemoveStatement(sh: int) returns (found: bool, ghost h: int)
      requires Valid()
      modifies this`statements, this`nextJob, this`destroyedInline, Repr
      ensures Valid() && View() == Registries.RemoveStatement(old(View()), sh) && found == (sh in old(statements))
      ensures found ==> h == HandleOf(View(), old(statements)[sh].conn)
      ensures found && h != 0 ==> h in workers && destroyedInline == old(destroyedInline)
                                  && workers[h].View()
                                     == Bump(Push(old(workers[h].View()),
                                       old(Teardown(nextJob, statements[sh].conn, statements[sh].id))))
      ensures found && h == 0 ==> destroyedInline == old(destroyedInline) + {old(statements)[sh].id}
      ensures !found ==> h == 0 && destroyedInline == old(destroyedInline)
      ensures forall k :: k in workers && k != h ==> unchanged(workers[k])
    {
      found := sh in statements;
      if !found {
        assert statements - {sh} == statements;
        h := 0;
        return;
      }
      var stmt := Unlist(sh);
      h := Retire(stmt);
    }

    /** What becomes of a statement that leaves the registry: a teardown on the worker of its
        connection, or its end right here when that connection is gone. */
    ghost predicate Retired(stmt: PreparedStatement)
      reads this`workers, this`connections, this`destroyedInline, this`Repr, Repr
    {
      var h := HandleIn(connections, stmt.conn);
      if h != 0 then h in workers && workers[h] in Repr && HasTeardown(workers[h].enqueued, stmt.id)
      else stmt.id in destroyedInline
    }

    /** Removes one statement; those removed before stay on their way out. */
    method RemoveNext(sh: int, ghost gone: set<PreparedStatement>)
      requires Valid() && sh in statements && forall x :: x in gone ==> Retired(x)
      modifies this`statements, this`nextJob, this`destroyedInline, Repr
      ensures Valid() && View() == Registries.RemoveStatement(old(View()), sh)
      ensures forall x :: x in gone || x == old(statements)[sh] ==> Retired(x)
      ensures forall k :: k in workers ==> AsyncOnly(workers[k].input) == old(AsyncOnly(workers[k].input))
    {
      ghost var stmt := statements[sh];
      var _, h := RemoveStatement(sh);
      if h != 0 {
        assert workers[h].enqueued[|old(workers[h].enqueued)|].kind == Close(stmt.id);
        TeardownOwesNothing(old(workers[h].input), old(Teardown(nextJob, stmt.conn, stmt.id)));
        assert workers[h].View().input == old(workers[h].input) + [old(Teardown(nextJob, stmt.conn, stmt.id))];
      }
      forall x | x in gone ensures Retired(x) {
        assert old(Retired(x));
        var k := HandleIn(connections, x.conn);
        if k != 0 {
          TeardownStays(old(workers[k].enqueued), workers[k].enqueued, x.id);
        }
      }
    }

    /** Removes them all. */
    method ClearStatements()
      requires Valid()
      modifies this`statements, this`nextJob, this`destroyedInline, Repr
      ensures Valid() && View() == old(View()).(statements := map[])
      ensures forall sh :: sh in old(statements) ==> Retired(old(statements)[sh])
      ensures forall k :: k in workers ==> AsyncOnly(workers[k].input) == old(AsyncOnly(workers[k].input))
    {
      var handles := statements.Keys;
      RemoveEach(handles);
      statements := map[];
    }

    method RemoveEach(handles: set<int>)
      requires Valid() && handles == statements.Keys
      modifies this`statements, this`nextJob, this`destroyedInline, Repr
      ensures Valid() && View() == old(View()).(statements := map[])
      ensures forall sh :: sh in old(statements) ==> Retired(old(statements)[sh])
      ensures forall k :: k in workers ==> AsyncOnly(workers[k].input) == old(AsyncOnly(workers[k].input))
    {
      var todo := handles;
      ghost var gone: set<PreparedStatement> := {};
      while exists sh :: sh in todo
        invariant Valid() && View() == old(View()).(statements := statements)
        invariant forall k :: k in workers ==> AsyncOnly(workers[k].input) == old(AsyncOnly(workers[k].input))
        invariant todo == statements.Keys <= old(statements).Keys
        invariant forall x :: x in gone ==> Retired(x)
        invariant forall sh :: sh in old(statements) ==>
                    if sh in statements then statements[sh] == old(statements)[sh] else old(statements)[sh] in gone
        decreases |todo|
      {
        var sh :| sh in todo;
        RemoveNext(sh, gone);
        gone := gone + {old(statements)[sh]};
        todo := todo - {sh};
      }
      assert statements == map[];
    }

    /** Teardowns owe the sink nothing. */
    method RetireStatements()
      requires Valid()
      modifies this`statements, this`nextJob, this`destroyedInline, Repr
      ensures Valid() && View() == old(View()).(statements := map[])
      ensures forall sh :: sh in old(statements) ==> Retired(old(statements)[sh])
      ensures Owed() == old(Owed())
    {
      ghost var owed := Owed();
      ClearStatements();
      forall h | h in workers ensures h in owed && h in Owed() && Owed()[h] == owed[h] {
      }
    }

    // --- Restarting -----------------------------------------------------------------------------

    /** A reset leaves the registries as they were at first. Before it returns every job ever
        queued on any worker has run, among them a teardown for every statement whose
        connection was still there; the others are destroyed here. What finished before or while
        the workers stopped stays in the sink. */
    method Reset() returns (ghost order: seq<int>)
      requires Valid() && cache.Valid()
      modifies this, engine, cache, Repr
      ensures Valid() && View() == EMPTY_REGISTRY
      ensures cache.Valid() && cache.View() == Apply(old(cache.View()), CacheOp.Reset)
      ensures cache.active == None && cache.index == 0 && cache.saved == map[] && cache.next == 1
      ensures forall h :: h in old(workers) ==>
                var w := old(workers)[h]; !w.running && w.executed == w.enqueued
      ensures forall sh :: sh in old(statements) ==>
                var h := HandleIn(old(connections), old(statements)[sh].conn);
                if h == 0 then old(statements)[sh].id in destroyedInline
                else h in old(workers) && HasTeardown(old(workers)[h].executed, old(statements)[sh].id)
      ensures InSomeOrder(order, old(workers).Keys)
      ensures engine.completed == old(engine.completed) + Flushed(order, old(Owed()))
    {
      DropResults();
      ghost var owed := Owed();
      RetireStatements();
      order := DropConnections(old(statements), owed);
    }

    method DropConnections(ghost retired: map<int, PreparedStatement>, ghost owed: map<int, seq<Job>>)
      returns (ghost order: seq<int>)
      requires Valid() && owed == Owed() && statements == map[] && forall sh :: sh in retired ==> Retired(retired[sh])
      modifies this, engine, Repr
      ensures Valid() && View() == EMPTY_REGISTRY
      ensures forall h :: h in old(workers) ==>
                var w := old(workers)[h]; !w.running && w.executed == w.enqueued
      ensures forall sh :: sh in retired ==>
                var h := HandleIn(old(connections), retired[sh].conn);
                if h == 0 then retired[sh].id in destroyedInline
                else h in old(workers) && HasTeardown(old(workers)[h].executed, retired[sh].id)
      ensures InSomeOrder(order, old(workers).Keys)
      ensures engine.completed == old(engine.completed) + Flushed(order, owed)
    {
      order := CloseConnections(owed);
    }

    /** The connections go, and their handles and the statements' begin anew. */
    method CloseConnections(ghost owed: map<int, seq<Job>>) returns (ghost order: seq<int>)
      requires Valid() && owed == Owed() && statements == map[]
      modifies this, engine, Repr
      ensures Valid() && View() == EMPTY_REGISTRY && destroyedInline == old(destroyedInline)
      ensures forall h :: h in old(workers) ==>
                var w := old(workers)[h]; !w.running && w.enqueued == old(w.enqueued) && w.executed == w.enqueued
      ensures InSomeOrder(order, old(workers).Keys)
      ensures engine.completed == old(engine.completed) + Flushed(order, owed)
    {
      nextStatement := 1;
      assert owed == Owed();
      order := ClearConnections(owed);
      nextHandle := 1;
    }

    method DropResults()
      requires cache.Valid()
      modifies cache
      ensures cache.Valid() && cache.View() == Apply(old(cache.View()), CacheOp.Reset)
      ensures cache.active == None && cache.index == 0 && cache.saved == map[] && cache.next == 1
    {
      cache.Clear();
      cache.saved := map[];
      cache.next := 1;
    }
  }
}
