/** The component's registries as values: what each main-thread operation makes of them. */
module Registries {
  import opened SqlScan
  import opened Guards

  /** A prepared statement's identity and the identity of the connection it was made on.
      Identities stand for addresses and are never reused. */
  datatype PreparedStatement = PreparedStatement(id: nat, conn: nat, sql: string)

  datatype Registry = Registry(
    connections: map<int, nat>, workers: map<int, nat>, multi: map<int, bool>,
    guards: map<int, QueryGuards>, rateLog: map<int, seq<int>>,
    statements: map<int, PreparedStatement>, nextHandle: int, nextStatement: int)

  const EMPTY_REGISTRY := Registry(map[], map[], map[], map[], map[], map[], 1, 1)

  /** Connections, workers, policies and guards share one set of handles, all of them issued
      since the last reset; so do the statements' handles, and no connection has two. */
  ghost predicate Coherent(r: Registry) {
    && r.workers == r.connections
    && r.multi.Keys == r.connections.Keys == r.guards.Keys
    && r.rateLog.Keys <= r.connections.Keys
    && (forall h :: h in r.connections ==> 1 <= h < r.nextHandle)
    && (forall h :: h in r.statements ==> 1 <= h < r.nextStatement)
    && (forall h, k :: h in r.connections && k in r.connections && r.connections[h] == r.connections[k] ==> h == k)
    && r.nextHandle >= 1 && r.nextStatement >= 1
  }

  function AddConnection(r: Registry, conn: nat, multi: bool): Registry {
    var h := r.nextHandle;
    r.(connections := r.connections[h := conn], workers := r.workers[h := conn], multi := r.multi[h := multi],
       guards := r.guards[h := DEFAULT_GUARDS], nextHandle := h + 1)
  }

  function RemoveConnection(r: Registry, h: int): Registry {
    r.(connections := r.connections - {h}, workers := r.workers - {h}, multi := r.multi - {h},
       guards := r.guards - {h}, rateLog := r.rateLog - {h})
  }

  /** The handle of a connection, or 0. */
  ghost function HandleIn(connections: map<int, nat>, conn: nat): int {
    if h :| h in connections && connections[h] == conn then h else 0
  }

  ghost function HandleOf(r: Registry, conn: nat): int {
    HandleIn(r.connections, conn)
  }

  function SetGuards(r: Registry, h: int, g: QueryGuards): Registry {
    if h in r.guards then r.(guards := r.guards[h := g]) else r
  }

  function AddStatement(r: Registry, s: PreparedStatement): Registry {
    r.(statements := r.statements[r.nextStatement := s], nextStatement := r.nextStatement + 1)
  }

  function RemoveStatement(r: Registry, h: int): Registry {
    r.(statements := r.statements - {h})
  }

  function GuardsOf(r: Registry, h: int): QueryGuards {
    if h in r.guards then r.guards[h] else DEFAULT_GUARDS
  }

  function LogOf(r: Registry, h: int): seq<int> {
    if h in r.rateLog then r.rateLog[h] else []
  }

  /** The guards applied to a query for handle `h`: the verdict, and the registries with the
      rate log touched only by a query that came as far as the rate limit. */
  ghost function Admit(r: Registry, h: int, prepared: bool, sql: string, pending: int, now: int)
    : (GuardReject, Registry)
  {
    if h !in r.workers then (UnknownHandle, r)
    else
      var g := GuardsOf(r, h);
      var multiOk := h in r.multi && r.multi[h];
      var (reason, log) := Check(g, multiOk, prepared, sql, pending, LogOf(r, h), now);
      var r := r.(guards := r.guards[h := g]);
      var logged := (reason == Accepted || reason == RateLimited) && g.maxQueriesPerWindow != 0;
      (reason, if logged then r.(rateLog := r.rateLog[h := log]) else r)
  }

  function ClearConnections(r: Registry): Registry {
    r.(connections := map[], workers := map[], multi := map[], guards := map[], rateLog := map[])
  }

  // --- What the operations keep --------------------------------------------------------

  lemma AddConnectionKeeps(r: Registry, conn: nat, multi: bool)
    requires Coherent(r) && forall h :: h in r.connections ==> r.connections[h] != conn
    ensures Coherent(AddConnection(r, conn, multi))
    ensures r.nextHandle !in r.connections && AddConnection(r, conn, multi).connections[r.nextHandle] == conn
  {
  }

  lemma RemoveConnectionKeeps(r: Registry, h: int)
    requires Coherent(r)
    ensures Coherent(RemoveConnection(r, h)) && RemoveConnection(r, h).nextHandle == r.nextHandle
    ensures h !in RemoveConnection(r, h).connections
  {
  }

  lemma AdmitKeeps(r: Registry, h: int, prepared: bool, sql: string, pending: int, now: int)
    requires Coherent(r)
    ensures var (reason, s) := Admit(r, h, prepared, sql, pending, now);
            Coherent(s) && s == r.(rateLog := s.rateLog) && forall k :: k != h ==> LogOf(s, k) == LogOf(r, k)
  {
    if h in r.workers {
      assert r.guards[h := r.guards[h]] == r.guards;
    }
  }

  lemma SingleIsNotRefused(r: Registry, h: int, sql: string, pending: int, now: int)
    requires !IsMulti(sql)
    ensures Admit(r, h, false, sql, pending, now).0 != MultiStatement
  {
  }

  lemma StatementsKeep(r: Registry, s: PreparedStatement, h: int)
    requires Coherent(r)
    ensures Coherent(AddStatement(r, s)) && Coherent(RemoveStatement(r, h))
    ensures r.nextStatement !in r.statements
  {
  }

  lemma HandleOfRegistered(r: Registry, h: int)
    requires Coherent(r) && h in r.connections
    ensures HandleOf(r, r.connections[h]) == h
  {
  }
}
