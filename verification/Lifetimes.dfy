/** What every step keeps about prepared statements: who owns each one, that nothing uses one
    after its teardown, and that each is destroyed at most once and in the right place. */
module Lifetimes {
  import opened Options
  import opened Guards
  import opened Registries
  import opened Results
  import opened Workers
  import opened Protocol
  import opened Structure

  /** A job waiting or running on the worker of `c` touches only statements of `c` that still
      exist, and a teardown owns its statement. */
  predicate UseOk(stmts: map<nat, StmtInfo>, c: nat, job: Job) {
    match job.kind
    case Plain => true
    case Exec(t) => t in stmts && stmts[t].conn == c && stmts[t].fate != Destroyed
    case Close(t) => t in stmts && stmts[t].conn == c && stmts[t].fate == Doomed
  }

  /** Behind a teardown there is neither a use nor another teardown of the same statement. */
  predicate Behind(first: Job, later: Job) {
    first.kind.Close? ==> later.kind != first.kind && later.kind != Exec(first.kind.stmt)
  }

  ghost predicate UsesOk(stmts: map<nat, StmtInfo>, c: nat, todo: seq<Job>) {
    && (forall i :: 0 <= i < |todo| ==> UseOk(stmts, c, todo[i]))
    && (forall i, j :: 0 <= i < j < |todo| ==> Behind(todo[i], todo[j]))
  }

  ghost predicate AllUsesOk(s: System) {
    forall c :: c in s.workers ==> UsesOk(s.stmts, c, Todo(s.workers[c]))
  }

  /** A doomed statement's teardown is on its way. */
  ghost predicate DoomedOk(s: System) {
    forall t :: t in s.stmts ==>
      s.stmts[t].conn in s.workers
      && (s.stmts[t].fate == Doomed ==> HasTeardown(Todo(s.workers[s.stmts[t].conn]), t))
  }

  /** The live statements are exactly the registered ones. */
  ghost predicate RegisteredOk(s: System) {
    && (forall h :: h in s.reg.statements ==>
          var x := s.reg.statements[h];
          x.id in s.stmts && s.stmts[x.id] == StmtInfo(x.conn, h, Live))
    && (forall t :: t in s.stmts && s.stmts[t].fate == Live ==>
          s.stmts[t].handle in s.reg.statements && s.reg.statements[s.stmts[t].handle].id == t)
  }

  /** A destruction happened on the statement's own worker, or inline when its connection was
      gone; a connection once gone never comes back. */
  ghost predicate GraveOk(s: System, g: Grave) {
    && g.stmt in s.stmts && s.stmts[g.stmt].fate == Destroyed
    && (if g.onWorker.Some? then g.onWorker.value == s.stmts[g.stmt].conn else s.stmts[g.stmt].conn !in s.alive)
  }

  ghost predicate InGrave(graves: seq<Grave>, t: nat) {
    exists i :: 0 <= i < |graves| && graves[i].stmt == t
  }

  /** What is destroyed was destroyed once. */
  ghost predicate GravesOk(s: System) {
    && (forall t :: t in s.stmts && s.stmts[t].fate == Destroyed ==> InGrave(s.graves, t))
    && (forall i :: 0 <= i < |s.graves| ==> GraveOk(s, s.graves[i]))
    && (forall i, j :: 0 <= i < j < |s.graves| ==> s.graves[i].stmt != s.graves[j].stmt)
  }

  ghost predicate LifetimesOk(s: System) {
    AllUsesOk(s) && DoomedOk(s) && RegisteredOk(s) && GravesOk(s)
  }

  // --- Steps that touch neither statements nor what waits to be run ------------------------

  ghost predicate SameLifetimes(s: System, t: System) {
    && t.stmts == s.stmts && t.graves == s.graves && t.reg.statements == s.reg.statements
    && (forall c :: c in s.workers ==> c in t.workers && Todo(t.workers[c]) == Todo(s.workers[c]))
    && (forall c :: c in t.workers && c !in s.workers ==> Todo(t.workers[c]) == [])
    && (forall c :: c in t.alive ==> c in s.alive || c !in s.workers)
  }

  lemma FrameKeeps(s: System, t: System)
    requires LifetimesOk(s) && SameLifetimes(s, t)
    ensures LifetimesOk(t)
  {
    forall i | 0 <= i < |t.graves| ensures GraveOk(t, t.graves[i]) {
      assert GraveOk(s, s.graves[i]);
    }
  }

  predicate TouchesStatements(step: Step) {
    step.Prepare? || step.Query? || step.Execute? || step.CloseStatement? || step.WorkerRun?
  }

  lemma QuietStepFrame(s: System, step: Step)
    requires StructureOk(s) && Enabled(s, step) && !TouchesStatements(step) && !IsThreadStep(step)
    ensures SameLifetimes(s, Take(s, step))
  {
    if step.Join? {
      JoinedWorkerIsDrained(s);
    } else if step.CountPushed? || step.StopWorker? || step.Connect? {
      MainWorkerFrame(s, step);
    } else {
      MainFrame(s, step);
    }
  }

  lemma ThreadKeepsLifetimes(s: System, c: nat, v: Worker)
    requires LifetimesOk(s) && c in s.workers && Todo(v) == Todo(s.workers[c])
    ensures LifetimesOk(SetWorker(s, c, v))
  {
    FrameKeeps(s, SetWorker(s, c, v));
  }

  lemma DeliverKeepsLifetimes(s: System, c: nat)
    requires LifetimesOk(s) && c in s.workers && s.workers[c].phase.Ran?
    ensures LifetimesOk(DeliverOn(s, c))
  {
    DeliverMovesNothing(s, c);
    FrameKeeps(s, DeliverOn(s, c));
  }

  lemma DeliverMovesNothing(s: System, c: nat)
    requires c in s.workers && s.workers[c].phase.Ran?
    ensures SameLifetimes(s, DeliverOn(s, c))
  {
    var v := Deliver(s.workers[c]);
    assert DeliverOn(s, c).workers == s.workers[c := v] && Todo(v) == Todo(s.workers[c]);
  }

  lemma MainWorkerFrame(s: System, step: Step)
    requires Enabled(s, step) && (step.CountPushed? || step.StopWorker? || step.Connect?)
    ensures SameLifetimes(s, Take(s, step))
  {
  }

  lemma MainFrame(s: System, step: Step)
    requires Enabled(s, step)
    requires step.SetLimits? || step.SyncReturn? || step.Drain? || step.Dispatch? || step.EndCallback? || step.Script?
             || step.ResetBegin? || step.StatementsCleared? || step.ResetEnd?
    ensures SameLifetimes(s, Take(s, step))
  {
    if step.SyncReturn? {
      assert ReturnSync(s, step.keep).workers == s.workers;
    }
  }

  // --- Steps on statements -----------------------------------------------------------------

  lemma PrepareKeepsLifetimes(s: System, h: int, t: nat, sql: string)
    requires StructureOk(s) && LifetimesOk(s) && Enabled(s, Prepare(h, t, sql))
    ensures LifetimesOk(Take(s, Prepare(h, t, sql)))
  {
    var u := Take(s, Prepare(h, t, sql));
    PrepareRegisters(s, h, t, sql);
    PrepareKeepsGraves(s, u, t);
    PrepareKeepsUses(s, u, t);
  }

  lemma PrepareKeepsUses(s: System, u: System, t: nat)
    requires AllUsesOk(s) && t !in s.stmts && t in u.stmts && u.stmts == s.stmts[t := u.stmts[t]]
             && u.workers == s.workers
    ensures AllUsesOk(u)
  {
    forall c | c in u.workers ensures UsesOk(u.stmts, c, Todo(u.workers[c])) {
      OtherFates(s.stmts, u.stmts, c, Todo(s.workers[c]), t);
    }
  }

  lemma PrepareKeepsGraves(s: System, u: System, t: nat)
    requires GravesOk(s) && t !in s.stmts && t in u.stmts && u.stmts[t].fate == Live
    requires u.stmts == s.stmts[t := u.stmts[t]] && u.graves == s.graves && u.alive == s.alive
    ensures GravesOk(u)
  {
    forall i | 0 <= i < |u.graves| ensures GraveOk(u, u.graves[i]) {
      assert GraveOk(s, s.graves[i]);
    }
  }

  lemma PrepareRegisters(s: System, h: int, t: nat, sql: string)
    requires Coherent(s.reg) && LivesOk(s) && DoomedOk(s) && RegisteredOk(s) && Enabled(s, Prepare(h, t, sql))
    ensures var u := Take(s, Prepare(h, t, sql)); DoomedOk(u) && RegisteredOk(u)
  {
  }

  /** Uses on a worker do not notice a statement none of them names. */
  lemma OtherFates(stmts: map<nat, StmtInfo>, stmts': map<nat, StmtInfo>, c: nat, todo: seq<Job>, t: nat)
    requires UsesOk(stmts, c, todo) && stmts' == stmts[t := if t in stmts' then stmts'[t] else StmtInfo(0, 0, Live)]
    requires forall i :: 0 <= i < |todo| ==> todo[i].kind != Exec(t) && todo[i].kind != Close(t)
    ensures UsesOk(stmts', c, todo)
  {
    forall i | 0 <= i < |todo| ensures UseOk(stmts', c, todo[i]) {
      assert UseOk(stmts, c, todo[i]);
    }
  }

  /** A job of a registered statement, or of none, queued behind the others. */
  lemma PushKeepsLifetimes(s: System, job: Job)
    requires LifetimesOk(s) && job.conn in s.workers
    requires job.kind == Plain
             || (job.kind.Exec? && UseOk(s.stmts, job.conn, job) && s.stmts[job.kind.stmt].fate == Live)
    ensures LifetimesOk(PushJob(s, job))
  {
    var t := PushJob(s, job);
    PushKeepsUses(s, job);
    PushKeepsDoomed(s, job);
    forall i | 0 <= i < |t.graves| ensures GraveOk(t, t.graves[i]) {
      assert GraveOk(s, s.graves[i]);
    }
  }

  lemma PushKeepsUses(s: System, job: Job)
    requires AllUsesOk(s) && job.conn in s.workers
    requires job.kind == Plain
             || (job.kind.Exec? && UseOk(s.stmts, job.conn, job) && s.stmts[job.kind.stmt].fate == Live)
    ensures AllUsesOk(PushJob(s, job))
  {
    var todo := Todo(s.workers[job.conn]);
    assert Todo(PushJob(s, job).workers[job.conn]) == todo + [job];
    forall i | 0 <= i < |todo| ensures Behind(todo[i], job) {
      assert UseOk(s.stmts, job.conn, todo[i]);
    }
  }

  lemma PushKeepsDoomed(s: System, job: Job)
    requires DoomedOk(s) && job.conn in s.workers
    ensures DoomedOk(PushJob(s, job))
  {
    var t := PushJob(s, job);
    assert Todo(t.workers[job.conn]) == Todo(s.workers[job.conn]) + [job];
    forall x | x in t.stmts && t.stmts[x].fate == Doomed ensures HasTeardown(Todo(t.workers[t.stmts[x].conn]), x) {
      TeardownStays(Todo(s.workers[s.stmts[x].conn]), Todo(t.workers[s.stmts[x].conn]), x);
    }
  }

  lemma SubmitKeepsLifetimes(s: System, h: int, kind: Kind, sql: string, sync: bool, now: int)
    requires StructureOk(s) && LifetimesOk(s) && Free(s)
    requires kind == Plain || (kind.Exec? && kind.stmt in s.stmts && s.stmts[kind.stmt].fate == Live
                               && h in s.reg.connections && s.stmts[kind.stmt].conn == s.reg.connections[h])
    ensures LifetimesOk(Submit(s, h, kind, sql, sync, now))
  {
    var (reason, reg) := Admit(s.reg, h, kind.Exec?, sql, PendingOf(s, h), now);
    AdmitKeeps(s.reg, h, kind.Exec?, sql, PendingOf(s, h), now);
    var t := s.(reg := reg, clock := now);
    FrameKeeps(s, t);
    if reason == Accepted && h in s.reg.workers && s.reg.workers[h] in s.workers {
      PushKeepsLifetimes(t, Job(s.nextJob, s.reg.workers[h], sql, kind, sync, TermsOf(GuardsOf(s.reg, h), now)));
    } else {
      FrameKeeps(t, Refuse(t));
    }
  }

  lemma ExecuteKeepsLifetimes(s: System, sh: int, now: int)
    requires StructureOk(s) && LifetimesOk(s) && Enabled(s, Execute(sh, now))
    ensures LifetimesOk(Take(s, Execute(sh, now)))
  {
    var stmt := s.reg.statements[sh];
    var h := HandleOf(s.reg, stmt.conn);
    if h == 0 {
      FrameKeeps(s, Refuse(s));
    } else {
      SubmitKeepsLifetimes(s, h, Exec(stmt.id), stmt.sql, false, now);
    }
  }

  // --- Teardown ---------------------------------------------------------------------------

  /** Closing a statement hands it to a teardown behind all its uses, or, when its connection
      is gone, destroys it at once: nothing on any worker still names it then. */
  lemma CloseKeepsLifetimes(s: System, sh: int)
    requires StructureOk(s) && LifetimesOk(s) && Enabled(s, CloseStatement(sh))
    ensures LifetimesOk(CloseStmt(s, sh))
  {
    var stmt := s.reg.statements[sh];
    var h := HandleOf(s.reg, stmt.conn);
    if h != 0 {
      assert s.reg.connections[h] == stmt.conn;
      DoomKeeps(s, sh);
      assert CloseStmt(s, sh) == Handed(s, sh);
    } else {
      NoHandleMeansDead(s, stmt.conn);
      InlineKeeps(s, sh);
    }
  }

  lemma NoHandleMeansDead(s: System, c: nat)
    requires StructureOk(s) && HandleOf(s.reg, c) == 0
    ensures c !in s.alive
  {
    if c in s.alive {
      HandleOfRegistered(s.reg, s.alive[c]);
    }
  }

  /** The state after statement `sh` has been handed to a teardown on its worker. */
  function Handed(s: System, sh: int): System
    requires sh in s.reg.statements && s.reg.statements[sh].id in s.stmts && s.reg.statements[sh].conn in s.workers
  {
    var stmt := s.reg.statements[sh];
    PushJob(Doom(s, sh), Teardown(s.nextJob, stmt.conn, stmt.id))
  }

  lemma DoomKeeps(s: System, sh: int)
    requires LifetimesOk(s) && sh in s.reg.statements && s.reg.statements[sh].conn in s.workers
    ensures LifetimesOk(Handed(s, sh))
  {
    var stmt := s.reg.statements[sh];
    var v := Handed(s, sh);
    DoomUses(s, sh);
    DoomTeardowns(s, sh);
    DoomRegistered(s, sh);
    DoomGraves(s, v, stmt.id);
  }

  lemma DoomRegistered(s: System, sh: int)
    requires RegisteredOk(s) && sh in s.reg.statements && s.reg.statements[sh].conn in s.workers
    ensures RegisteredOk(Handed(s, sh))
  {
  }

  lemma DoomGraves(s: System, v: System, t: nat)
    requires GravesOk(s) && t in s.stmts && s.stmts[t].fate == Live
    requires v.stmts == s.stmts[t := s.stmts[t].(fate := Doomed)] && v.graves == s.graves && v.alive == s.alive
    ensures GravesOk(v)
  {
    forall i | 0 <= i < |v.graves| ensures GraveOk(v, v.graves[i]) {
      assert GraveOk(s, s.graves[i]);
    }
  }

  lemma DoomUses(s: System, sh: int)
    requires LifetimesOk(s) && sh in s.reg.statements && s.reg.statements[sh].conn in s.workers
    ensures AllUsesOk(Handed(s, sh))
  {
    var stmt := s.reg.statements[sh];
    var v := Handed(s, sh);
    var job := Teardown(s.nextJob, stmt.conn, stmt.id);
    assert Todo(v.workers[stmt.conn]) == Todo(s.workers[stmt.conn]) + [job];
    forall c | c in v.workers ensures UsesOk(v.stmts, c, Todo(v.workers[c])) {
      FateChange(s.stmts, c, Todo(s.workers[c]), stmt.id, Doomed);
      if c == stmt.conn {
        TeardownBehind(v.stmts, s.stmts, c, Todo(s.workers[c]), job);
      }
    }
  }

  lemma DoomTeardowns(s: System, sh: int)
    requires LifetimesOk(s) && sh in s.reg.statements && s.reg.statements[sh].conn in s.workers
    ensures DoomedOk(Handed(s, sh))
  {
    var stmt := s.reg.statements[sh];
    var v := Handed(s, sh);
    var job := Teardown(s.nextJob, stmt.conn, stmt.id);
    var todo := Todo(s.workers[stmt.conn]);
    assert Todo(v.workers[stmt.conn]) == todo + [job];
    forall x | x in v.stmts && v.stmts[x].fate == Doomed ensures HasTeardown(Todo(v.workers[v.stmts[x].conn]), x) {
      if x == stmt.id {
        assert (todo + [job])[|todo|].kind == Close(x);
      } else if s.stmts[x].conn == stmt.conn {
        TeardownStays(todo, todo + [job], x);
      }
    }
  }

  /** A live statement may become doomed: until now nothing tears it down. */
  lemma FateChange(stmts: map<nat, StmtInfo>, c: nat, todo: seq<Job>, t: nat, fate: Fate)
    requires UsesOk(stmts, c, todo) && t in stmts && stmts[t].fate == Live && fate != Destroyed
    ensures UsesOk(stmts[t := stmts[t].(fate := fate)], c, todo)
  {
    forall i | 0 <= i < |todo| ensures UseOk(stmts[t := stmts[t].(fate := fate)], c, todo[i]) {
      assert UseOk(stmts, c, todo[i]);
    }
  }

  lemma TeardownBehind(now: map<nat, StmtInfo>, before: map<nat, StmtInfo>, c: nat, todo: seq<Job>, job: Job)
    requires UsesOk(now, c, todo) && UsesOk(before, c, todo) && UseOk(now, c, job) && job.kind.Close?
    requires job.kind.stmt in before && before[job.kind.stmt].fate == Live
    ensures UsesOk(now, c, todo + [job])
  {
    forall i | 0 <= i < |todo| ensures Behind(todo[i], job) {
      assert UseOk(before, c, todo[i]);
    }
  }

  lemma InlineKeeps(s: System, sh: int)
    requires StructureOk(s) && LifetimesOk(s) && sh in s.reg.statements && s.reg.statements[sh].conn !in s.alive
    ensures LifetimesOk(DropNow(s, sh))
  {
    var x := s.reg.statements[sh].id;
    var t := DropNow(s, sh);
    forall c | c in t.workers ensures UsesOk(t.stmts, c, Todo(t.workers[c])) {
      InlineUses(s, x, c);
    }
    InlineRegistered(s, sh);
    InlineGraves(s, t, x);
  }

  lemma InlineRegistered(s: System, sh: int)
    requires LifetimesOk(s) && sh in s.reg.statements
    ensures var t := DropNow(s, sh);
            DoomedOk(t) && RegisteredOk(t)
  {
  }

  /** No worker has a job left for a statement whose connection is gone. */
  lemma InlineUses(s: System, x: nat, c: nat)
    requires StructureOk(s) && AllUsesOk(s) && x in s.stmts && s.stmts[x].conn !in s.alive && c in s.workers
    ensures UsesOk(s.stmts[x := s.stmts[x].(fate := Destroyed)], c, Todo(s.workers[c]))
  {
    if c == s.stmts[x].conn {
      assert RunningOk(s, c, s.workers[c]) && HistoryOk(c, s.workers[c]);
      assert Todo(s.workers[c]) == [];
    } else {
      ElsewhereUses(s.stmts, c, Todo(s.workers[c]), x);
    }
  }

  lemma OneMoreGrave(graves: seq<Grave>, g: Grave)
    ensures InGrave(graves + [g], g.stmt)
    ensures forall t :: InGrave(graves, t) ==> InGrave(graves + [g], t)
  {
    assert (graves + [g])[|graves|] == g;
    forall t | InGrave(graves, t) ensures InGrave(graves + [g], t) {
      var i :| 0 <= i < |graves| && graves[i].stmt == t;
      assert (graves + [g])[i].stmt == t;
    }
  }

  lemma InlineGraves(s: System, t: System, x: nat)
    requires GravesOk(s) && x in s.stmts && s.stmts[x].fate == Live && s.stmts[x].conn !in s.alive
    requires t.stmts == s.stmts[x := s.stmts[x].(fate := Destroyed)] && t.graves == s.graves + [Grave(x, None)]
             && t.alive == s.alive
    ensures GravesOk(t)
  {
    forall i | 0 <= i < |t.graves| ensures GraveOk(t, t.graves[i]) {
      assert i < |s.graves| ==> GraveOk(s, s.graves[i]);
    }
    forall i, j | 0 <= i < j < |t.graves| ensures t.graves[i].stmt != t.graves[j].stmt {
      assert GraveOk(s, s.graves[i]);
    }
    OneMoreGrave(s.graves, t.graves[|s.graves|]);
  }

  /** The worker runs the job it holds. If that is a teardown, its statement is destroyed
      here, for the first time, and no job left anywhere names it. */
  lemma RunKeepsLifetimes(s: System, c: nat, reply: Reply)
    requires LifetimesOk(s) && c in s.workers && s.workers[c].phase.Holding?
    ensures LifetimesOk(RunOn(s, c, reply))
  {
    var job := s.workers[c].phase.job;
    if job.kind.Close? {
      BuriedOnWorker(s, c, reply);
    } else {
      QueryRun(s, c, reply);
    }
  }

  /** What the rest of the queue knows of the job in hand. */
  lemma InHandFirst(stmts: map<nat, StmtInfo>, c: nat, w: Worker)
    requires UsesOk(stmts, c, Todo(w)) && w.phase.Holding?
    ensures UseOk(stmts, c, w.phase.job) && UsesOk(stmts, c, w.input)
    ensures forall i :: 0 <= i < |w.input| ==> Behind(w.phase.job, w.input[i])
    ensures forall t :: HasTeardown(Todo(w), t) && w.phase.job.kind != Close(t) ==> HasTeardown(w.input, t)
  {
    var todo := Todo(w);
    assert todo[0] == w.phase.job && UseOk(stmts, c, todo[0]);
    assert w.input == todo[1..];
    forall i | 0 <= i < |w.input| ensures Behind(todo[0], w.input[i]) && UseOk(stmts, c, w.input[i]) {
      assert todo[i + 1] == w.input[i];
    }
    forall i, j | 0 <= i < j < |w.input| ensures Behind(w.input[i], w.input[j]) {
      assert todo[i + 1] == w.input[i] && todo[j + 1] == w.input[j];
    }
    forall t | HasTeardown(todo, t) && w.phase.job.kind != Close(t) ensures HasTeardown(w.input, t) {
      var i :| 0 <= i < |todo| && todo[i].kind == Close(t);
      assert w.input[i - 1].kind == Close(t);
    }
  }

  lemma QueryRun(s: System, c: nat, reply: Reply)
    requires LifetimesOk(s) && c in s.workers && s.workers[c].phase.Holding? && !s.workers[c].phase.job.kind.Close?
    ensures LifetimesOk(RunOn(s, c, reply))
  {
    var w := s.workers[c];
    var t := RunOn(s, c, reply);
    InHandFirst(s.stmts, c, w);
    assert t.workers[c] == RunJob(w) && Todo(RunJob(w)) == w.input;
    assert forall d :: d in s.workers && d != c ==> t.workers[d] == s.workers[d];
    forall x | x in t.stmts && t.stmts[x].fate == Doomed ensures HasTeardown(Todo(t.workers[t.stmts[x].conn]), x) {
      assert HasTeardown(Todo(s.workers[s.stmts[x].conn]), x);
    }
    forall i | 0 <= i < |t.graves| ensures GraveOk(t, t.graves[i]) {
      assert GraveOk(s, s.graves[i]);
    }
  }

  lemma BuriedOnWorker(s: System, c: nat, reply: Reply)
    requires LifetimesOk(s) && c in s.workers && s.workers[c].phase.Holding? && s.workers[c].phase.job.kind.Close?
    ensures LifetimesOk(RunOn(s, c, reply))
  {
    var w := s.workers[c];
    var x := w.phase.job.kind.stmt;
    var t := RunOn(s, c, reply);
    InHandFirst(s.stmts, c, w);
    assert t.workers[c] == RunJob(w) && Todo(RunJob(w)) == w.input;
    assert forall d :: d in s.workers && d != c ==> t.workers[d] == s.workers[d];
    assert t.stmts == s.stmts[x := s.stmts[x].(fate := Destroyed)];
    BuriedOnlyHere(s, t, c);
    forall y | y in t.stmts && t.stmts[y].fate == Doomed ensures HasTeardown(Todo(t.workers[t.stmts[y].conn]), y) {
      assert HasTeardown(Todo(s.workers[s.stmts[y].conn]), y);
    }
    BuriedGraves(s, t, x, c);
  }

  lemma BuriedOnlyHere(s: System, t: System, c: nat)
    requires AllUsesOk(s) && c in s.workers && s.workers[c].phase.Holding? && s.workers[c].phase.job.kind.Close?
    requires var x := s.workers[c].phase.job.kind.stmt;
             x in s.stmts && s.stmts[x].conn == c && t.stmts == s.stmts[x := s.stmts[x].(fate := Destroyed)]
    requires t.workers == s.workers[c := RunJob(s.workers[c])]
    ensures AllUsesOk(t)
  {
    var w := s.workers[c];
    InHandFirst(s.stmts, c, w);
    assert Todo(RunJob(w)) == w.input;
    forall d | d in t.workers ensures UsesOk(t.stmts, d, Todo(t.workers[d])) {
      if d == c {
        BuriedUses(s.stmts, c, w.input, w.phase.job.kind.stmt, w.phase.job);
      } else {
        ElsewhereUses(s.stmts, d, Todo(s.workers[d]), w.phase.job.kind.stmt);
      }
    }
  }

  lemma BuriedGraves(s: System, t: System, x: nat, c: nat)
    requires GravesOk(s) && x in s.stmts && s.stmts[x].fate == Doomed && s.stmts[x].conn == c
    requires t.stmts == s.stmts[x := s.stmts[x].(fate := Destroyed)] && t.graves == s.graves + [Grave(x, Some(c))]
             && t.alive == s.alive
    ensures GravesOk(t)
  {
    forall i | 0 <= i < |t.graves| ensures GraveOk(t, t.graves[i]) {
      assert i < |s.graves| ==> GraveOk(s, s.graves[i]);
    }
    forall i, j | 0 <= i < j < |t.graves| ensures t.graves[i].stmt != t.graves[j].stmt {
      assert GraveOk(s, s.graves[i]);
    }
    OneMoreGrave(s.graves, t.graves[|s.graves|]);
  }

  lemma BuriedUses(stmts: map<nat, StmtInfo>, c: nat, rest: seq<Job>, x: nat, job: Job)
    requires UsesOk(stmts, c, rest) && x in stmts && job.kind == Close(x)
    requires forall i :: 0 <= i < |rest| ==> Behind(job, rest[i])
    ensures UsesOk(stmts[x := stmts[x].(fate := Destroyed)], c, rest)
  {
    forall i | 0 <= i < |rest| ensures UseOk(stmts[x := stmts[x].(fate := Destroyed)], c, rest[i]) {
      assert UseOk(stmts, c, rest[i]) && Behind(job, rest[i]);
    }
  }

  lemma ElsewhereUses(stmts: map<nat, StmtInfo>, d: nat, todo: seq<Job>, x: nat)
    requires UsesOk(stmts, d, todo) && x in stmts && stmts[x].conn != d
    ensures UsesOk(stmts[x := stmts[x].(fate := Destroyed)], d, todo)
  {
    forall i | 0 <= i < |todo| ensures UseOk(stmts[x := stmts[x].(fate := Destroyed)], d, todo[i]) {
      assert UseOk(stmts, d, todo[i]);
    }
  }

  lemma ThreadStepKeepsLifetimes(s: System, step: Step)
    requires LifetimesOk(s) && IsThreadStep(step) && ThreadCan(s, step)
    ensures LifetimesOk(ThreadTake(s, step))
  {
    match step
    case WorkerPop(c) =>
      assert Todo(Pop(s.workers[c])) == Todo(s.workers[c]);
      ThreadKeepsLifetimes(s, c, Pop(s.workers[c]));
    case WorkerExit(c) => ThreadKeepsLifetimes(s, c, Exit(s.workers[c]));
    case WorkerRun(c, reply) => RunKeepsLifetimes(s, c, reply);
    case WorkerDeliver(c) => DeliverKeepsLifetimes(s, c);
    case WorkerFinish(c) => ThreadKeepsLifetimes(s, c, Finish(s.workers[c]));
  }

  lemma StatementStepKeepsLifetimes(s: System, step: Step)
    requires StructureOk(s) && LifetimesOk(s) && Enabled(s, step) && TouchesStatements(step) && !step.WorkerRun?
    ensures LifetimesOk(Take(s, step))
  {
    if step.Prepare? {
      PrepareKeepsLifetimes(s, step.h, step.t, step.sql);
    } else if step.CloseStatement? {
      TakeOfClose(s, step.sh);
      CloseKeepsLifetimes(s, step.sh);
    } else {
      UseKeepsLifetimes(s, step);
    }
  }

  lemma UseKeepsLifetimes(s: System, step: Step)
    requires StructureOk(s) && LifetimesOk(s) && Enabled(s, step) && (step.Query? || step.Execute?)
    ensures LifetimesOk(Take(s, step))
  {
    match step
    case Query(h, sql, sync, now) =>
      TakeOfQuery(s, h, sql, sync, now);
      SubmitKeepsLifetimes(s, h, Plain, sql, sync, now);
    case Execute(sh, now) => ExecuteKeepsLifetimes(s, sh, now);
  }

  /** Every step keeps the lifetimes in order. */
  lemma LifetimesStep(s: System, step: Step)
    requires StructureOk(s) && LifetimesOk(s) && Enabled(s, step)
    ensures LifetimesOk(Take(s, step))
  {
    if IsThreadStep(step) {
      TakeOfThread(s, step);
      ThreadStepKeepsLifetimes(s, step);
    } else if TouchesStatements(step) {
      StatementStepKeepsLifetimes(s, step);
    } else {
      QuietStepFrame(s, step);
      FrameKeeps(s, Take(s, step));
    }
  }
}
