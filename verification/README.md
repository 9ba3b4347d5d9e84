# A verified model of the open.mp MySQL component

The component gives game-server scripts asynchronous access to MySQL. One main thread runs the
scripts; every connection has a worker thread with its own input queue; finished jobs meet in one
shared sink that the main thread drains once per tick. This project models that engine, the SQL
text the component builds and scans, and the small stateful parts around them, and proves what
they promise. `dafny verify dfyconfig.toml` checks everything.

## How the model is laid out

**The engine** (`Workers`, `Registries`, `Protocol`, then `Structure`, `Lifetimes`, `Delivery`,
`Policy`, `Rates`, `Outcomes`, and on top `Safety`, `Progress`, `Atomicity`, `Guarantees`, `Effects`;
`Component`).

- `Protocol` is a state machine. A step is one locked region or one atomic operation: pushing a job
  and counting it are two steps, so are clearing the running flag and joining the thread. Any
  enabled step of any thread may come next, so every theorem about reachable states is about every
  interleaving of the main thread with any number of workers. What the server answers is arbitrary;
  what a job carries back is what the two buffering loops make of the answer. Time never runs
  backwards, as the source's steady clock does not, and it counts in ticks of any length.
- One step joins two: the guards' read of a worker's counter, and the push. `Atomicity.SubmitIsAtomic`
  proves that whatever threads do between the two comes to the same when done behind the push.
- The state carries histories: what was queued on each worker, what it ran, what was dispatched and
  returned, every destruction of a statement, every refused job.
- `Structure`, `Lifetimes`, `Delivery`, `Policy`, `Rates` and `Outcomes` hold the parts of the invariant, each with the
  lemma that every step keeps it. `Safety`, `Progress` and `Guarantees` state what follows for all
  reachable states and all runs. `Effects` says what each operation brings about in every reachable
  state, in terms of the state's own fields: what is queued or refused and when, what a tick, a
  callback or a return leaves, and that nothing is ever stuck.
- `Workers` and `Component` also hold the classes as the source writes them, with fields updated in
  place, proved against the same functions the state machine is made of. Their methods run without
  interference; interleavings are the subject of `Protocol`.

**SQL text** (`SqlScan`, `Scanners`, `Separators`, `Statements`, `Parsing`, `Models`, `Formatting`,
`Exactness`).

- `SqlScan.Lex` is an automaton without lookahead; it is the reference for the two scanners, which
  look one character ahead and skip. Scanning composes over concatenation because the automaton
  holds an undecided `-` or `/` back in its state.
- `Statements` builds the four statements of a model, `Parsing` reads them back with an
  independently written reader, `Models` is the class of bindings with its builders, `Formatting`
  is `mysql_format`.
- `Formatting.Predict` judges a format string without its values: an escaped string may stand inside
  single or double quotes at an escape boundary, a quoted identifier in code, a number anywhere but
  after a lone dash in code. `Exactness` proves that this rejects nothing that does not depend on its
  values, for escapers of which only the contract below is known.

**The rest.** `Guards` (query guards and the sliding-window rate limit), `Results` (buffering, the
result cache), `HashPool` (the hashing threads), `ConfigCodec` (the obfuscated configuration),
`VectorText` (the textual form of vectors).

## What is assumed

- `mysql_real_escape_string` is a contract (`SqlScan.EscapesTo`): each character is copied, if it is
  neither a single nor a double quote nor a backslash, or replaced by a backslash and one character.
  Backticks may be copied, as the library does; `Models.LibraryEscaperFits` shows that the library's
  table of replacements meets the contract. This is the server's default mode, with backslash escapes
  on. Strings are sequences of characters; no multi-byte encoding is modelled.
- A printed float is an optional minus sign and then digits, letters, `.` or `+`
  (`Statements.NumberText`); how floats are rounded is not modelled.
- Identities of connections and statements stand for addresses and are never reused, although the
  source compares addresses and an allocator may reuse one.
- Clocks, results of queries, environment values and the cells of script memory are parameters.
  The value of an environment variable holds no NUL character.
- Integers are unbounded, except in `ConfigCodec`, where words have 32 and 8 bits.

## Where the code differs from its documentation

- `isMultiStatement` has two comments. The one at its definition (src/MySQLComponent.cpp:345-349)
  promises to report a separator followed by more SQL (`Separators.DocMulti`), the one at its
  declaration (src/MySQLComponent.hpp:213-215) a separator with SQL on both sides
  (`Separators.HeaderMulti`); SQL is what is neither empty nor a comment. The code keeps neither.
  - It does not count quoted text: `SELECT 1;'x'` goes unreported (`Separators.QuotedStatementExample`).
    It reports nothing the first comment does not describe, and agrees with it on a text if and only if
    unquoted text follows a separator or no quote opens behind one
    (`Separators.MultiAgreesWithDefinition`).
  - It asks for nothing before the separator: `;SELECT 1` is reported, and refused by the guard, although
    it is one statement (`Separators.LoneStatementExample`). On a text whose first SQL does not lie behind
    a separator the code agrees with the second comment under the condition just given. On one whose
    first SQL does, it reports any unquoted text at all, and agrees if and only if there is unquoted text
    exactly when SQL resumes behind a further separator (`Separators.MultiAgreesWithDeclaration`).
- `mysql_format` documents `%e` as escaped. With a handle that names no connection the value goes in
  as it is; `Formatting.QuotedValueNeedsConnection` says exactly when a quoted value is contained, and
  `Formatting.QuotedFormatNeedsConnection` says it of the format `'%e'`. The
  same holds for a connection whose library handle is gone, which `escape` treats as no connection.
- A number printed right behind a lone dash can open a comment, and there only
  (`Exactness.NumbersAgreeUnlessDash`; `Formatting.SignOpensComment` is an example).
- The vector parser is said to be whitespace tolerant: it drops a blank component, so the round trip
  holds if and only if none is blank (`VectorText.ListRoundTrip`).

## Model

| member | source | states |
|---|---|---|
| Safety.ExactlyOnceInOrder | src/QueryQueue.cpp:49-176 | in every reachable state each worker's queueing history is what it has run, then the job in hand, then its queue; no job identity is queued twice on any worker |
| Safety.NothingLostAtShutdown | src/QueryQueue.cpp:33-47 | when a stopped worker can be joined, and for ever after its connection is gone, everything queued on it has run, so clearing its queue discards nothing |
| Safety.PendingIsAccurate | src/QueryQueue.cpp:49-57 | the counter is the queue plus the unfinished iteration, one less exactly while the main thread is between push and count; below zero only then, never when the main thread reads it |
| Safety.BackpressureBounds | src/MySQLComponent.cpp:256-262 | along every run on which a connection's non-zero cap is fixed, at most that many guarded jobs are outstanding, although teardowns bypass the guard |
| Safety.CapHoldsStep | src/MySQLComponent.cpp:256-262 | any single step, of any thread, keeps the outstanding guarded jobs within the cap in force |
| Safety.InvariantStep | src/QueryQueue.cpp:33-176 | every enabled step of every thread keeps the whole invariant of the engine |
| Safety.InvariantHolds | src/MySQLComponent.cpp:991-1006 | the invariant holds in every state any run reaches, resets included |
| Structure.StructureStep | src/MySQLComponent.cpp:144-211 | every step keeps histories, counters, registry coherence, the lives of connections and which workers run |
| Structure.JoinedWorkerIsDrained | src/QueryQueue.cpp:33-47 | at the join of a stopped worker its queue is empty, its counter zero and everything has run, so the final clearing changes nothing |
| Structure.IdleMeansRunning | src/MySQLComponent.cpp:144-197 | between two operations of the main thread, but for the clearing of all connections in a reset, every registered handle has a running worker whose thread is there |
| Lifetimes.LifetimesStep | src/MySQLComponent.cpp:503-547 | every step keeps: queued uses name existing statements of that connection, nothing follows a teardown of the same statement, each destruction is the first and in the right place |
| Lifetimes.CloseKeepsLifetimes | src/MySQLComponent.cpp:503-529 | closing a statement puts its teardown behind all its uses, or destroys it inline only when its connection is gone and nothing on any worker names it |
| Lifetimes.RunKeepsLifetimes | src/QueryQueue.cpp:108-131 | running a teardown destroys a statement that nothing left in any queue names, for the first time |
| Delivery.DeliveryStep | src/QueryQueue.cpp:108-176 | every step keeps each finished job in exactly one place: an asynchronous one on the way to its callback, a synchronous one on the way to its caller, a teardown nowhere |
| Delivery.DeliverKeepsDelivery | src/QueryQueue.cpp:161-174 | delivery moves the finished job to the shared sink, or into the promise of the one caller that waits for it |
| Delivery.DrainKeepsDelivery | src/QueryQueue.cpp:185-196 | draining the sink keeps every connection's jobs in order and loses none |
| Delivery.ReturnKeepsDelivery | src/MySQLComponent.cpp:306-325 | after a synchronous return nobody is waited for and no queue holds a synchronous job |
| Policy.PolicyStep | src/MySQLComponent.cpp:215-304 | every step keeps: each queued plain query satisfies its connection's policies, job identities are unique, refused jobs are in no history |
| Policy.GridsStep | src/MySQLComponent.cpp:908-976 | every step keeps every result, active or retained, a grid; a worker's new one because of how it is buffered |
| Guarantees.DispatchedInOrder | src/MySQLComponent.cpp:821-829 | a connection's asynchronous jobs, in queueing order, are those dispatched, then drained, then in the sink, then about to be delivered, then still to run; so the dispatched ones are a prefix |
| Guarantees.ArrivesWhereItBelongs | src/QueryQueue.cpp:108-174 | whatever reaches the sink or a callback is a job its own worker has run, neither synchronous nor a teardown; whatever a caller gets back is a synchronous one; so teardowns arrive nowhere |
| Guarantees.WorkersTouchLiveConnections | src/MySQLComponent.cpp:184-211 | in no reachable state can a thread of a destroyed connection take a step |
| Guarantees.StatementsOutliveTheirUses | src/MySQLComponent.cpp:503-529 | a statement named by a queued or held job exists, belongs to that worker's connection and has not been destroyed |
| Guarantees.DestroyedOnceInTheRightPlace | src/MySQLComponent.cpp:503-529 | a statement counts as destroyed exactly when it was destroyed, at most once, by its own connection's worker or inline when that connection is gone |
| Guarantees.ResetLeavesNothing | src/MySQLComponent.cpp:991-1006 | after a reset every statement there ever was is destroyed, everything ever queued has run and every thread is gone |
| Guarantees.OnlyAdmittedQueriesRun | src/MySQLComponent.cpp:215-304 | every plain query any worker has run is a single statement unless its connection was registered for several, met the length cap in force when queued, and was not refused |
| Guarantees.CacheShowsGrids | src/MySQLComponent.cpp:910-976 | whatever results the active and the retained caches hold in any reachable state are grids |
| Guarantees.OutcomeIsFinal | src/QueryQueue.cpp:120-159 | once a job has run, nothing any thread ever does changes what came of it |
| Guarantees.ResultIsOfItsOwnRun | src/QueryQueue.cpp:120-159 | however much later, a job's result is the one built from the server's answer to its own run, or none if that failed |
| Guarantees.JobsShowTheirOwnResults | src/natives.cpp:491-513 | a callback that fires shows the result of its own job's run, and so does a synchronous call that returns; one whose job failed leaves the active result |
| Guarantees.RetainedHandleSurvives | src/MySQLComponent.cpp:945-971 | along any run without its release or a reset, a retained handle denotes the same unchanged result |
| Guarantees.RegistryIsCoherent | src/MySQLComponent.cpp:144-211 | in every reachable state connections, workers, guards and policies share one set of issued handles, rate logs use a subset, and between operations, but for the clearing of all connections, every registered worker runs |
| Guarantees.ClosedHandleStaysClosed | src/MySQLComponent.cpp:144-197 | a handle that was issued and closed is not registered again before the next reset ends |
| Effects.QueryIsQueuedOrRefused | src/MySQLComponent.cpp:215-325 | in every reachable state a query joins the end of its connection's queue and history, with its text, its sync flag, the next identity and the limits in force, exactly when the handle is registered, there is room, few enough jobs came before by the full history, and the text is short enough and single or allowed several; otherwise no worker changes and its identity is refused |
| Effects.ExecutionIsQueuedOrRefused | src/natives.cpp:806-863 | in every reachable state the execution of a registered statement joins the queue and history of the connection it was prepared on, with the statement's identity and text, when that connection is registered, has room and few enough came before; otherwise no worker changes and its identity is refused |
| Effects.ConnectionStarts | src/MySQLComponent.cpp:144-160 | a connection gets a handle not in use, an idle running worker, an empty rate log, its policy, and the default guards: 1048576 characters and no other limit |
| Effects.LimitsTakeEffect | src/natives.cpp:1364-1383 | new limits replace those of the handle they were set for and nothing else; for an unknown handle nothing changes |
| Effects.StatementStarts | src/MySQLComponent.cpp:486-495 | a prepared statement is registered under a handle not in use with its connection and text |
| Effects.StatementCloses | src/MySQLComponent.cpp:503-529 | a closed statement leaves the registry; while its connection is registered under any handle a teardown joins the end of that connection's queue and nothing is destroyed, otherwise the statement is destroyed at once |
| Effects.StopTellsTheWorker | src/QueryQueue.cpp:33-47 | stopping clears the running flag of the handle's own worker and waits for its thread |
| Effects.JoinForgets | src/MySQLComponent.cpp:184-197 | once the thread is gone the handle leaves every registry and no other handle does; statements stay |
| Effects.ResetStartsAnew | src/MySQLComponent.cpp:991-1006 | a reset forgets the active and every retained result at its start; at its end every registry is empty and every counter of handles is 1 again |
| Effects.NothingFinishedIsLost | src/QueryQueue.cpp:108-196 | every job that has run is about to be delivered, or, if synchronous, returned or in its promise, if asynchronous, dispatched, drained or in the sink; only teardowns are not |
| Effects.UnfinishedWorkCanMove | src/QueryQueue.cpp:87-176 | a worker with anything queued, in hand or to deliver can take its next step in every reachable state, whatever the server answers |
| Effects.TickEmptiesSink | src/MySQLComponent.cpp:821-835 | a tick can take everything out of the sink and dispatch it in order, with a callback for each job that has a result; afterwards sink and drained jobs are empty, what is retained is as before, and nothing is active if any callback ran |
| Effects.CallbackSeesItsResult | src/MySQLComponent.cpp:673-819 | dispatching takes the first drained job; its callback sees the first set of that job's result, and retained results stay |
| Effects.CallbackEnds | src/MySQLComponent.cpp:816-818 | when a callback ends nothing is active and nothing else has changed |
| Effects.ReturnHandsOver | src/natives.cpp:479-513 | a synchronous call that succeeded shows the first set of its job's result and retains it, under the next handle, exactly when asked to; one that failed changes neither |
| Effects.ScriptActs | src/MySQLComponent.cpp:923-971 | what each native of the result cache makes of the active result, the selected set and the retained results, and that it touches nothing else |
| Effects.ServingOffersEverything | src/MySQLComponent.cpp:215-547 | between two operations, in every reachable state, every native on queries, statements and connections can be called |
| Effects.NothingIsStuck | src/QueryQueue.cpp:33-85 | in every reachable state a main thread in the middle of a push can finish it, and what it waits for is there or the thread it waits for can move |
| Effects.ResetFindsItsNextStep | src/MySQLComponent.cpp:991-1006 | a reset that is not waiting finds a statement to close, a worker to stop, or its end |
| Progress.SyncReturnsItsJob | src/QueryQueue.cpp:59-85 | a synchronous call returns the very job it queued, when that and everything queued before it has run |
| Progress.SubmitMeetsRunningWorker | src/QueryQueue.cpp:59-68 | whenever a query can be submitted for a registered handle, its worker runs and its thread is there, so the early return is never taken |
| Progress.BlockedWorkerCanMove | src/QueryQueue.cpp:72-85 | while the main thread is blocked on a promise or a join, the thread it waits for can take a step; so no promise is broken |
| Progress.ThreadStepDescends | src/QueryQueue.cpp:87-176 | each thread step strictly lowers a measure of its own worker and leaves the other workers alone |
| Progress.WaitIsBounded | src/QueryQueue.cpp:72-85 | in any run that leaves the main thread blocked, the wait is over after at most the measure's number of steps of the thread waited for |
| Atomicity.SubmitIsAtomic | src/MySQLComponent.cpp:256-303 | whatever threads do between the guards' verdict on a job and its push, the counter is no higher than the guards read it, and the push leads where one step for both leads, followed by the same moves |
| Progress.PendingCanBeNegative | src/QueryQueue.cpp:49-57 | some reachable state has a counter of -1: a worker that finishes a job between its push and its count |
| Workers.QueryEngine.DrainCompleted | src/QueryQueue.cpp:185-196 | returns every finished job, first finished first, and empties the sink |
| Workers.ConnectionWorker.Enqueue | src/QueryQueue.cpp:49-57 | queues the job behind the others and counts it, on a stopped worker too |
| Workers.ConnectionWorker.Iterate | src/QueryQueue.cpp:87-176 | runs the first job; an asynchronous one goes to the sink, a synchronous one back to its caller, a teardown nowhere |
| Workers.ConnectionWorker.DrainAndExit | src/QueryQueue.cpp:87-107 | a thread whose stop flag is down empties the queue, delivering everything in order, before it ends |
| Workers.ConnectionWorker.Stop | src/QueryQueue.cpp:33-47 | a running worker has run everything ever queued and its asynchronous part is in the sink, in order; a stopped one is left as it is |
| Workers.ConnectionWorker.RunSync | src/QueryQueue.cpp:59-85 | hands back the given job after everything queued before it has run; refuses, changing nothing, exactly when the worker is stopped |
| Registries.AddConnectionKeeps | src/MySQLComponent.cpp:144-160 | registering keeps the registries coherent and uses a handle not in use |
| Registries.RemoveConnectionKeeps | src/MySQLComponent.cpp:184-197 | removing forgets the handle everywhere and does not reissue it |
| Registries.AdmitKeeps | src/MySQLComponent.cpp:215-285 | the guards change nothing but the rate log of the handle asked about |
| Registries.StatementsKeep | src/MySQLComponent.cpp:486-529 | adding and removing statements keeps coherence, and a new statement's handle is not in use |
| Registries.HandleOfRegistered | src/MySQLComponent.cpp:168-182 | looking up a registered connection gives its handle |
| Component.MySQLComponent.constructor | src/MySQLComponent.hpp:59-90 | starts with empty registries and an empty cache |
| Component.MySQLComponent.AddConnection | src/MySQLComponent.cpp:144-160 | registers a connection under the next handle with a fresh running worker, its policy, and guards of 1048576 characters and no other limit; nothing for a null connection |
| Component.MySQLComponent.ConnectionHandleOf | src/MySQLComponent.cpp:168-182 | finds the one handle of a registered connection; 0 exactly for null and for one that is not registered |
| Component.MySQLComponent.RemoveConnection | src/MySQLComponent.cpp:184-197 | the worker has run everything queued on it, and what it owed has joined the sink in order, before it and its entries go; the other workers are untouched |
| Component.MySQLComponent.ClearConnections | src/MySQLComponent.cpp:199-211 | every worker has run everything queued on it, and what each owed has joined the sink, worker by worker and in order, before all connections are forgotten |
| Component.MySQLComponent.CheckGuards | src/MySQLComponent.cpp:215-285 | verdict and new registries are those of the guards, applied in the source's order |
| Component.MySQLComponent.RateGuard | src/MySQLComponent.cpp:264-281 | prunes the log, then refuses or logs, as the rate limit demands; touches no log when there is no limit |
| Component.MySQLComponent.PruneLog | src/MySQLComponent.cpp:269-272 | drops exactly the entries before the first that is still in the window |
| Component.MySQLComponent.SetLimit | src/natives.cpp:1364-1383 | kind 0 sets the length, 1 the pending cap, 2 the rate with its one-second window, of that handle and no other; refuses unknown handles, negative values and unknown kinds without effect |
| Component.MySQLComponent.EnqueueJob | src/MySQLComponent.cpp:287-304 | an accepted job, with the next identity, the handle's connection, the text and kind given and the limits in force, is queued and counted on its own worker only; a refused one changes nothing but the registries as the guards say |
| Component.MySQLComponent.RunJobSync | src/MySQLComponent.cpp:306-325 | an accepted job, with the next identity, the handle's connection, the text given and the limits in force, comes back itself, with everything on its connection run and the asynchronous part of it in the sink; a refused one touches neither workers nor sink |
| Component.MySQLComponent.ExecuteModel | src/natives.cpp:1897-1945 | on a registered connection, and exactly when key and bindings allow the operation, its SQL is queued if and only if the guards accept it, never refused as several statements; what is queued reads back as a statement of that operation on that table and key whose values denote what the bound variables hold; otherwise no worker changes |
| Component.MySQLComponent.AddStatement | src/MySQLComponent.cpp:486-495 | registers a statement under the next handle |
| Component.MySQLComponent.RemoveStatement | src/MySQLComponent.cpp:503-529 | the statement goes to a teardown behind everything on its own connection's worker, or is destroyed here exactly when that connection is not registered |
| Component.MySQLComponent.ClearStatements | src/MySQLComponent.cpp:531-547 | every registered statement ends up with a teardown on its connection's worker or destroyed here |
| Component.MySQLComponent.Reset | src/MySQLComponent.cpp:991-1006 | afterwards registries and cache are as at first, every worker has run everything, what each owed has joined the sink behind what was there, and every statement was torn down by its worker or here |
| SqlScan.LookaheadAgrees | src/MySQLComponent.cpp:350-397 | the scanners' rules with one character of lookahead find the same code text as the automaton, from every settled state |
| SqlScan.ScanConcat | src/Statement.cpp:24-58 | scanning a concatenation is scanning the second part from where the first ended, state and code text alike |
| SqlScan.EscapedValueStaysQuoted | src/Connection.cpp:298-310 | an escaped value never leaves the single or double quotes it stands in, shows no code, and fits the buffer of twice its length |
| Scanners.IsMultiStatement | src/MySQLComponent.cpp:345-397 | true exactly when a code-level `;` is later followed by a code-level character that is neither space nor `;` nor opens a quote or comment; visits the common sequence of states until it answers |
| Scanners.CountPlaceholders | src/Statement.cpp:24-58 | the number of code-level `?`, found on the very same sequence of positions and states |
| Separators.MultiAgreesWithDefinition | src/MySQLComponent.cpp:345-397 | what is reported is always what the comment at the definition describes, and the code agrees with it on a text if and only if unquoted text follows a separator or no quote opens behind one |
| Separators.MultiAgreesWithDeclaration | src/MySQLComponent.hpp:213-216 | against the comment at the declaration: the same condition where the first SQL does not lie behind a separator; where it does, the code reports any unquoted text, and agrees if and only if there is some exactly when SQL resumes behind a further separator |
| Separators.QuotedStatementIsMissed | src/MySQLComponent.cpp:365-379 | behind any plain statement and its separator, a second one that is quoted text goes unreported |
| Separators.LoneStatementIsReported | src/MySQLComponent.cpp:370-375 | any plain text behind a leading separator is reported, although there is SQL on one side only |
| Separators.QuotedTextIsNotCounted | src/MySQLComponent.cpp:365-379 | quoted text appended behind a separator changes no verdict |
| Separators.TrailingSpaceIsNoStatement | src/MySQLComponent.cpp:369-374 | whatever stands before, a separator followed by nothing but space, tab, newline, vertical tab, form feed, carriage return and further separators makes no text multi |
| Separators.AnythingElseIsAStatement | src/MySQLComponent.cpp:369-374 | any other character that opens neither a quote nor a `#` comment, behind a separator and such a tail, does |
| Statements.IdentReads | src/Model.cpp:14-30 | a quoted identifier, whatever its name, is read as quoted from end to end and leaves the scanner in code |
| Statements.StringIsLiteral | src/natives.cpp:1806-1820 | an escaped string in single quotes is a self-contained literal |
| Statements.NumberIsLiteral | src/natives.cpp:1797-1805 | a printed number is a self-contained literal |
| Statements.GeneratedSqlIsOneStatement | src/Model.cpp:94-176 | generated SQL ends outside every quote and comment, is not a multi-statement and has no placeholder |
| Parsing.RenderParses | src/Model.cpp:94-176 | an independent reader recovers table, columns, key and values of every generated statement, in order |
| Parsing.RenderInjective | src/Model.cpp:94-176 | distinct statements have distinct SQL |
| Parsing.IntBack | src/natives.cpp:1797-1800 | an independent digit reader gives back every printed integer, negative ones included |
| Models.LibraryEscaperFits | src/Connection.cpp:298-310 | the library's table of replacements, which copies backticks, meets the escaper contract |
| Models.LibraryEscapeBack | src/Connection.cpp:298-310 | undoing backslash escapes, as the server does, gives back every text the library's table escapes |
| Models.FieldLiteralIsLiteral | src/natives.cpp:1791-1823 | every bound value renders as a self-contained literal that denotes what its variable holds: an integer reads back as the cell, a float is the printed text or NULL without an address, a string stands in quotes as a text its value escapes to |
| Models.ModelSqlIsSafe | src/natives.cpp:1897-1945 | for every table, key, columns and values the SQL of a model operation is one statement without placeholders, ends in code, and reads back as that operation |
| Models.ModelStatementMeans | src/Model.cpp:94-176 | whenever key and bindings allow the operation, its statement is of that operation, on that table, names exactly the bound columns in order, and each literal and the key's denote what the bound variables hold |
| Models.Settable | src/Model.cpp:137-165 | the SET list holds every bound column but the key with its value, and nothing else |
| Models.Quote | src/Model.cpp:14-30 | the loop builds the identifier with its backticks doubled |
| Models.Model.UpsertField | src/Model.cpp:33-47 | rebinds a bound column in place or adds it last; no column is ever bound twice and the others keep their bindings |
| Models.Model.Unbind | src/Model.cpp:64-75 | removes one binding, keeping the others in order; afterwards the column is not bound |
| Models.Model.KeyField | src/Model.cpp:77-91 | the binding of the key column, if a key is set and bound |
| Models.Model.BuildFind | src/Model.cpp:94-112 | the SELECT over the bound columns by key, or nothing without key or bindings |
| Models.Model.BuildInsert | src/Model.cpp:115-133 | the INSERT of all bindings in order, or nothing when values and bindings do not match |
| Models.Model.BuildUpdate | src/Model.cpp:137-165 | the UPDATE of all columns but the key, or nothing when there are none |
| Models.Model.BuildDelete | src/Model.cpp:168-176 | the DELETE by key, or nothing without a key |
| Models.Model.Sql | src/natives.cpp:1909-1933 | builds SQL exactly when key and bindings allow the operation; it is one statement, and an independent reader finds in it that operation on that table with the columns bound and literals that denote the variables' values |
| Formatting.Format | src/natives.cpp:692-800 | for all values and escapers the text is the format's own characters with, in place of each specifier, for `%d` and `%i` a text an independent reader reads back as the cell, for `%f` the float's text, for `%s` the string, for `%e` a text the string escapes to (the string itself without a connection), for `%q` a text that reads back as the name; missing values and unknown specifiers stay as they are |
| Formatting.FindingsAreVerdicts | src/MySQLComponent.cpp:350-397 | reading a code text once, with what was found so far, gives exactly both scanners' verdicts |
| Formatting.PredictionHolds | src/natives.cpp:692-800 | for all values, scanning the formatted text ends in the state, and with the findings, predicted from the format alone |
| Formatting.FormatIsValueIndependent | src/natives.cpp:692-800 | on a predictable format the multi-statement verdict, the placeholder count and the final state are the same for all values |
| Exactness.AllowedIsExact | src/natives.cpp:722-785 | for every specifier and scanner state: a value may stand there if and only if no value and no escaper changes the state it leaves |
| Exactness.PredictableIsExact | src/natives.cpp:692-800 | a format is accepted if and only if at no point of the text the scanner's state depends on the values |
| Exactness.NumbersAgreeUnlessDash | src/natives.cpp:723-747 | all printed numbers leave the scanner in one state if and only if they do not follow a lone dash in code |
| Formatting.QuotedValueNeedsConnection | src/natives.cpp:765-770 | in any state inside single or double quotes, every value of `%e` leaves the scanner where it is if and only if the handle names a connection |
| Guarantees.RateLimitHolds | src/MySQLComponent.cpp:264-281 | in every reachable state, no closed window of the limit's length, wherever it starts, holds more jobs let through under the limit on a connection than the largest limit any of them met |
| Guarantees.VerdictFollowsHistory | src/MySQLComponent.cpp:215-285 | in every reachable state a query is accepted exactly when it is short enough, single or allowed several, has room in the queue, and fewer jobs than the limit were let through in the window ending now, by the full history; the log kept is sorted and past |
| Rates.RatesStep | src/MySQLComponent.cpp:264-281 | every step keeps each connection's pruned log faithful to the history of the jobs let through, and each of those within its own limit |
| Guards.RateDecision | src/MySQLComponent.cpp:264-281 | the decision on the pruned log is the decision on the full history, and pruning forgets nothing that can still count |
| Guards.RateLimiterRefinesHistory | src/MySQLComponent.cpp:264-281 | over every run on a monotone clock a query passes exactly when fewer acceptances than the limit lie in the closed window ending now |
| Guards.EveryWindowIsBounded | src/MySQLComponent.cpp:264-281 | no closed window of that length ever holds more acceptances than the largest limit in force, nor does the log |
| Guards.CheckAccepts | src/MySQLComponent.cpp:215-285 | a query passes exactly when it is short enough, single or allowed several, has room in the queue and is rare enough in the window; a refusal names the first test that fails, and only a query that passes the first three touches the log |
| Guards.PruneIsWindow | src/MySQLComponent.cpp:267-273 | what pruning leaves of a sorted log is its part in the window, still sorted; what it drops is older |
| Results.BufferAnswer | src/Connection.cpp:229-274 | a set that shows the answer: its fields and one row per row, NULL exactly where the server's cell is NULL and otherwise the server's text, and the answer's own counters; all rows as wide as the field list |
| Results.QueryBuffered | src/Connection.cpp:209-281 | one set per answer, each showing its own answer cell by cell, all of them grids; succeeds exactly when the connection is open, the query accepted and no later statement failed |
| Results.BufferRows | src/Statement.cpp:257-332 | one cell per column of every fetched row: NULL exactly where the column is NULL, otherwise its text, fetched again when longer than 1024, or empty if that fails; the counters given, no warnings |
| Results.ReplyIsGrid | src/QueryQueue.cpp:128-159 | whatever the server answers, the result a job carries back is made of rectangular sets |
| Results.ReplyIsShown | src/QueryQueue.cpp:128-159 | the result a job carries back shows the server's reply: one set per answer or the statement's rows, cell by cell, and none exactly when the run failed |
| Results.FieldIndex | src/Result.hpp:52-62 | the first column of that name, -1 exactly when there is none |
| Results.ApplyKeepsOk | src/MySQLComponent.cpp:923-971 | every cache operation keeps all cached results grids and all handles below the next |
| Results.RetainedHandleIsStable | src/MySQLComponent.cpp:945-971 | through any operations but its release and a reset, a handle denotes the same result and activating it brings that back |
| Results.HandlesAreFresh | src/MySQLComponent.cpp:945-954 | a handle issued now was in use at no time since the last reset |
| Results.ResultCache.Save | src/MySQLComponent.cpp:945-954 | retains the active result under a handle not in use, or gives 0 when there is none |
| Results.ResultCache.Restore | src/MySQLComponent.cpp:956-966 | makes a retained result active, from its first set |
| Results.ResultCache.Delete | src/MySQLComponent.cpp:968-971 | forgets one handle and says whether it was retained |
| Results.ResultCache.Select | src/MySQLComponent.cpp:935-943 | selects a set that exists, otherwise changes nothing |
| Results.ResultCache.ActiveSet | src/MySQLComponent.cpp:910-921 | the selected set of the active result, a grid, if there is one |
| Results.ResultCache.CellAt | src/natives.cpp:1495-1503 | a cell exactly for positions inside the set; the unchecked row access is in bounds |
| Results.ResultCache.CellByName | src/natives.cpp:1547-1560 | the cell in the first column of that name, exactly when row and column exist |
| HashPool.HashJobsAreConserved | src/QueryQueue.cpp:232-288 | with any number of threads, every job is queued, in progress, finished or drained as often as it was submitted, computed no more often, and taken up in order |
| HashPool.StoppedPoolIsEmpty | src/QueryQueue.cpp:215-230 | when the threads of a stopped pool can be joined, nothing is queued or in progress and everything submitted was computed exactly once |
| HashPool.StoppingMakesProgress | src/QueryQueue.cpp:254-288 | while a pool stops, each thread still there can take a step, and every step that can happen lowers a measure |
| HashPool.StepConserves | src/QueryQueue.cpp:198-288 | every step of every thread moves jobs without losing or duplicating one |
| HashPool.MainStepActs | src/QueryQueue.cpp:198-252 | a pool starts once and with at least one thread, submitted jobs queue up in order whether or not it runs, a drain takes everything out in order, threads are gone only after the join |
| HashPool.HashEngine.StartHashing | src/QueryQueue.cpp:198-213 | starts at least one thread, and none when the pool runs already |
| HashPool.HashEngine.EnqueueHash | src/QueryQueue.cpp:232-239 | queues a job behind the others, whether or not the pool runs |
| HashPool.HashEngine.Work | src/QueryQueue.cpp:254-288 | moves the first queued job, computed, to the end of the output |
| HashPool.HashEngine.DrainHashes | src/QueryQueue.cpp:241-252 | returns every finished job, first finished first, and empties the output |
| HashPool.HashEngine.StopHashing | src/QueryQueue.cpp:215-230 | a running pool is emptied into its output; one that was never started keeps its queue, so nothing is left queued if and only if the pool ran or nothing was queued |
| ConfigCodec.StepIsInvertible | src/natives.cpp:145-146 | one keystream step can be taken back, so it is injective on 32-bit words |
| ConfigCodec.KeystreamAlive | src/natives.cpp:118-146 | whatever the key, no state of its keystream is zero |
| ConfigCodec.StreamDeterminesSeed | src/natives.cpp:137-150 | seeds whose streams meet at one place are equal |
| ConfigCodec.CfgKeySeed | src/natives.cpp:118-135 | the loop computes the FNV-1a seed, never zero, and says whether the environment supplied it |
| ConfigCodec.CfgXor | src/natives.cpp:137-150 | the output is as long as the text, and each byte differs from the text's by exactly the low byte of the keystream's state at its position |
| ConfigCodec.KnownHashes | src/natives.cpp:123-128 | the hash has the published FNV-1a values of the empty text, `a` and `foobar` |
| ConfigCodec.KnownKeystreams | src/natives.cpp:118-150 | the first keystream bytes without a key and with the key `a` |
| ConfigCodec.KeystreamIsLowByte | src/natives.cpp:145-147 | every keystream byte is its state modulo 256 |
| ConfigCodec.CfgDecodeIfNeeded | src/natives.cpp:154-162 | takes the header off what has it and combines each byte behind it with the keystream byte of its position; passes the rest through unchanged |
| ConfigCodec.Obfuscate | src/natives.cpp:1174-1211 | refuses exactly what has the header; what it writes is the header followed by the text combined byte by byte with the keystream, and decodes to the original under the same key |
| ConfigCodec.RoundTrip | src/natives.cpp:137-162 | for every text and key, decoding the header followed by the encoded text gives the text |
| ConfigCodec.EncodingIsInjective | src/natives.cpp:1174-1211 | different texts never have the same file |
| VectorText.VectorToString | src/natives.cpp:871-899 | the loop prints the bracketed, comma-joined numbers |
| VectorText.ParseVectorString | src/natives.cpp:902-947 | the loop reads the non-blank pieces between the first `[` and the next `]`, in order, without the blanks around them |
| VectorText.ListReads | src/natives.cpp:902-947 | a bracketed list of separable components reads as its non-blank components, whatever surrounds the brackets |
| VectorText.UnclosedListReads | src/natives.cpp:902-947 | a list whose closing bracket is missing reads the same, and text without an opening bracket has no numbers |
| VectorText.TrimIsCore | src/natives.cpp:915-926 | trimming takes exactly the spaces and tabs off both ends |
| VectorText.ListRoundTrip | src/natives.cpp:871-947 | as many numbers come back as there are components if and only if none is blank, and then each is the component's without the blanks around it |
| VectorText.PrintedShape | src/natives.cpp:871-899 | a printed vector is its numbers between brackets with one comma between each two, `[]` when it is empty |
| VectorText.PrintThenParse | src/natives.cpp:871-947 | parsing a printed vector gives what each printed number reads as, in order |

## Left out

- libmariadb, TLS options, sockets, Argon2, file input and output, logging, the script machine's calling convention: foreign code or easy members. A query is an arbitrary outcome.
- Waking a sleeping thread: `stop` clears the running flag without holding the queue's lock, so whether a sleeping worker wakes is not decided by this code. Waiting is a guarded step; progress is proved as "the thread can step, and few steps are left".
- The claim that only one thread touches the library handle: `escape`, `setCharset` and others run on the main thread.
- Parameter snapshots: a queued execution borrows the live statement, so a later rebind is visible to it; bindings of statement parameters are not modelled.
- A worker without a connection, which the source guards against but the component never makes.
- Uniqueness of handles across a reset: counters restart at 1 while finished jobs of the time before may still be in the sink. Jobs carry the identity of their connection, and the theorems speak of that.
- The destructor and `free`, which do what `reset` does.
- Hooks run between a synchronous return and its result becoming active: the return and the activation are one step.
- Writing a model's query result back into script memory, and the choice between insert and update in `mysql_model_save`.
- Truncation of texts to the script's buffer.
- Option setters, getters, version natives, the configuration reader's keys, build scripts and probes.
- Component.MySQLComponent.EnqueueJob: the class runs the main thread only, so its worker does not move meanwhile; `Protocol` covers the interleavings.
- Workers.ConnectionWorker.RunSync: the class runs the worker's thread in place of the wait; `Progress.WaitIsBounded` covers the wait among other threads.
- HashPool.HashEngine.StopHashing: the class empties the queue in one loop in place of several threads; `HashPool.StoppedPoolIsEmpty` covers any number of them.
- Guards.RateLimiterRefinesHistory: is about one connection with its window fixed; `Guarantees.VerdictFollowsHistory` says the same of runs of the engine, where the one native that sets the window always sets the same.
- VectorText.PrintThenParse: says nothing about digits the printer drops; printing and reading one number are parameters.
