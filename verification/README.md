# PgTest: the lease engine and its neighbours, verified

PgTest hands cloned PostgreSQL databases to tests under lease ids. This project
models the parts of it that carry its guarantees and proves them in Dafny:

* the **lease engine**, a message loop over leases, lease records, a waiting queue
  with its groups of replies, and the database inventory;
* the **protocol around it**: the inbox, the sessions whose drop guards send detaches,
  the creation and cleanup queues with their jobs, and the expiry timers;
* four smaller cores: the **bounded windows** for CREATE and DROP, the **upstream
  frame reader**, the **control SQL** recogniser, and **database naming**.

## How the engine is modelled

The engine is modelled three times, each level proved to agree with the next.

1. `WorkerEngine.dfy` and `Inventories.dfy` are the objects: fields updated in place,
   loops over queued replies, ids reserved and cancelled one at a time. Every method
   is proved to turn the whole state `S()` into a function of the old one. The source's
   `expect`s (a ready database when dispatching, an assigned lease when replying, a
   nonzero growth, a pending reservation at startup) are discharged on the way.
2. `EngineSpec.dfy` says what one message does as a function of values
   (`Process`, `Run`); a whole group of replies is served in one step there.
3. `Ledger.dfy` is a machine of atomic actions with its invariants. `Soundness.dfy`
   proves that each action keeps them, and `Plans.dfy` that each message is a plan of
   enabled actions, so whatever the actions keep holds after every message and in
   every reachable state.

`Lifecycle.dfy` maps the containers to one phase per database id and one state per
lease and orders both. `Transitions.dfy` says for each kind of message which ids and
which leases it may move, from where to where, and leaves everything else in place;
every message is such a step, and the order is what the steps add up to over a run.
`Answers.dfy` states the whole answer to an attach, a release, an expiry and a failed
creation, and `Handover.dfy` whom a created database goes to and what everybody in the
queue is told. Both, like everything that depends on a clock, are stated by the plain
arithmetic of `Timing.dfy`. `Pool.dfy`, `Drain.dfy`, `Fifo.dfy` with `Overtaking.dfy`, `Accounting.dfy` and
`Records.dfy` prove the pool floor, the drain theorem, first come first served, reply
accounting and the record bounds over whole runs. `Protocol.dfy` composes the engine
with its neighbours as one transition system over every interleaving, `Effects.dfy`
relates what a message hands out to how the engine changes, and `SystemRuns.dfy` proves
the accounts of the whole system. The system also holds the databases the PostgreSQL
server really has, by name. `Server.dfy` proves that the engine's picture of them is true
in every interleaving. About the server this assumes that it refuses a name that is taken,
that a failed CREATE or DROP changes nothing, and that it starts with the started engine's
ready databases.

Whatever the environment decides is an input. Whether a reply channel still has a
receiver is a fixed arbitrary property of the channel, because it is answered at most
once. The instant at which each queued reply is looked at, whether a submission is
accepted, and how a creation or a drop ends are arbitrary. The output log `out` records
every reply, lapse, submission and timer, so that properties of histories can be
stated.

## Where a property does not hold

* The startup sweep (`Sweep.dfy`) looks for databases named like `<template>_%`, without
  escaping the template. For templates without a backslash it is settled when that goes
  wrong:
  * It is sure to find every generated database if and only if the template has at most
    25 bytes, or everything cut off is underscores and percent signs and the generated
    part of the name has room for the underscores at the template's end
    (`SweepIsComplete`). Of a template of 26 letters it never finds any database
    (`LongTemplateMissed`).
  * It spares the template itself if and only if the last character of its name other
    than an underscore is not a percent sign (`SweepSparesTemplate`); it finds `a%`
    (`PercentTemplateFound`).
* A backslash in the template escapes what follows it. The sweep finds the template `a\\`
  itself (`EscapedTemplateFound`) and never finds a database generated for `\b`
  (`EscapedTemplateMissed`). For every template without a percent sign the names found
  are known character by character (`SweepExactly`), which decides both questions:
  `EscapedTemplate` for templates of at most 25 bytes, `TwoProbes` for all lengths.
* An underscore in LIKE stands for any character, so the sweep also finds databases no
  pool generated, such as `apple` for the template `app` (`ForeignNameFound`).
* `crates/pgtest-core/README.md:17-21` describes cleanup in batches every 100 ms. The
  worker starts each drop as its request arrives
  (`crates/pgtest-core/src/worker_manager/database_cleanup_worker.rs:35-79`); the model
  follows the worker.

## Model

| member | source | states |
|---|---|---|
| `Inventories.DatabaseInventory.ReserveCreations` | crates/pgtest-core/src/worker_engine/database_inventory.rs:61-74 | reserves exactly the next `amount` ids and returns them as a batch; nothing for an empty batch |
| `Inventories.DatabaseInventory.CancelCreation` | crates/pgtest-core/src/worker_engine/database_inventory.rs:77-79 | gives one reservation back and says whether there was one |
| `Inventories.DatabaseInventory.CompleteCreation` | crates/pgtest-core/src/worker_engine/database_inventory.rs:84-95 | settles a pending reservation once, adding a ready database only on success; an unknown or repeated completion changes nothing |
| `Inventories.DatabaseInventory.TakeReady` | crates/pgtest-core/src/worker_engine/database_inventory.rs:97-99 | takes the oldest ready database, if any |
| `Inventories.DatabaseInventory.ReturnReady` | crates/pgtest-core/src/worker_engine/database_inventory.rs:103-106 | puts a database back in front, undoing a take |
| `Inventories.DatabaseInventory.Retire` | crates/pgtest-core/src/worker_engine/database_inventory.rs:110-115 | records the retirement under the database's own name |
| `Inventories.DatabaseInventory.CompleteCleanup` | crates/pgtest-core/src/worker_engine/database_inventory.rs:119-130 | forgets a retired database only after a successful drop |
| `Engine.WorkerEngine.TryInit` | crates/pgtest-core/src/worker_engine/core.rs:116-140 | whatever the completion order, every initial reservation is pending when its report comes, all are settled at the end, exactly the successful databases are ready, and an error is returned exactly when some creation failed |
| `Engine.WorkerEngine.ProcessMessages` | crates/pgtest-core/src/worker_engine/core.rs:148-190 | the loop computes the run of its messages and stops at a shutdown |
| `Engine.WorkerEngine.RunLoop` | crates/pgtest-core/src/worker_engine/core.rs:143-146 | a started engine is in a reachable state after each of its messages, and ends in the state of the whole run with every token cancelled |
| `Engine.WorkerEngine.HandleMessage` | crates/pgtest-core/src/worker_engine/core.rs:149-189 | each message turns the whole state into `Process` of it, stale detaches and expiries included |
| `Engine.WorkerEngine.HandleDatabaseWorkerMessage` | crates/pgtest-core/src/worker_engine/core.rs:193-220 | a pending creation's report settles, dispatches and grows; unknown reports change nothing; failed cleanups keep the record |
| `Engine.WorkerEngine.AdmitLease` | crates/pgtest-core/src/worker_engine/core.rs:222-231 | the record of a known lease, a new open record below the limit, a refusal at it |
| `Engine.WorkerEngine.ReleaseLease` | crates/pgtest-core/src/worker_engine/core.rs:233-250 | closes the lease, rejects its queued replies one by one, removes it from the queue and retires its database; changes nothing when closed or at the limit |
| `Engine.WorkerEngine.AttachOrJoin` | crates/pgtest-core/src/worker_engine/core.rs:252-292 | rejects, joins, queues or serves, including the rollback and dispatch when nobody receives the reply |
| `Engine.WorkerEngine.DispatchWaiters` | crates/pgtest-core/src/worker_engine/core.rs:295-342 | the loop serves the queue from the front while databases are ready; the take inside never fails |
| `Engine.WorkerEngine.ServeGroup` | crates/pgtest-core/src/worker_engine/core.rs:312-340 | answering a group reply by reply and rolling back equals serving it at once |
| `Engine.WorkerEngine.AnswerQueued` | crates/pgtest-core/src/worker_engine/core.rs:314-335 | a late reply is only counted; a live one gets the lease's database, taken from the pool if the lease has none yet |
| `Engine.WorkerEngine.ReplyAttached` | crates/pgtest-core/src/worker_engine/core.rs:344-361 | counts exactly the delivered replies and refuses beyond 65535 connections |
| `Engine.WorkerEngine.RestoreUnclaimedDatabase` | crates/pgtest-core/src/worker_engine/core.rs:363-372 | an assignment without connections is undone: token cancelled, database back in front |
| `Engine.WorkerEngine.AssignDatabase` | crates/pgtest-core/src/worker_engine/core.rs:375-406 | a fresh generation and, with a timeout, its timer |
| `Engine.WorkerEngine.Grow` | crates/pgtest-core/src/worker_engine/core.rs:408-447 | submits the deficit rounded up to whole batches, and cancels a refused batch id by id |
| `Engine.WorkerEngine.RetireLease` | crates/pgtest-core/src/worker_engine/core.rs:450-465 | retires the database, submits its cleanup once and grows |
| `Engine.StepwiseServe` | crates/pgtest-core/src/worker_engine/core.rs:295-372 | for every group and every mix of late, live and undeliverable replies, the stepwise take, assign, reply and restore has the closed form `Serve` |
| `Soundness.StepSound` | crates/pgtest-core/src/worker_engine/core.rs:148-465 | every action keeps the invariants on placement, generations, queues, bounds, deliveries, cleanups and batches |
| `Plans.MessageRuns` | crates/pgtest-core/src/worker_engine/core.rs:148-220 | every message is a plan of enabled actions and leaves nobody waiting beside a ready database |
| `Plans.ReachableValid` | crates/pgtest-core/src/worker_engine/core.rs:116-190 | the invariants hold in every reachable state |
| `Lifecycle.ExactlyOnePhase` | crates/pgtest-core/src/worker_engine/burst_tests.rs:108-129 | every database id is in exactly one of unissued, creating, failed, ready, leased, retiring, cleaned |
| `Lifecycle.MessageEvolves` | crates/pgtest-core/src/worker_engine/core.rs:148-220 | no message, stale and duplicate ones included, moves a database id or a lease backwards, takes back an answer or reuses a generation |
| `Transitions.MessageSteps` | crates/pgtest-core/src/worker_engine/core.rs:148-220 | each message is a step labelled by it: stale, unknown and repeated ones move nothing; a finished creation takes exactly its id to ready, to a queued lease or to failed; a release or a current expiry takes exactly the lease's id to retiring; a successful cleanup takes exactly its id to cleaned; an attach assigns its own lease the oldest ready database exactly when one is ready and the reply is received, and otherwise queues, refuses or leaves the lease; all other ids are at most reserved, or failed with a refused batch |
| `Transitions.HeldIsLeased` | crates/pgtest-core/src/worker_engine/core.rs:363-406 | a lease holds an id under a generation if and only if that id is leased to it under that generation |
| `Transitions.StepForward` | crates/pgtest-core/src/worker_engine/core.rs:148-220 | whatever satisfies the step relation moves ids and leases only forwards |
| `Transitions.FailedForAReason` | crates/pgtest-core/src/worker_engine/core.rs:193-447 | an id becomes failed only when its creation is reported failed or its batch was refused |
| `Answers.AttachAnswered` | crates/pgtest-core/src/worker_engine/core.rs:252-292 | the state after every attach: joined below 65535 connections with the lease's own database and generation, FailedToAttach at them; offered the oldest ready database, and assigned it exactly if the reply is received, else everything is put back and the generation is dead; queued last in its group when nothing is ready; refused when closed or at the record limit |
| `Answers.DetachUndoesJoin` | crates/pgtest-core/src/worker_engine/core.rs:159-167 | a received join followed by the detach of its session leaves the engine as it was but for the answer in the log |
| `Answers.ReleaseAnswered` | crates/pgtest-core/src/worker_engine/core.rs:233-250 | the state after every release: the lease is closed, all its queued replies are rejected in order, it alone leaves the queue, its database alone is retired, and the answer comes last; a closed lease and the record limit are only answered |
| `Answers.ExpiryAnswered` | crates/pgtest-core/src/worker_engine/core.rs:170-175 | the expiry of a live assignment retires exactly that lease's database, cancels its generation and is counted; the queue and the records stay |
| `Answers.FailureAnswered` | crates/pgtest-core/src/worker_engine/core.rs:196-208 | a failed creation gives up its reservation, is counted, hands out nothing and at most requests new creations |
| `Answers.StaleChangesNothing` | crates/pgtest-core/src/worker_engine/core.rs:160-219 | detaches and expiries of other generations, reports of unknown ids and failed cleanups leave the whole state as it was |
| `Answers.ShutdownStops` | crates/pgtest-core/src/worker_engine/core.rs:184-187 | after a shutdown message no further messages change anything |
| `Handover.CreationServes` | crates/pgtest-core/src/worker_engine/core.rs:295-361 | a created database goes to the first lease in the queue with a reachable reply asked for within the timeout; the leases ahead of it are dropped, those behind stay; every reply of the dropped groups and of the served one is answered in order: late ones lapse, the others are offered the database, to 65535 connections; with no such lease the database stays ready |
| `Handover.FrontIsDelivered` | crates/pgtest-core/src/worker_engine/core.rs:312-335 | if the front of the queue has a reachable reply asked for within the timeout, the front is assigned the created database, and that consumer is delivered it unless 65535 replies of the group come before |
| `Handover.QueuedWasAsked` | crates/pgtest-core/src/worker_engine/core.rs:276-281 | over any run from the start, a queued reply and its time are those of an attach message for that lease |
| `Handover.LapsedWasLate` | crates/pgtest-core/src/worker_engine/core.rs:314-321 | over any run from the start, a reply is said to have lapsed only by a message that looked at it more than the claim timeout, which is not zero, after the time its attach message carried |
| `Lifecycle.Conservation` | crates/pgtest-core/src/worker_engine/database_inventory.rs:61-130 | from any reachable state, phases are unique and never move backwards over any run: no id is reissued and nothing returns to the pool once delivered |
| `Lifecycle.Isolation` | crates/pgtest-core/src/worker_engine/core.rs:285-372 | over any run, two delivered replies with the same database have the same lease and generation, and a ready database was never delivered |
| `Lifecycle.ClosedForEver` | crates/pgtest-core/src/worker_engine/core.rs:233-267 | a closed lease stays closed over any run, never holds or waits for a database and is never delivered one |
| `Lifecycle.TokenTracksAssignment` | crates/pgtest-core/src/worker_engine/core.rs:363-406 | a generation's token is uncancelled exactly while its assignment is live and the engine runs |
| `Lifecycle.DeadGeneration` | crates/pgtest-core/src/worker_engine/core.rs:160-176 | a dead generation stays dead over any run, and its late events change nothing |
| `Records.Capacity` | crates/pgtest-core/src/worker_engine/core.rs:222-231 | assigned plus waiting leases never exceed the records, nor the records their limit |
| `Records.ReleaseOutcome` | crates/pgtest-core/src/worker_engine/core.rs:222-250 | a release succeeds exactly when the lease has a record or there is room, and then the lease is closed, unassigned and unqueued |
| `Records.RepeatedRelease` | crates/pgtest-core/src/worker_engine/core.rs:233-236 | after an accepted release and any run, releasing again only answers |
| `Records.QueueCoherence` | crates/pgtest-core/src/worker_engine/core.rs:269-345 | in every reachable state the queue has no duplicates, holds exactly the leases with a nonempty group, none of them assigned or closed, and is empty while a database is ready |
| `Records.QueueMoves` | crates/pgtest-core/src/worker_engine/core.rs:246-300 | each message appends one lease, deletes the released one, drops a prefix, or leaves the queue alone |
| `Pool.RoundUpIsCeiling` | crates/pgtest-core/src/worker_engine/core.rs:436 | the ceiling division times the batch size is the least covering multiple |
| `Pool.GrowthCoversDemand` | crates/pgtest-core/src/worker_engine/core.rs:408-438 | with N unassigned leases that have a reply asked for within the timeout, an accepted growth does nothing if ready plus creating is at least N + threshold + 1 already, and otherwise requests the next ids, whole batches, up to that number and less than a batch beyond; asking again, then or at any later time, asks for nothing |
| `Pool.RejectedGrowth` | crates/pgtest-core/src/worker_engine/core.rs:438-446 | a rejected growth restores the reservations exactly, while as many ids stay used, and as many slots are counted, as an accepted one would have reserved |
| `Pool.PoolFloor` | crates/pgtest-core/src/worker_engine/core.rs:408-465 | ready plus creating databases are at least N + threshold + 1, where N counts the unassigned leases with a reply asked for within the timeout; this survives every run without a rejected submission as time passes |
| `Pool.FloorOnceGrown` | crates/pgtest-core/src/worker_engine/core.rs:275-292 | the floor holds from the first accepted reconsideration of the supply on |
| `Pool.WaitersAreCovered` | crates/pgtest-core/src/worker_engine/core.rs:269-283 | from the start, somebody waits only while the floor holds |
| `Drain.WaitersDrain` | crates/pgtest-core/src/worker_engine/core.rs:193-208 | once every creation pending at some instant has finished successfully, in any order, with any delivery failures, expiries, releases and passage of time, nobody is waiting |
| `Drain.ReachableWaitersDrain` | crates/pgtest-core/src/worker_engine/core.rs:193-447 | the same from every state a run without rejected submissions reaches |
| `Overtaking.MessageDeparts` | crates/pgtest-core/src/worker_engine/core.rs:233-342 | the message that takes a lease off the queue is its release, or assigns it, or every reply of its group was unreachable or older than the timeout; and it answers all of the group before it hands a lease behind it anything |
| `Overtaking.NoOvertaking` | crates/pgtest-core/src/worker_engine/core.rs:246-342 | over any run, if a lease that was not ahead holds or was delivered a database, then an earlier message took the first lease off the queue because it was released or assigned, or because each of its replies was unreachable or late, and in the log every reply of the first is answered before anything handed to the other |
| `Accounting.RepliesAccounted` | crates/pgtest-core/src/worker_engine/core.rs:240-361 | over any run the attach requests read are, as a multiset, those answered, those lapsed and those still held, and `waiter_timeouts` counts the lapsed ones |
| `Effects.MessageAdds` | crates/pgtest-core/src/worker_manager/worker_io.rs:67-199 | the sessions, batches and drops a message hands out are exactly the connections, reservations and retirements it adds to the engine, and every new live assignment with a timeout has armed its timer |
| `SystemRuns.StepConsistent` | crates/pgtest-core/src/worker_manager/worker_io.rs:40-199 | every step of every component keeps the accounts of the composed system |
| `SystemRuns.ObservableReachable` | crates/pgtest-core/src/worker_manager/worker_io.rs:209-225 | in any interleaving the engine is in a state of one of its own runs |
| `SystemRuns.ConnectionAccounting` | crates/pgtest-core/src/worker_manager/worker_io.rs:40-97 | the connections of a live assignment are its undropped sessions plus the detaches in the inbox, `detach_on_zero` stays 0, and no session refers to a ready database |
| `SystemRuns.CreationSafety` | crates/pgtest-core/src/worker_manager/database_creation_worker.rs:35-82 | the reservations are the disjoint union of queued, running and reported ids, so each report finds its reservation |
| `SystemRuns.DropSafety` | crates/pgtest-core/src/worker_manager/database_cleanup_worker.rs:35-79 | a queued or running drop is of a database retired under that name, neither reserved, ready nor leased, and each id is sent for cleanup at most once ever |
| `SystemRuns.ExpiryPending` | crates/pgtest-core/src/worker_manager/worker_io.rs:176-199 | every live assignment with a timeout has its timer armed or its expiry in the inbox |
| `Server.StepMatches` | crates/pgtest-core/src/worker_manager/database_cleanup_worker.rs:52-79 | every step of every component keeps the engine's picture of the server true |
| `Server.ExistingIsHeld` | crates/pgtest-core/src/worker_manager/database_cleanup_worker.rs:52-79 | in every interleaving each ready and leased database exists on the server under its own name and id, each retiring one exists until its successful drop is on the way back, and each existing one is held by the engine or about to be reported to it |
| `Server.ServerByPhase` | crates/pgtest-core/src/worker_manager/database_creation_worker.rs:50-82 | id by id: an unissued or failed one never had a database, a reserved one had one exactly when that is being reported, a ready, leased or not yet dropped one has one, a cleaned one has none, and none ever had two |
| `Server.DropHitsOwn` | crates/pgtest-core/src/worker_manager/database_cleanup_worker.rs:57-63 | the name of a queued or running drop is that of its own existing, retired database, and of no ready or leased one |
| `EngineTypes.IndexedIds` | crates/pgtest-core/src/worker_engine/database_jobs.rs:15-23 | the indices of a batch number its reserved ids, each exactly once |
| `BoundedWindow.RunBounded` | crates/pgtest-database-operations/src/manager/creation.rs:5-27 | for every amount, limit and completion order, each index is reported exactly once with its own result, and the trace of starts and finishes never has more than the window in flight |
| `BoundedWindow.BoundedAlways` | crates/pgtest-database-operations/src/manager/creation.rs:11-25 | in a bounded trace at most the window is in flight after every prefix |
| `BoundedWindow.DropDatabases` | crates/pgtest-database-operations/src/manager.rs:176-200 | the same for the pipelined drops with depth 32; without a connection nothing is submitted |
| `UpstreamFrames.Upstream.ReadUntil` | crates/pgtest-wire/src/postgres_upstream.rs:214-230 | fails exactly when the stream is too short, and loses or reorders no byte |
| `UpstreamFrames.Upstream.ReadFrame` | crates/pgtest-wire/src/postgres_upstream.rs:185-211 | the header or the error is a function of the bytes alone |
| `UpstreamFrames.Upstream.Authenticate` | crates/pgtest-wire/src/postgres_upstream.rs:101-138 | accepts exactly a decodable trusted authentication frame, splits it off, and keeps the rest |
| `UpstreamFrames.Upstream.WaitForReady` | crates/pgtest-wire/src/postgres_upstream.rs:170-182 | splits the burst off the stream, whatever the reads were |
| `UpstreamFrames.Upstream.Connect` | crates/pgtest-wire/src/postgres_upstream.rs:58-70 | authentication frame, burst, leftover and unread bytes are the stream, and the outcome does not depend on how it was cut into reads |
| `UpstreamFrames.BurstExactly` | crates/pgtest-wire/src/postgres_upstream.rs:170-211 | the burst is exactly the run of whole messages that ends with the first ReadyForQuery or error |
| `UpstreamFrames.ConnectComplete` | crates/pgtest-wire/src/postgres_upstream.rs:58-138 | a trusting server's startup, encoded message by message, is read back exactly |
| `UpstreamFrames.FirstMessageAnswered` | crates/pgtest-wire/src/postgres_upstream.rs:110-138 | for every first message of the server: an error is StartupRejected, another message is refused by its tag, an authentication request without its code or salt by its length, and any other request as it decodes; only a trusting one is accepted |
| `UpstreamFrames.BrokenOff` | crates/pgtest-wire/src/postgres_upstream.rs:185-230 | a message cut off before its last byte fails as the stream ended, unless its length is over the maximum |
| `UpstreamFrames.LengthRefused` | crates/pgtest-wire/src/postgres_upstream.rs:185-211 | a length below 4, negative ones included, is refused with that length |
| `Quoting.BodyIsDoubled` | crates/pgtest-wire/src/control_panel/grammar.pest:5 | every literal body the grammar accepts is the doubling of its decoded value |
| `Quoting.DoublePart` | crates/pgtest-database-operations/src/manager/database_name.rs:78-80 | wherever it stands, a quote becomes two and any other character stays |
| `ControlSql.PingExactly` | crates/pgtest-wire/src/control_panel/grammar.pest:1-11 | a query is a ping if and only if it is SELECT 1 with ASCII letters in either case, spaces of the codes 32, 9, 13 and 10, and an optional semicolon |
| `ControlSql.LiteralExactly` | crates/pgtest-wire/src/control_panel/statement.rs:19-58 | a query releases the literal lease v if and only if it is the call with v in single quotes, quotes doubled, in such a spelling |
| `ControlSql.ParameterExactly` | crates/pgtest-wire/src/control_panel/statement.rs:46-50 | a query releases the bound parameter if and only if it is the call with $1, with or without the cast, in such a spelling |
| `ControlSql.Unambiguous` | crates/pgtest-wire/src/control_panel/grammar.pest:9-11 | no text is both a ping and a release, and a release names one lease |
| `DatabaseName.CutAt` | crates/pgtest-database-operations/src/manager/database_name.rs:56-59 | the loop ends on the last character boundary within the limit |
| `DatabaseName.Truncate` | crates/pgtest-database-operations/src/manager/database_name.rs:47-66 | the prefix is the template, or its longest whole-character cut with a discriminator |
| `DatabaseName.PrefixKeeps` | crates/pgtest-database-operations/src/manager/database_name.rs:47-66 | a template of at most 25 bytes is kept, and a longer one keeps exactly the leading characters that fit into 25 bytes |
| `DatabaseName.EncodesShortest` | crates/pgtest-database-operations/src/manager/database_name.rs:52-59 | the bytes of a character stand for its number and are as few as possible, which fixes where a name may be cut |
| `DatabaseName.BoundaryIsCharStart` | crates/pgtest-database-operations/src/manager/database_name.rs:57 | a byte position is a boundary if and only if a character starts or the text ends there |
| `DatabaseName.PickLetters` | crates/pgtest-database-operations/src/manager/database_name.rs:20-45 | the picked letters in order, all of them ASCII letters |
| `DatabaseName.EveryIdOnce` | crates/pgtest-database-operations/src/manager/database_name.rs:3-45 | the generated ids are exactly the texts of ASCII letters, each from one sequence of picks, so different picks give different ids |
| `DatabaseName.NameFits` | crates/pgtest-database-operations/src/manager/database_name.rs:68-72 | every generated name has at most 63 bytes, for every template |
| `DatabaseName.QuotedIsOneToken` | crates/pgtest-database-operations/src/manager/database_name.rs:78-80 | a quoted identifier is read back as itself, and the token ends exactly where it should |
| `Sweep.SweepFindsPrefix` | crates/pgtest-database-operations/src/manager.rs:230-243 | for every template: a name is found exactly when some prefix of it is like the template followed by one more character |
| `Sweep.SweepExactly` | crates/pgtest-database-operations/src/manager.rs:230-243 | for templates without a percent sign, backslashes or not: exactly the names are found whose first characters are those the template asks for, one by one, and one more |
| `Sweep.SweepSparesTemplate` | crates/pgtest-database-operations/src/manager.rs:239 | for templates without a backslash: the pattern does not match the template if and only if the last character other than an underscore is not a percent sign |
| `Sweep.SweepFindsShort` | crates/pgtest-database-operations/src/manager.rs:230-243 | for templates of at most 25 bytes without a backslash: every generated name is found |
| `Sweep.SweepIsComplete` | crates/pgtest-database-operations/src/manager.rs:230-243 | for templates without a backslash: every generated name is sure to be found if and only if the template was not cut, or only underscores and percent signs were cut off and the name has room for the underscores at its end |
| `Sweep.LongTemplateMissed` | crates/pgtest-database-operations/src/manager/database_name.rs:61-65 | no name generated for 26 letters is ever matched |
| `Sweep.ForeignNameFound` | crates/pgtest-database-operations/src/manager.rs:239 | the pattern matches a name that was not generated |
| `Sweep.PercentTemplateFound` | crates/pgtest-database-operations/src/manager.rs:239 | the template `a%` is matched by its own pattern |
| `Sweep.EscapedTemplate` | crates/pgtest-database-operations/src/manager.rs:230-243 | for templates of at most 25 bytes with a backslash and no percent sign: a generated name is found if and only if the template itself is |
| `Sweep.TwoProbes` | crates/pgtest-database-operations/src/manager/database_name.rs:61-72 | for templates without a percent sign: every generated name is sure to be found if and only if the one of all a's and the one of all b's are |
| `Sweep.EscapedTemplateFound` | crates/pgtest-database-operations/src/manager.rs:239 | a template that ends in two backslashes is matched by its own pattern |
| `Sweep.EscapedTemplateMissed` | crates/pgtest-database-operations/src/manager.rs:239 | no name generated for a backslash and a letter is ever matched |

## Left out

- Engine.WorkerEngine.HandleMessage: database ids and generations are required to stay within 64 bits, because the source panics when they are exhausted; its other counters are unbounded here.
- Engine.WorkerEngine.AssignDatabase: the delay handed to the timer is not modelled, so neither is its cast to 32 bits; a timer may fire at any time.
- Handover.LapsedWasLate: times and the timeout are in one unit; that the source compares whole milliseconds is not modelled, nor is the change of the clock while one reply is looked at.
- Server.StepMatches: a CREATE or DROP that takes effect although it is reported failed, and databases created or dropped by anybody else, are not modelled.
- UpstreamFrames.Upstream.ReadFrame: positions are unbounded except for the checked addition, so a buffer beyond the address space is not modelled.
- Sweep.SweepSparesTemplate: for templates with both a percent sign and a backslash only `SweepFindsPrefix` is proved, not a condition to read off the template, because an escaped character may be matched inside a percent sign's run; those without a percent sign are covered by `SweepExactly`.
- Sweep.SweepIsComplete: likewise, completeness for templates with a backslash is settled by `TwoProbes` without a percent sign and open with one.
- Effects.MessageAdds: that a timer is armed only for a new assignment is not stated; stale expiries change nothing (`Lifecycle.DeadGeneration`).
- SystemRuns.StepConsistent: runs of the composed system end before a shutdown message; what shutdown interrupts is not modelled.
- Authentication::decode and its maximum length are parameters of the frame reader; the decoding itself belongs to a library.
- The creation and cleanup workers, timers and session guards are steps of the transition system rather than loops of their own, because what matters is their interleaving.
- The chunked join of the startup sweep's drops and the filter of forwarded startup parameters would only add easy members.
- Acquiring connections, version checks and executing SQL are inputs or absent.
- Listeners, TLS, the session relay, the control panel's wire handlers, configuration, logging and profiling.
- Lease id validation and the mapping of errors to SQLSTATE.
- Whether random letters are ever drawn twice: the server is taken to refuse a name that is taken, and isolation is argued by database id.
- The barrier message and the debug assertions, which exist in test and debug builds only.
