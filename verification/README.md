# A verified model of orch's deployment engine

`orch` is a deployment orchestrator. It promises that no committed change is lost whatever byte a
crash falls on, that no target stays locked, that an executor which has lost its lease never moves
a deployment again, that a failed rollback never starts another, and that every state change is
audited and announced exactly once. This project models the parts of `v1/internal` that make those
promises and proves what they rest on.

Check everything with `dafny verify dfyconfig.toml`.

## What is modelled

- **Journal** (`Journal.dfy`, `Tears.dfy`): the append-only file as a sequence of bytes. Records are
  framed with magic, length and checksum; a group of records counts only once its commit marker is
  whole. Replay, truncation of a torn tail, and any number of appends that the disk fails after any of
  their bytes, the store carrying on behind them, are all modelled on bytes.
- **Store** (`Records.dfy`, `Decisions.dfy`, `Promises.dfy`, `Store.dfy`, `Coherence.dfy`,
  `AuditChain.dfy`): the rows, the in-memory index, and class `Store`, whose methods update the index
  in place beside the journal. What each operation decides is also given as a function of index, clock
  and arguments (`Decisions`); the methods are proved against these functions, and the run theorems are
  about sequences of them. `Promises` says what the functions come to in rows before and after.
- **Runs** (`Runs.dfy`, `Fencing.dfy`, `Walks.dfy`, `Notices.dfy`, `AuditProofs.dfy`): arbitrary
  sequences of store calls by any number of callers, the disk taking each write or refusing it after
  some of its bytes. An interleaving of executors, heartbeats, aborts and reconcilers is one such
  sequence. These theorems are about the index of the running store and about what it has reported as
  written. Replaying the file gives that, at any crash, if no refused write has left a byte since the
  store was opened (`Durability.CrashAtAnyByte`); what it gives otherwise is the matter of
  `Durability.dfy`: what torn writes cost, and what writes do that are refused and yet whole on disk.
- **Engine** (`World.dfy`, `Conduct.dfy`, `Endings.dfy`, `Holding.dfy`, `Watching.dfy`, `Executor.dfy`,
  `Licences.dfy`, `Recovery.dfy`, `Reconcile.dfy`, `Outbox.dfy`): one executor run, abort,
  reconciliation pass or outbox pass against a store that others use at the same time. A schedule fixes, before each store call of ours, which
  calls others make and at what times, when our call comes, and what the disk does with every write.
  Any number of calls fit between two of ours, heartbeats, expiries and new grants among them, so a
  schedule is an interleaving and every interleaving is a schedule. A script fixes what provider,
  verifiers and gates answer. Safety statements about the running store hold for every schedule and
  script; what a restart finds in the file, refused writes included, is stated in `Licences.dfy`. Where
  a run ends is stated for the schedules that are calm from the run's first turn to its last: the disk
  takes its writes, others leave the row alone and neither break its lease nor give it back in its name,
  and the lease is renewed before it runs out (`Holding.Held`). Others may ask for the lease as often as
  they like. A wait of any length is calm if the heartbeat keeps time (`Holding.BeatingIsCalm`). What a
  calm run comes to is read off the row, the configuration and the script's answers
  (`Endings.AsItShould`).
- **Self-contained parts**: the verification loop (`Verify.dfy`), the streaming redactor
  (`Redact.dfy`), identifiers (`Ulid.dfy`, on `Numerals.dfy`), the edit distance
  (`EditDistance.dfy`), version order and rollback planning (`Rollback.dfy`).

JSON encoding, CRC-32, SHA-256 and the time format are parameters. `Journal.Lawful` asks of a codec
that decoding undoes encoding; `AuditProofs.NoCollisions` asks that the digest does not collide on
the payloads of the two logs compared, and `AuditProofs.FixedFormat` that digests have 64
characters and instants can be read back; `Tears.Clear` asks that no torn record is completed by
coincidence, with the right checksum, out of what was written behind it. A crash is a prefix of the
bytes being appended.

## What the proofs found

The following hold of the code but not of its comments or documentation.

- After a failed append the journal is left as it is and appending goes on. If the failed write left
  nothing, nothing is lost. If it left part of its group, every later commit, reported as durable, is
  out of replay's reach (`Tears.SurvivesExactly`): the next start refuses the whole file, or, when what
  is there of a torn record claims more bytes than follow it, reads it without complaint and truncates
  them away (`Tears.ReplayExactly` says which; `Journal.AnyFailedAppend` gives the byte counts).
- So a deploy can be called under a transition that a restart does not find: after a torn write, the
  engine may have recorded ROLLING_BACK and redeployed, and the store reopens in the state before the
  tear (`Licences.LicenceLost`). The licence survives exactly if no write before it was torn
  (`Licences.CrashAfterDeploy`).
- If a failed append left all of its group, the operation that was reported as failed takes effect at
  the next start (`Durability.WholeRefusalTakesEffect`), behind the back of the running store. Its audit
  entry breaks the chain in the file as soon as another is written (`Durability.ChainOnDisk`), and its
  row breaks the walk as soon as the old row is rewritten (`Durability.WalkOnDisk`,
  `Durability.RewriteBreaksWalk`).
- The failure path writes the executor's whole copy of the row back to record the reason. After an abort
  that it has not seen, this wipes the row's finish time (`Executors.Executor.ReadAndRecord`).
- `UpdateDeployment` rewrites the row but not the idempotency table, while replay files the row
  under its key. Live index and replay agree exactly when the key already led to the row
  (`Stores.Store.UpdateDeployment`).
- `Run` is said to end in a terminal state. It does not when it fails in PREFLIGHT, in
  AWAIT_APPROVAL, or is started again in ROLLING_BACK, under the exact conditions of
  `Conduct.Stranded` (`Conduct.RunEndsTerminal`).
- Reconciliation puts a row whose deploy landed back to VERIFYING, to be verified. A later `Run`
  starts at PREFLIGHT, is refused, and takes the failure path, which may roll the deployment back
  (`Conduct.ResumedIsNotVerified`). A second reconciliation pass makes the row UNKNOWN or FAILED
  (`Recovery.TwoPasses`).
- The five-minute cap on the retry delay never applies: the exponent is capped at 8, so the longest
  delay is 256 seconds (`OutboxWork.RetriedSoon`).
- A higher-is-better ratio passes on negative values and then fails on zero
  (`Verification.BetterPasses`, exactly when).
- A policy the loader accepts never ends short of samples (`Verification.NeverShort`), but the bake of
  a canary step replaces the policy's without that check, and ends short of samples exactly when it
  has fewer turns than samples asked for (`Verification.ShortExactly`).
- `versionLess` is not a strict weak order: it runs in a circle on 9, 10 and 1a
  (`Rollbacks.OlderCanCycle`), and with leading zeros on 1, 01 and 0a
  (`Rollbacks.ZerosBreakTheOrder`). On any three versions it is one exactly when at the first position
  where they differ no text is caught between two numbers (`Rollbacks.OlderExactly`).
- A secret in a line of more than 4096 bytes can get through the redactor, wherever the line is
  (`Redaction.LongLineLeaks`); up to that length no newline-free one does
  (`Redaction.ChunkingExactly`, `Redaction.NoSecretGetsOut`). A single short secret can get out exactly
  if somewhere it ends more than 4096 bytes into a line (`Redaction.SecretLeaksExactly`).

## Model

| member | source | states |
|---|---|---|
| `Journal.ParseWhole` | v1/internal/store/journal.go:286-297 | a framed record at the front of any bytes is read back as written, and what follows it is left over |
| `Journal.ParseTorn` | v1/internal/store/journal.go:131-168 | a record cut short at any byte reads as a torn tail, never as corruption |
| `Journal.ScanLog` | v1/internal/store/journal.go:124-214 | replay over any sequence of complete groups applies them in order and carries on behind the last commit marker |
| `Journal.CrashRecovery` | v1/internal/store/journal.go:124-297 | for every log and every byte prefix of one more append, replay yields exactly the committed groups, and the new one exactly when all its bytes arrived |
| `Journal.AppendAfterFailure` | v1/internal/store/journal.go:221-274 | a failed append cut between records and carried on after without reopening, by any number of groups, leaves a readable journal exactly when none or all of its records are on disk |
| `Journal.AnyFailedAppend` | v1/internal/store/journal.go:124-274 | a failed append cut at any byte and carried on after by any number of groups: readable at none of it, and at all of it with the failed group among the rest; refused between records, within the first four bytes of one, and on a checksum that does not match; and the later groups silently lost when the torn record claims more bytes than follow, which with its header whole is exactly when it is longer than they are |
| `Journal.AppendSound` | v1/internal/store/journal.go:221-274 | a successful append keeps the file equal to the encoding of the groups committed to it, sequence numbers increasing |
| `Tears.ReplayExactly` | v1/internal/store/journal.go:124-274 | after any sequence of appends, each accepted or failed at any byte, replay finds exactly the groups that are whole before the first torn one and nothing behind it, or refuses the file; and which of the two |
| `Tears.SurvivesExactly` | v1/internal/store/journal.go:221-274 | a commit reported as durable is reached by replay if and only if no append before it was torn |
| `Tears.LastTearReads` | v1/internal/store/journal.go:193-214 | a tear with nothing behind it, as a crash leaves it, costs nothing but itself |
| `Journal.File.Replay` | v1/internal/store/journal.go:124-214 | the loop computes the fold of the committed groups, refuses corrupt files unchanged, and truncates the file to the last good commit |
| `Journal.File.AppendGroup` | v1/internal/store/journal.go:221-274 | what a successful, an early failing and a late failing append leave in the file and in the sequence number |
| `Coherence.NextCoherent` | v1/internal/store/store.go:324-495 | every operation that keeps its row's idempotency key keeps rows under their ids, keys leading to rows, outbox ids unique and ascending, audit ids consecutive, and the insertion order free of duplicates |
| `Coherence.NextNumbered` | v1/internal/store/store.go:955-1058 | every operation, key-keeping or not, keeps outbox ids unique, ascending and at most the counter |
| `Coherence.RowIndexExactly` | v1/internal/store/store.go:472-495 | the live update of a row equals its replay if and only if the row's key already led to it |
| `Promises.CreatedOnce` | v1/internal/store/store.go:324-375 | asking twice under one idempotency key creates one row, and the second call changes nothing, whatever else it asks for |
| `Promises.TransitionAccepted` | v1/internal/store/store.go:414-434 | a transition is accepted if and only if the row exists in the expected state, the table has the move and, unless it ends a deployment still PENDING, the lease of its target is in its own hands, not run out and under no newer token; else the first check that fails is the error and nothing changes |
| `Promises.TransitionPromise` | v1/internal/store/store.go:436-468 | an accepted transition changes the state, the update time and, at the end, the finish time of its own row, adds its audit entry behind the last one and its notes to the outbox with their contents as given, and changes nothing else |
| `Promises.AcquirePromise` | v1/internal/store/store.go:639-676 | a target is granted to anybody when nobody holds it, for one TTL and under the next token, to its holder again as it is, and to nobody else while it is held |
| `Promises.MarkPromise` | v1/internal/store/store.go:1005-1058 | a mark reaches the one entry with its id and touches delivery fields only; a failed attempt adds one to the count and leaves the entry undelivered |
| `Stores.Store.ApplyOne` | v1/internal/store/store.go:138-243 | one replayed record changes the index as the record alone says |
| `Stores.Store.Recover` | v1/internal/store/store.go:84-110 | opening rebuilds the index as the fold of the committed records, or fails on a corrupt file |
| `Stores.Store.Commit` | v1/internal/store/store.go:290-301 | a transaction's records reach the file as one group, and success is reported exactly when all of it did |
| `Stores.Store.LinkEntry` | v1/internal/store/store.go:811-843 | an audit entry is numbered and linked behind the entries already in its transaction |
| `Stores.Store.CreateDeployment` | v1/internal/store/store.go:324-375 | a known idempotency key returns the existing row, a known id is refused, else the row and its audit entry are committed together |
| `Stores.Store.EnqueueAll` | v1/internal/store/store.go:955-970 | notes are numbered on from the counter and stamped; the counter moves even if the commit then fails |
| `Stores.Store.Move` | v1/internal/store/store.go:436-468 | row, audit entry and outbox entries are one group, and the live index then equals replaying it |
| `Stores.Store.Transition` | v1/internal/store/store.go:414-468 | the guarded state change: refused with the first failing check, else committed whole or not at all |
| `Stores.Store.UpdateDeployment` | v1/internal/store/store.go:472-495 | a row rewrite is refused when the state differs; index and replay agree exactly when the key leads home |
| `Stores.Store.AcquireLease` | v1/internal/store/store.go:639-676 | a live lease is kept by its holder and refused to others, otherwise granted under the next token |
| `Stores.Store.RenewLease` | v1/internal/store/store.go:683-707 | only the current holder with the current token extends a lease that has not expired |
| `Stores.Store.ReleaseLease` | v1/internal/store/store.go:710-732 | the holder clears the lease and its token stays; anyone else changes nothing |
| `Stores.Store.BreakLease` | v1/internal/store/store.go:737-767 | the lease is cleared whoever holds it, together with an audit entry |
| `Stores.Store.AppendAuditEntry` | v1/internal/store/store.go:879-890 | one linked audit entry is committed |
| `Stores.Store.EnqueueNote` | v1/internal/store/store.go:975-983 | one numbered outbox entry is committed |
| `Stores.Store.UpdateOutbox` | v1/internal/store/store.go:1005-1058 | the entry with the id, and no other, gets its delivery state; an unknown id is refused |
| `Stores.Store.Do` | v1/internal/store/store.go:324-1058 | any operation that keeps its row's key, whatever the disk did with earlier ones and does with this one, changes the index as a run says and adds to the file what the disk takes; as long as it takes everything, the live index equals the replay of the file |
| `Stores.StaysInStep` | v1/internal/store/store.go:290-301 | a carried-out operation keeps file and index in step and the index coherent |
| `Stores.FileGoesOn` | v1/internal/store/store.go:290-301 | the index and the file that the store's methods leave are those of the run of their calls, writes refused or not |
| `Stores.Open` | v1/internal/store/store.go:84-110 | a store opened on a file holds exactly what replaying the file's committed groups gives |
| `Runs.IndexIsReplay` | v1/internal/store/store.go:138-301 | after every run, refused writes included, the index equals the fold of everything the run reported as written, but for outbox numbers used up by refused writes |
| `Runs.ReachableCoherent` | v1/internal/store/store.go:324-495 | every index reached from a coherent one is coherent, if row rewrites keep their key; the empty index is (`EmptyCoherent`) |
| `Runs.OneDeploymentPerKey` | v1/internal/store/store.go:324-375 | in every reachable store an idempotency key stands for at most one deployment, if row rewrites keep their key |
| `Durability.CrashAtAnyByte` | v1/internal/store/journal.go:124-297 | a crash at any byte of any operation of any run whose refused writes, if any, left nothing reopens to the index before it, or after it exactly when all its bytes arrived |
| `Durability.TearsExactly` | v1/internal/store/journal.go:124-297 | for every run, whatever its refused writes left in the file: what reopening finds, or that it is refused |
| `Durability.WholeRefusalTakesEffect` | v1/internal/store/journal.go:262-274 | a write that was reported as failed and is whole on disk takes effect at the next start exactly as if it had been accepted, and the running store knows nothing of it |
| `Durability.ChainOnDisk` | v1/internal/store/store.go:811-876 | the audit log in the file is linked if and only if no entry of such a write has another behind it, hash coincidences aside |
| `Durability.WalkOnDisk` | v1/internal/store/store.go:414-495 | a deployment's rows in the file walk the table if and only if every row of such a write is followed by a legal step from it |
| `Fencing.LeaseStep` | v1/internal/store/store.go:639-767 | which operations touch lease rows, and how |
| `Fencing.TokensGrow` | v1/internal/store/store.go:639-767 | over any run a resource's token never decreases, no lease row disappears, and while a token stands its holder is only ever cleared |
| `Fencing.FencesInOrder` | v1/internal/store/store.go:430-434 | two accepted lease-guarded moves on a resource present tokens in order, strictly increasing across deployments, when the first presents a token the store had granted |
| `Fencing.GrantsAreFresh` | v1/internal/store/store.go:656-676 | every grant's token is larger than every earlier token of the resource |
| `Fencing.SupersededNeverMoves` | v1/internal/store/store.go:430-434 | once a resource is granted again, a caller presenting an older token is refused, at every later step, every move of a deployment on it but the one that ends a deployment still PENDING, and the refused call changes nothing |
| `Fencing.HeldIsRefused` | v1/internal/store/store.go:646-652 | while somebody holds a lease that has not run out, anybody else who asks for it is refused and nothing changes |
| `Fencing.HolderStays` | v1/internal/store/store.go:639-767 | over any run, from a grant until the lease runs out, is given back in its holder's name or is broken, it stays with its holder under its token, whoever calls whatever |
| `Fencing.LeaseRunsOut` | v1/internal/store/store.go:639-707 | a lease is cleared or runs out one TTL after the last call that could extend it |
| `Fencing.NoWedge` | v1/internal/store/store.go:639-707 | a TTL after the last such call any deployment is granted the target under a larger token, whatever else the store holds |
| `Lifecycle.MovesSpendRank` | v1/internal/store/model.go:70-96 | every path through the transition table loses rank with each move |
| `Lifecycle.EntersOnce` | v1/internal/store/model.go:70-96 | no path enters a state twice |
| `Lifecycle.NoShortCut` | v1/internal/store/model.go:70-96 | every path from PENDING to SUCCEEDED goes through PREFLIGHT, DEPLOYING, VERIFYING and PROMOTING, to ROLLED_BACK through ROLLING_BACK, and to any of the states after a deploy through DEPLOYING |
| `Walks.RowStep` | v1/internal/store/store.go:414-495 | one operation continues a deployment's rows by a legal move, a stutter, or not at all |
| `Walks.LegalWalk` | v1/internal/store/store.go:414-495 | over every run, refused writes included, the rows of a deployment that were reported as written walk the transition table and end in the index's row |
| `Walks.WalkBounds` | v1/internal/store/model.go:70-108 | over every run, re-runs, aborts and reconciliations included, a deployment makes at most seven transitions and enters each state, ROLLING_BACK included, at most once |
| `Walks.ByTheBook` | v1/internal/store/model.go:70-108 | in every run a deployment that was begun PENDING and has succeeded was written DEPLOYING, VERIFYING and PROMOTING before; one rolled back was written ROLLING_BACK |
| `Walks.TerminalAbsorbs` | v1/internal/store/model.go:32-39 | no later operation moves a deployment out of a terminal state |
| `Notices.OneNotePerEntry` | v1/internal/store/store.go:436-467 | over any run of operations issued as the engine issues them, for each deployment, state and notifier the outbox holds exactly one entry if the state was entered and none if not |
| `Notices.OneAuditRowPerEntry` | v1/internal/engine/executor.go:785-801 | over any such run exactly one audit entry tells of each state a deployment has entered, none of any other |
| `Notices.NothingDropped` | v1/internal/store/store.go:955-1058 | no outbox entry is dropped, reordered or rewritten; only delivery fields change |
| `AuditProofs.VerifyAudit` | v1/internal/store/store.go:923-944 | verification accepts exactly the logs that are linked, hash by hash, and whose times do not go back |
| `AuditProofs.ReachableChain` | v1/internal/store/store.go:811-876 | over every run, refused writes included, the running store's log is linked, so it verifies exactly when its times do not go back |
| `AuditProofs.TimelyLogsVerify` | v1/internal/store/store.go:811-843 | with an advancing clock and entries stamped by it, the running store's log verifies |
| `AuditProofs.SameHeadSameLog` | v1/internal/store/store.go:910-944 | two linked logs with the same last hash and no collisions among their payloads have equal length, payloads and hashes |
| `AuditProofs.PayloadInjective` | v1/internal/store/store.go:852-876 | a payload determines time, actor, action, resource and detail when these keep clear of the separators |
| `AuditProofs.SameHeadSameFacts` | v1/internal/store/store.go:852-944 | two such logs with the same last hash say the same, entry by entry |
| `Worlds.World.Call` | v1/internal/store/store.go:264-301 | one store call after whatever others did in between, each at its time: decided on the index and clock it then finds, and either carried out, or refused by the disk with only the outbox counter moved on, what it left of the write noted; since every recorded transition no write, taken or refused, has its deployment further back |
| `Worlds.HarmlessRun` | v1/internal/engine/executor.go:232-255 | over any stretch of time in which others keep off a row and neither break its lease nor give it back, and heartbeats come before each expiry, the row stays and the lease stays live in the same hands, however often others ask for it |
| `Holding.HeldAdvances` | v1/internal/engine/executor.go:154-167 | whatever happens in a calm turn, row and lease are still the executor's when its next call comes, and the rest of the schedule stays steady |
| `Holding.HeldMoves` | v1/internal/engine/executor.go:762-809 | the holder's transition is accepted if and only if the table allows it, and the holder keeps hold |
| `Holding.BeatingIsCalm` | v1/internal/engine/executor.go:232-255 | a wait of any length is calm when the lease is renewed more often than it runs out |
| `Holding.GrantHolds` | v1/internal/store/store.go:639-676 | an unheld lease is granted and then held for as long as the schedule is steady for a lease that began there |
| `Executors.Executor.TransitionAndNotify` | v1/internal/engine/executor.go:762-809 | an accepted transition is a write that the disk took, legal and made under a live lease of the deployment before anything else happens; the row, the audit entry that says who, what, from where to where and why, and one note per notifier are one group; no lease is touched; while the lease is held it is accepted exactly when the table allows it |
| `Executors.Executor.CallDeploy` | v1/internal/engine/executor.go:480-491 | a provider deploy is called only under the fence of the latest accepted transition into the state that licenses its key |
| `Executors.Executor.DoPreflight` | v1/internal/engine/executor.go:262-328 | preflight changes nothing but the row's previous version, which on success is the one the provider reported; on success the target is not frozen, provider and target are there, traffic can be shifted if need be, and, but for a rollback, another version is running and budget and promotion allow it; in a calm run its result is that of the first check to fail |
| `Executors.Executor.DoDeploy` | v1/internal/engine/executor.go:471-531 | exactly one deploy call, of the row's version under its id, if the provider is found; the handle kept, and the traffic at 100 for blue-green; the step recorded in a store call of its own, whose refusal fails the deploy |
| `Executors.Executor.DoVerify` | v1/internal/engine/executor.go:534-605 | the bake acts on the verdict of its window of ticks, the canary loop stops at its first failing step, others acting meanwhile; a canary that the loader accepts and that passes leaves the weight at 100 |
| `Executors.Executor.PlanAndRollBack` | v1/internal/engine/executor.go:658-666 | the plan is what planning answers on the rows of some moment after the failure; the version deployed is the planned one, and without a plan the failure is escalated |
| `Executors.Executor.ReadAndRecord` | v1/internal/engine/executor.go:620-625 | the state is read again and the reason recorded; a recorded reason puts the executor's whole copy in place of the row, whatever others have written to it since |
| `Executors.Executor.HandleFailure` | v1/internal/engine/executor.go:620-666 | at most one rollback deploy, of the version planned on the journal as it then was; in a calm run, bakes and waits of any length included, the reason recorded in the row, the exact state the failure ends in, and whether the planned version was deployed |
| `Executors.Executor.ExecuteRollback` | v1/internal/engine/executor.go:669-729 | ROLLING_BACK is recorded before the rollback deploy; a completed rollback leaves the traffic at weight 0; in a calm run the exact state it ends in |
| `Executors.Executor.StepOrFail` | v1/internal/engine/executor.go:180-204 | once the row has ended, by an abort during the bake say, the run still driving it has no further move accepted, calls no deploy and shifts no traffic, failure path included; else one step recorded and performed, or the failure path taken |
| `Executors.Executor.Drive` | v1/internal/engine/executor.go:169-207 | the five steps in order, each recorded before it is performed, approval only where a gate asks for it; the ending of a calm run, however long its steps take |
| `Executors.Executor.Run` | v1/internal/engine/executor.go:134-207 | in every run, lease loss and refused writes included: every deploy is backed by a licensed transition that the disk took before it (what a restart finds of it is under `Licences.CrashAfterDeploy`), at most one deploy, of the version of the row as read, and only once preflight is cleared and every gate consulted is open, and one rollback deploy, of the version planned, never in a rollback's own run; success only if every check passed and every window met was judged healthy, after SUCCEEDED is accepted and with the row left so; traffic at 100 after a successful canary or blue-green and at 0 after a rollback; and in a calm run the exact final state, deploys and recorded error, and the lease given back |
| `Executors.Executor.Abort` | v1/internal/engine/executor.go:907-944 | a successful abort has moved the row to ABORTED and left it so, under a token larger than the one the aborted executor held, whatever came between its reads and writes, and calls no deploy; an abort of a live row that nobody disturbs, its target free or its own, succeeds if and only if the row is not ROLLING_BACK |
| `Licences.CrashAfterDeploy` | v1/internal/engine/executor.go:184-192 | a crash at any byte after a deploy was called, whatever others wrote and whatever was refused: replay reaches the licensing transition if and only if no write before it was torn; then, if the file can be read, and exactly when it can, the deployment is found in the licensing state or further on, never in one that says nothing was deployed |
| `Licences.LicenceLost` | v1/internal/store/journal.go:225-274 | after a write torn inside a record an accepted ROLLING_BACK can be gone at the next start, the deployment found as it was |
| `Conduct.PlannedIsSafe` | v1/internal/engine/rollback.go:105-178 | the version a rollback deploys is that of the greatest earlier success of the target, and going back to it is safe or the floor is not checked |
| `Conduct.FailureOutcome` | v1/internal/engine/executor.go:620-729 | for every failure: FAILED, ROLLED_BACK, ROLLBACK_FAILED or left in place, each if and only if its condition holds; a second deploy only for an automatic, non-rollback failure with an accepted plan |
| `Endings.EndsAsItShould` | v1/internal/engine/executor.go:126-207 | a calm run succeeds if and only if it starts at PENDING, preflight is cleared, every gate consulted opens, the deploy lands and every window it meets is judged healthy; it deploys its version if and only if cleared and approved; a frozen target or a version already running ends FAILED (ROLLBACK_FAILED for a rollback) as blocked with nothing deployed, and a first gate that refuses as blocked FAILED likewise; an unclear verdict ends FAILED (ROLLBACK_FAILED) as inconclusive with no rollback; an unhealthy or aborted one ends as failed, rolled back if that is wanted and there is something to go back to; a lost lease is what counts when there is one |
| `Endings.KeysDiffer` | v1/internal/engine/executor.go:669-690 | a rollback deploys under a key of its own, different from the run's key and from every other run's |
| `Conduct.RunEndsTerminal` | v1/internal/engine/executor.go:126-207 | a calm run ends in a terminal state if and only if it does not fail where the table has no failure edge |
| `Conduct.RollbackNeverRollsBack` | v1/internal/engine/executor.go:627-636 | a rollback's own run never makes a rollback deploy nor ends rolled back |
| `Conduct.ResumedIsNotVerified` | v1/internal/engine/reconcile.go:104-111 | running a row that reconciliation resumed at VERIFYING takes the failure path and deploys the rollback instead of verifying |
| `Recovery.SettlingDescends` | v1/internal/engine/reconcile.go:103-126 | recovery moves a row only to FAILED, VERIFYING or UNKNOWN, along the table and down in rank |
| `Recovery.NeverGuesses` | v1/internal/engine/reconcile.go:103-126 | VERIFYING only if the new version is live, FAILED past PREFLIGHT only if the previous one is |
| `Recovery.EvidenceDecides` | v1/internal/engine/reconcile.go:60-126 | where a row is left, whatever runs: a DEPLOYING row whose own version runs at VERIFYING, one whose previous, different version runs FAILED, and so for VERIFYING, PROMOTING and AWAIT_APPROVAL; UNKNOWN if and only if there is no such evidence and the table has that move |
| `Recovery.OnePass` | v1/internal/engine/reconcile.go:74-126 | what one pass leaves of each state: PENDING and PREFLIGHT fail, AWAIT_APPROVAL fails or stays, the rest end or go from DEPLOYING to VERIFYING |
| `Recovery.TwoPasses` | v1/internal/engine/reconcile.go:38-133 | after two passes a row that was DEPLOYING, VERIFYING, PROMOTING or ROLLING_BACK is FAILED or UNKNOWN, whatever the targets answer each time |
| `Recovery.OrphansComplete` | v1/internal/store/store.go:549-559 | the orphans are exactly the non-terminal rows, each once |
| `Reconciling.Reconciler.MarkUnknown` | v1/internal/engine/reconcile.go:176-211 | while others leave the row and its lease alone it becomes UNKNOWN where the table allows it, otherwise it stays and an audit entry tells of it, and the lease is given back; every other row and lease fares as if the call had not been made |
| `Reconciling.Reconciler.Recover` | v1/internal/engine/reconcile.go:141-169 | likewise the row moves under its own lease if the table allows it, otherwise it is marked unknown |
| `Reconciling.Reconciler.RecoverOne` | v1/internal/engine/reconcile.go:60-126 | the branch taken, the settled row, and every other row and lease left as others leave it |
| `Reconciling.Reconciler.Visit` | v1/internal/engine/reconcile.go:46-58 | an orphan is skipped if and only if its target is under a live lease when it is visited, and a skipped one is not touched |
| `Reconciling.Reconciler.Reconcile` | v1/internal/engine/reconcile.go:38-133 | for every schedule: nothing is deployed, a row whose target is under a live lease when visited is not moved, and the counters count what was decided; for every row nobody else touches, others moving theirs as they like: untouched if its target was live, else left where the evidence of `Recovery.EvidenceDecides` puts it, an audit entry telling of it if it stays, and no lease left behind |
| `Reconciling.Reconciler.ReconcileTwice` | v1/internal/engine/reconcile.go:38-133 | two passes leave a row that was DEPLOYING, VERIFYING, PROMOTING or ROLLING_BACK, that nobody else touches and whose lease has run out, FAILED or UNKNOWN |
| `OutboxWork.DueOutbox` | v1/internal/store/store.go:986-1002 | the oldest due entries, at most the limit |
| `OutboxWork.Worker.Drain` | v1/internal/engine/outbox.go:89-138 | for every schedule: only what was due is attempted, an entry is marked delivered only after its notifier took it or if it has none, and no entry is lost; an entry nobody else marks ends up, if it was taken up, delivered if its notifier took it or it has none, else counted with the cause and due again within 256 seconds, and unchanged if it was not taken up |
| `OutboxWork.DeliveredMeansAccepted` | v1/internal/engine/outbox.go:89-130 | over any life of a store, workers and other callers interleaved, whose delivery marks come from passes: every delivered entry whose notifier is configured was handed to that notifier and taken by it |
| `OutboxWork.PassHasGrounds` | v1/internal/engine/outbox.go:89-130 | a pass's delivery marks are such marks |
| `OutboxWork.OnlyMarksDeliver` | v1/internal/store/store.go:1005-1011 | an entry becomes delivered only by a delivery mark on its own id |
| `OutboxWork.RetriedSoon` | v1/internal/store/store.go:1017-1031 | a failed attempt is counted and its cause kept, and the entry is not due at once and is due again within 256 seconds |
| `OutboxWork.DelaysDouble` | v1/internal/store/store.go:1017-1031 | after n failed attempts in all the wait is 2, 4, 8, ... seconds, and 256 from the eighth on, the attempts counted and the entry undelivered |
| `OutboxWork.DueInOrder` | v1/internal/store/store.go:986-1002 | entries numbered upwards are taken up in that order |
| `Verification.BetterPasses` | v1/internal/engine/verify.go:47-100 | when a passing value passes at every better value too: always but for a negative higher-is-better value under a ratio |
| `Verification.PassesExactly` | v1/internal/engine/verify.go:47-100 | when a value that is not negative passes, without division: below the floor, or within the limit and the ratio to its baseline; the other way round where more is better, and there zero is over every ratio |
| `Verification.SampleAll` | v1/internal/engine/verify.go:241-293 | a sample passes if all criteria do, and is neither pass nor failure if any verifier errs |
| `Verification.Verify` | v1/internal/engine/verify.go:128-234 | the loop returns the verdict of the first tick that brings one about: errors over the limit, or the trailing run of passes or failures with errors deleted at its threshold, else by the number of samples |
| `Verification.VerdictGrounds` | v1/internal/engine/verify.go:128-234 | each verdict has its grounds: a cancellation; as many failures in a row as the threshold; errors over the limit or too few samples; samples enough, and if it came early passes in a row |
| `Verification.GroundsDecide` | v1/internal/engine/verify.go:148-233 | a tick that gives such grounds brings the verdict about, if none before it did |
| `Verification.OnlyFailures` | v1/internal/engine/verify.go:148-233 | a window of failures is unhealthy if and only if it is as long as the threshold |
| `Verification.OnlyPasses` | v1/internal/engine/verify.go:148-233 | a window that only passes is healthy if and only if it has the samples asked for, and never unhealthy |
| `Verification.OnlyErrors` | v1/internal/engine/verify.go:148-233 | a window of nothing but errors is never unhealthy |
| `Verification.ImprovedVerdict` | v1/internal/engine/verify.go:148-233 | turning failing samples into passing ones never spoils a healthy verdict nor brings about an unhealthy one |
| `Verification.BetterMetricsBetterVerdict` | v1/internal/engine/verify.go:128-293 | the same for two runs whose metric values are pointwise no worse |
| `Verification.NeverShort` | v1/internal/config/load.go:368-388 | with an observation at every interval every policy the loader accepts, its criteria checked against its bake (load.go:1015-1020), ends healthy or unhealthy |
| `Verification.ShortExactly` | v1/internal/engine/executor.go:593-598 | a window, such as a canary step's own bake, can end short of samples if and only if it has fewer turns than samples asked for |
| `Redaction.ChunkingIrrelevant` | v1/internal/redact/redact.go:93-159 | with newline-free literals and lines of at most 4096 bytes every way of splitting a stream gives the output and count of one piece |
| `Redaction.ChunkingExactly` | v1/internal/redact/redact.go:93-159 | the texts for which that holds of all such literals and splittings are exactly those whose lines have at most 4096 bytes |
| `Redaction.NoSecretGetsOut` | v1/internal/redact/redact.go:144-159 | and no registered bracket-free literal outside the word REDACTED occurs anywhere in the output |
| `Redaction.ScrubbedClean` | v1/internal/redact/redact.go:144-151 | replacing the literals one after another leaves none of them, later replacements included |
| `Redaction.OnlyReplaced` | v1/internal/redact/redact.go:144-151 | replacing a literal changes nothing else: the pieces that the literal joins to the text the placeholder joins to the result, as many hits as joints, and no piece holds the literal |
| `Redaction.LongLineLeaks` | v1/internal/redact/redact.go:105-120 | in any text with a longer line, wherever it is, there is a secret and a splitting by which the secret gets out uncounted |
| `Redaction.SecretLeaksExactly` | v1/internal/redact/redact.go:93-159 | a registered secret without a border can get out whole, by some way of splitting the text, if and only if somewhere it ends more than 4096 bytes into a line |
| `Redaction.Redactor.constructor` | v1/internal/redact/redact.go:71-82 | exactly the secrets of at least six bytes are registered |
| `Redaction.Redactor.Write` | v1/internal/redact/redact.go:93-128 | a write lets through what ends with the last newline in the window, holds the rest, and reports the length it was given |
| `Redaction.Redactor.Flush` | v1/internal/redact/redact.go:132-142 | the held tail is scrubbed and let through |
| `Redaction.Redactor.DoScrub` | v1/internal/redact/redact.go:144-151 | all literals replaced in turn, every replacement counted |
| `Ulids.Render` | v1/internal/ulid/ulid.go:110-125 | the shifting loop writes four times the 128-bit number in 26 base-32 digits |
| `Ulids.Parse` | v1/internal/ulid/ulid.go:135-160 | the 32-bit window decodes exactly the 26-character texts of valid digits, either case, to their value with the last two bits dropped |
| `Ulids.RoundTrip` | v1/internal/ulid/ulid.go:110-160 | parsing undoes rendering |
| `Ulids.TypedAlike` | v1/internal/ulid/ulid.go:27-48 | texts that differ in case or in look-alikes of one and zero only are read as the same id |
| `Ulids.NoDigit` | v1/internal/ulid/ulid.go:27-48 | everything but letters and figures is refused, and so is U; nothing else |
| `Ulids.TextAscends` | v1/internal/ulid/ulid.go:110-125 | texts are in lexicographic order if and only if the numbers are in order |
| `Ulids.Increment` | v1/internal/ulid/ulid.go:75-86 | the byte loop adds one to the ten bytes, and reports a carry out of the first exactly when all were 255 |
| `Ulids.Generator.NewAt` | v1/internal/ulid/ulid.go:64-107 | an id is its millisecond and entropy, the entropy counted up within a millisecond and drawn afresh otherwise |
| `Ulids.StampAscends` | v1/internal/ulid/ulid.go:64-107 | with time not going back the next id is larger if and only if its millisecond is not exhausted |
| `Ulids.NextStamp` | v1/internal/ulid/ulid.go:64-107 | within a millisecond the next id is one more; in a new or used up one it carries the drawn bytes |
| `Ulids.IdsAscend` | v1/internal/ulid/ulid.go:64-125 | over a whole run every later id is larger and its text sorts later |
| `EditDistance.Levenshtein` | v1/internal/config/strict.go:262-283 | the two-row loop computes the distance |
| `EditDistance.FewestEdits` | v1/internal/config/strict.go:262-283 | the distance is the least number of insertions, deletions and substitutions that lead from one text to the other |
| `EditDistance.IsMetric` | v1/internal/config/strict.go:262-283 | it is zero only between equals, symmetric, and satisfies the triangle inequality |
| `EditDistance.Closest` | v1/internal/config/strict.go:244-260 | the first nearest known key is suggested if and only if it is within the limit and not blank |
| `Rollbacks.ParseInt` | v1/internal/engine/rollback.go:244-256 | a run of digits is read modulo 64 bits, anything else refused |
| `Rollbacks.NumberFits` | v1/internal/engine/rollback.go:244-256 | the result is the decimal value if and only if that fits 63 bits |
| `Rollbacks.SplitVersion` | v1/internal/engine/rollback.go:230-242 | the parts of a version, each with its number if it is one |
| `Rollbacks.FieldsWoven` | v1/internal/engine/rollback.go:230-242 | nothing of a version is lost: its fields with the separators around them give it back |
| `Rollbacks.WovenFields` | v1/internal/engine/rollback.go:230-242 | and whatever is put together of such fields and separators splits into just those fields |
| `Rollbacks.LeadingV` | v1/internal/engine/rollback.go:230-242 | one leading v makes no difference |
| `Rollbacks.VersionLess` | v1/internal/engine/rollback.go:200-218 | the loop decides by the first differing part, else by length |
| `Rollbacks.FirstDifferenceDecides` | v1/internal/engine/rollback.go:200-218 | behind any common beginning the first part that differs decides, whatever follows: numbers below 2^63 by value, others by text |
| `Rollbacks.NumberedVersions` | v1/internal/engine/rollback.go:200-218 | versions that differ in their last number only are in the order of those numbers |
| `Rollbacks.MoreIsNewer` | v1/internal/engine/rollback.go:200-218 | a version is older than the same with one more part |
| `Rollbacks.NeverBothOlder` | v1/internal/engine/rollback.go:200-218 | the order is irreflexive and asymmetric on all versions |
| `Rollbacks.OlderIsOrder` | v1/internal/engine/rollback.go:200-218 | it is a strict weak order on versions that agree position by position on what is a number |
| `Rollbacks.OlderCanCycle` | v1/internal/engine/rollback.go:200-218 | on mixed positions it can run in a circle: 9, 10, 1a |
| `Rollbacks.ZerosBreakTheOrder` | v1/internal/engine/rollback.go:200-218 | and with leading zeros two versions neither of which is older have another between them: 01, 0a, 1 |
| `Rollbacks.OlderExactly` | v1/internal/engine/rollback.go:200-218 | on any three versions it is a strict weak order if and only if at the first position where they differ no text is caught between two numbers against their order or equality |
| `Rollbacks.CycleExactly` | v1/internal/engine/rollback.go:205-216 | for two different numbers there is a text that closes a circle with them if and only if their order as text is against their order as numbers |
| `Rollbacks.LastSuccessfulBefore` | v1/internal/store/store.go:565-579 | the scan from the newest row finds the last earlier success |
| `Rollbacks.GreatestBefore` | v1/internal/store/store.go:565-579 | with ids ascending in creation order that is the greatest earlier success of the target, and there is none only if there is no earlier success |
| `Rollbacks.PlansAreSafe` | v1/internal/engine/rollback.go:105-178 | a plan is refused for want of a target exactly when there is no earlier success; else its target is the greatest earlier success, and it is made exactly when that one's floor and migrations allow it or the floor is not checked |
| `Rollbacks.RefusalReasons` | v1/internal/engine/rollback.go:136-178 | why a plan with a target is refused: an unreadable manifest, the floor the target is older than, or exactly the migrations that cannot be reversed |

## Left out

- Conduct.RunEndsTerminal: says where a run ends only when others leave its row and lease alone, heartbeats come in time and the disk takes every write; without that a run may stop anywhere, and what holds then is under `Executors.Executor.Run`.
- Worlds.World.Call: keeps what was tried, not bytes; what a file of any codec holds of it is the matter of `Tears.ReplayExactly`.
- Walks.LegalWalk: is about what the store reported as written; of a file with refused writes in it see `Durability.WalkOnDisk`.
- AuditProofs.ReachableChain: is about the running store's log; of a file with refused writes in it see `Durability.ChainOnDisk`.
- Licences.CrashAfterDeploy: says nothing of a file in which a torn record is completed, checksum and all, by what was written behind it.
- Reconciling.Reconciler.Reconcile: that a row is settled needs any seven calls in a row to fall within one lease, as recovery has no heartbeat in the source; and ids not to be blank.
- Executors.Executor.Run: a second `Run` of the same deployment while the first is alive gets the same token, so exclusion is between deployments only; each call of `Run` makes at most one deploy of each kind.
- Executors.Executor.DoPreflight: each check's answer (freeze, provider, current version, rollback budget, promotion) comes from the script; the order of the checks and what each failure is taken for are modelled.
- Executors.Executor.DoVerify: the ticks of a window come from the script, a sample that could not be recorded among the broken ones; that they are one per interval is the matter of `Verification.NeverShort`.
- Executors.Executor.Abort: the provider's own abort call, whose failure the source only logs, is not an event here; that an abort succeeds needs its few calls to fall within one lease, as it has no heartbeat in the source.
- Endings.EndsAsItShould: of a preflight that fails other than as blocked, and of a gate that fails other than as blocked or inconclusive, it says only that the run does not succeed and deploys no version of its own; where such failures end is the matter of `Conduct.FailureOutcome`.
- Executors.Executor.Drive: gates are consulted only if there is an approval gate, as in the source; nothing is claimed of schedule and freeze gates otherwise.
- Stores.Store.Do: needs records small enough for the 32-bit length field; the 64-bit sequence number is not wrapped.
- Journal.AnyFailedAppend: when the failed write stops inside a record, past its first four bytes, and what follows fills the claimed length and matches the claimed checksum by coincidence, nothing is said.
- Redaction.SecretLeaksExactly: one literal at a time, and none whose beginning is also its end; for others occurrences overlap and only `Redaction.NothingLeaks` is proved.
- Redaction.ChunkingIrrelevant: the credential patterns are not modelled, since some match across newlines; nor is a failing inner writer.
- Verification.BetterPasses: arithmetic is over reals; rounding and not-a-number are not modelled.
- Verification.NeverShort: takes one observation at every interval for granted; the bake of a canary step is the matter of `Verification.ShortExactly`.
- Rollbacks.OlderIsOrder: gives a sufficient condition on all versions at once; `Rollbacks.OlderExactly` is the exact one, three versions at a time.
- The contents of step, health sample, approval and freeze rows, which nothing modelled reads; writing one is `Decisions.Record`.
- Deployment fields that nothing here depends on: strategy, provider, trigger source, rollback-of, Slack timestamp; and the event payload, of which only the reason is kept.
- The dedupe key is a triple; the source joins its parts with colons.
- Journal records of unknown kind and rows that fail to decode, which replay reports as errors.
- Executors, reconciler and outbox worker work on the index with each store call one step; that the store carries such a step out on its file is the matter of `Stores.Store`.
- Provider, verifier and notifier implementations, the HTTP interface, the command line, the dashboard, Slack, role checks, deny windows, configuration decoding other than the checks cited, metrics and the event stream.
- Goroutines and locks: every store method is one step, the heartbeat a step of its own.
