# Hermes agent runtime: verified model

A Dafny 4.11 model of the run and lock lifecycle of the Hermes agent runtime, with proofs about every
interleaving of its workers. `dafny verify dfyconfig.toml` checks the whole project.

## What is modelled

| file | part of the system |
|---|---|
| `Lease.dfy`, `LeaseDatabase.dfy` | the lease tables; the four RPCs and the operator release, first as effects on table values, then statement by statement in a class over mutable tables |
| `TransactionContents.dfy` | what each transaction writes, column by column and key by key |
| `LeaseHistory.dfy` | histories of committed transactions: table invariant, log replay, mutual exclusion, write-once outcomes, leases, who may claim |
| `Workers.dfy`, `WorkerSafety.dfy` | many `execute` calls, each a main thread and a heartbeat thread with program counters, recovery, release, clock, crashes and lost answers |
| `RunRecords.dfy`, `RunOutcomes.dfy` | what the tables and the log remember of each worker: which result completed its run, where an ended `execute` leaves it, who frees it, when its posts are late |
| `PostedRows.dfy` | the client rows of a run in the log, and who adds to them |
| `Stories.dfy`, `StoriesKept.dfy`, `StoryEndings.dfy` | the story of a run: a table of everything that can make `execute` raise, and how it decides the exception, the client rows, the stored columns and the outcome event |
| `LeaseTiming.dfy` | why the live heartbeat thread of a timely worker keeps its lease, whatever the others do |
| `Payloads.dfy`, `PayloadRules.dfy`, `Execution.dfy` | the event payload contract, by event and by field; what a dispatcher returns |
| `Kanban.dfy`, `KanbanContract.dfy`, `EventPipeline.dfy` | the polling adapter, when its traces are acceptable, validation, deduplication and posting |
| `AuditContract.dfy`, `SystemAudit.dfy` | the SQL payloads against the Python contract, over whole histories and over every run fed by classification and the adapter |
| `Admission.dfy`, `Selection.dfy`, `Cards.dfy`, `Board.dfy` | label policies, bounded selection, card matching, concurrent ticks on one board |
| `Orchestrator.dfy` | orchestrator passes over the workers: recover, enter, wait, record, while everybody else goes on |
| `RunIds.dfy`, `TextOrder.dfy` | run identifiers; the order of strings |
| `Limits.dfy` | where a stronger claim fails: concrete runs and inputs, and the exact condition |

Assumptions about what the repository does not show: `run_id` is unique in `agent_runs`;
`linear_issue_id` is the primary key of the lock table; the partial unique index covers the statuses
queued, running, reviewing and blocked; `started_at` defaults to `now()`; each RPC is one atomic step
and `now()` never goes back. Workers have distinct run ids. `create_task` is idempotent on its key among
cards that are not archived. Time in the tables is in microseconds; the TTL is in seconds.

`PayloadRules` gives, for each of the fields, the events in which it may and must occur (its lemmas from
`IdentityFields` to `OtherFields`) and the values it takes there (`PayloadRules.AcceptsFieldByField`).

Dispatchers and status callbacks report only Kanban events (`Workers.Admissible`); the adapter is shown
to do so (`KanbanContract.TraceShape`). The sensitive-word scan and the URL parser are parameters of the
contract, so its theorems hold for all of them.
The system records, for each run, what its main thread met and what its heartbeat calls were answered
(`Workers.HeardBy`, `Workers.BeatsOf`); the theorems of `StoryEndings` are stated on these histories.
Exceptions are told apart by the name of their type; the store turns every HTTP status 409, of any call,
into `RunConflict`.

A call takes effect, if at all, before its caller goes on: no request the client gave up on commits later.
The client's timeout alone does not promise this. The theorems of `Lease` and `LeaseHistory` are about any
order of transactions and do not need it: there a delayed finish is accepted exactly while its run still owns
the lock (`LeaseHistory.FinishAcceptedIffOwner`), and a delayed post is appended anywhere. The theorems about
workers do need it: a delayed post could follow the worker's own `lock.released`, and a delayed finish could
free an orphan.

Places where the behaviour differs from what one may expect, with the exact statement:

* A finish does not look at the expiry (`LeaseHistory.FinishAcceptedIffOwner`, `Limits.LateFinishIsAccepted`).
* Event posts are not lock-checked. A post is late exactly when its worker no longer owns the lock, and then
  only a recovery can have closed the run (`RunOutcomes.PostIsLateIffLockLost`,
  `RunOutcomes.PostsFollowOnlyRecoveries`, witness `Limits.ZombiePostsAfterItsRunIsClosed`).
* An ended `execute` can leave its run running under its lock in exactly these cases: the answer of its claim
  or of its last finish was lost, the heartbeat thread could not be started (that call stands before the
  `try`), the `Blocked` callback raised, or the process died (`Limits.OrphanedExactly`). Only a recovery
  then frees it (`RunOutcomes.OrphanStaysUntilRecovered`).
* A blocked task completes its run exactly when its events validate and the gates of its agent pass: always
  for an agent without gates, and for a gated agent whose task reports both gates as passed
  (`Limits.BlockedTaskCompletesExactly`, `Limits.GatedBlockedTaskCompletes`). The fields it reports are not
  validated, so the row `run.completed` may be one the validator rejects (`SystemAudit.SystemLogIsAccepted`,
  witness `Limits.BlockedTaskRowIsRejected`).
* A conflict is also reported of runs that exist: any call answered with 409 after the claim
  (`Limits.LateConflictIsReported`). A run recovered before its finish aborts the whole pass
  unless an exception the pass catches took the place of the refusal
  (`Orchestrator.RecoveredRunAbortsThePass`, `Limits.RecoveredRunAborts`).
* A random run id can spell a word of the scan (`Limits.RunIdMaySpellSecret`). Then no Kanban event of the run
  validates (`KanbanContract.TraceAcceptedExactly`), and the rows of the database that cite the id,
  `lock.rejected` and `lock.recovered`, are ones the validator rejects (`SystemAudit.SystemLogIsAccepted`,
  witness `Limits.SensitiveRunIdIsLogged`). The same holds of `run.failed` and the name of its error.
* A task that has an outcome when dispatched makes its whole trace unpostable (`Limits.OutcomeAtDispatchRejectsTrace`).
* A revisited status is reported once: an adapter run posts its whole trace exactly when no status is left and
  revisited with the same outcome (`KanbanContract.WholeTraceIsKeptExactly`, `Limits.RevisitedStatusIsDropped`).
* The constructor accepts a TTL above a day, the database never does (`Limits.LongLeasesNeverClaim`).
* The repository's README says that the adapter returns a result only with explicit test and review
  metadata; the code returns whatever the terminal snapshot holds, and the model follows the code
  (`Kanban.MergePrecedence`, witness `Limits.UntestedTaskCompletes`).

## Model

| member | source | states |
|---|---|---|
| LeaseStore.LeaseDatabase.Claim | sql/001_runtime_functions.sql:11-67 | the inserts, the rollback on a unique violation and the audit row leave the declared effect of a claim and keep the table invariant |
| LeaseStore.LeaseDatabase.InsertRun | sql/001_runtime_functions.sql:29-31 | the insert fails exactly when the run id exists or the issue has an active run, and then changes nothing |
| LeaseStore.LeaseDatabase.FindHolder | sql/001_runtime_functions.sql:38-48 | the two queries find the lock's holder, else the active run started last, which is unique |
| LeaseStore.LeaseDatabase.RecordRejection | sql/001_runtime_functions.sql:49-54 | a rejection is charged to the holder, or not recorded when there is none |
| LeaseStore.LeaseDatabase.Heartbeat | sql/001_runtime_functions.sql:69-88 | renewal of an unexpired owned lock and of its run's heartbeat column, with the replies of the function |
| LeaseStore.LeaseDatabase.Finish | sql/001_runtime_functions.sql:90-154 | outcome, columns, two events and lock removal in one step, or a refusal that changes nothing |
| LeaseStore.LeaseDatabase.Recover | sql/001_runtime_functions.sql:162-184 | an expired lock fails its run, is audited and removed; otherwise nothing happens |
| LeaseStore.LeaseDatabase.ReleaseBlocked | sql/001_runtime_functions.sql:156-161 | exactly the blocked runs of the issue become canceled |
| LeaseStore.LeaseDatabase.PostEvent | src/hermes_agent_runtime/supabase.py:68-76 | a client row is appended without consulting lock or run |
| TransactionContents.ClaimDecides | sql/001_runtime_functions.sql:19-58 | a claim raises exactly outside TTLs of 10 to 86400 seconds and succeeds exactly when run id, lock and index are free; a refusal changes the log at most |
| TransactionContents.ClaimWrites | sql/001_runtime_functions.sql:59-65 | a granted claim leaves one running row with its labels and times, one lock for `ttl` seconds and three audit rows with their payloads, and touches nothing else |
| TransactionContents.RejectionIsCharged | sql/001_runtime_functions.sql:35-54 | a refused claim leaves one `lock.rejected` row naming the refused run, on the lock's run or else the blocked one, and none after a clash of run ids alone |
| TransactionContents.HeartbeatWrites | sql/001_runtime_functions.sql:74-86 | when a heartbeat raises, renews or answers true, and every column of the lock and the run it then holds |
| TransactionContents.FinishDecides | sql/001_runtime_functions.sql:98-121 | when a finish raises and when it is accepted; otherwise it changes nothing |
| TransactionContents.FinishWrites | sql/001_runtime_functions.sql:109-151 | an accepted finish stores exactly the given ones of six columns with their values, status and time, removes the lock and touches nothing else |
| TransactionContents.FinishAppends | sql/001_runtime_functions.sql:122-148 | the two rows an accepted finish appends, their payloads key by key for each final status |
| TransactionContents.RecoverWrites | sql/001_runtime_functions.sql:165-182 | a recovery acts exactly on an expired lock, and every column and key it writes |
| TransactionContents.ReleaseWrites | sql/001_runtime_functions.sql:156-161 | the release cancels a run exactly when it is a blocked one of the issue, and keeps its other columns |
| Lease.ApplyKeepsTables | sql/001_runtime_functions.sql:26-58 | every transaction keeps locks and running runs in bijection, one active run per issue and no queued run |
| LeaseHistory.HistoryKeepsTables | sql/001_runtime_functions.sql:26-182 | the table invariant holds after every history of transactions |
| LeaseHistory.LogReplaysToTables | sql/001_runtime_functions.sql:49-182 | folding the log gives back ownership and every status, up to a blocked run read for one the operator canceled |
| LeaseHistory.LogDiffersIffReleased | sql/001_runtime_functions.sql:156-161 | the log and the table disagree about a run's status exactly when the operator released that run while it was blocked |
| LeaseHistory.LogIsWellBracketed | sql/001_runtime_functions.sql:59-181 | per issue, acquire and close events alternate, a close names the run of its acquire, and a bracket is open exactly while a lock row exists |
| LeaseHistory.RunsOpenAndCloseOnce | sql/001_runtime_functions.sql:59-181 | a run has one acquire event once it exists and one closing event exactly once it is no longer running |
| LeaseHistory.OutcomeIsWrittenOnce | sql/001_runtime_functions.sql:106-172 | after a committed outcome only the operator's release of a blocked run can change the row |
| LeaseHistory.StoppedRunIsRefused | sql/001_runtime_functions.sql:77-120 | every later heartbeat or finish of a stopped run is refused and changes nothing |
| LeaseHistory.FinishAcceptedIffOwner | sql/001_runtime_functions.sql:106-120 | a finish is accepted exactly from the owner of the lock, expired or not |
| LeaseHistory.HeartbeatAcceptedIffUnexpired | sql/001_runtime_functions.sql:77-86 | a heartbeat is accepted exactly from the owner of an unexpired lock and restarts the lease from now |
| LeaseHistory.ExpiredLeaseIsNeverRenewed | sql/001_runtime_functions.sql:77-83 | once expired, a lease is never renewed or regained by its run in any history |
| LeaseHistory.ClaimSucceedsExactly | sql/001_runtime_functions.sql:26-56 | a fresh claim succeeds exactly when neither a lock nor a blocked run stands, else one rejection names the unique active run |
| LeaseHistory.RecoverThenClaim | src/hermes_agent_runtime/orchestrator.py:56-60 | recover followed by claim enters exactly when the lock is absent or expired and no blocked run stands |
| LeaseHistory.BlockedIssueStaysClosed | sql/001_runtime_functions.sql:156-161 | a blocked issue admits no claim in any history without its release |
| LeaseHistory.ReleaseReopens | sql/001_runtime_functions.sql:156-161 | after the release a fresh claim succeeds |
| WorkerSafety.MainStepKeeps | src/hermes_agent_runtime/runtime.py:140-204 | every step of the main thread, with any answer or loss, keeps the worker invariant |
| WorkerSafety.PulseStepKeeps | src/hermes_agent_runtime/runtime.py:154-161 | every step of the heartbeat thread keeps the worker invariant |
| WorkerSafety.ForeignRow | sql/001_runtime_functions.sql:77-182 | all that anybody else can do to a run row is expire it while running or release it while blocked |
| WorkerSafety.ExecIsOk | src/hermes_agent_runtime/runtime.py:140-204 | every reachable system satisfies the invariant and its tables are a faithful history |
| WorkerSafety.ThreadsFinishInOrder | src/hermes_agent_runtime/runtime.py:154-204 | no heartbeat and no post of a run starts after its first finish request, and at most a completed and then a failed finish are requested |
| WorkerSafety.CompletedRunsPassedTheirGates | src/hermes_agent_runtime/runtime.py:173-182 | a completed run of a gated agent has both gates stored, and no heartbeat of its worker failed |
| WorkerSafety.BlockedRunsWereConcluded | src/hermes_agent_runtime/runtime.py:193-200 | a blocked or canceled run was concluded as blocked by its own ended worker |
| WorkerSafety.NoOrphanAfterExecute | src/hermes_agent_runtime/runtime.py:163-204 | an ended `execute` leaves no running run and no lock unless the answer of its claim or last finish was lost, its heartbeat thread could not be started, the callback raised or the process died |
| WorkerSafety.SystemLogIsWellBracketed | sql/001_runtime_functions.sql:59-181 | mutual exclusion and log replay hold of every reachable system, with disagreement about exactly the released runs |
| RunRecords.MainStepKeepsRecord | src/hermes_agent_runtime/runtime.py:165-204 | every step of the main thread keeps the record of its run: the result it carries, the row it completes, and the rows it leaves in the log |
| RunRecords.ExecIsRecorded | src/hermes_agent_runtime/runtime.py:165-204 | the record of every worker is right in every reachable system |
| RunOutcomes.CompletedRunsWereEarned | src/hermes_agent_runtime/runtime.py:169-182 | a run is completed only by the result its worker was handed, whose events validated and gates passed, with its fields stored and logged (column by column in `StoryEndings.CompletedRunsTell`) |
| RunOutcomes.PostIsLateIffLockLost | src/hermes_agent_runtime/supabase.py:68-76 | a worker about to post no longer owns its lock exactly when the log already holds its recovery, and never after its own release |
| RunOutcomes.PostsFollowOnlyRecoveries | src/hermes_agent_runtime/runtime.py:210-221 | in every reachable log a client row of a run follows a closing row of it only when that row is `lock.recovered` |
| Stories.EarlierTells | src/hermes_agent_runtime/runtime.py:140-200 | every step of the main thread before the last finish keeps the story: what was met so far determines the client rows and the exception under way |
| StoriesKept.ExecTells | src/hermes_agent_runtime/runtime.py:140-204 | in every reachable system the story of every run holds |
| StoryEndings.ConclusionsTell | src/hermes_agent_runtime/runtime.py:184-202 | after an accepted last finish the exception raised has a cause in the table, what the worker met and the client rows are those of that cause and of the exception's own events, and the row and its only outcome event hold the name it is stored under |
| StoryEndings.ReportedEventsArePosted | src/hermes_agent_runtime/runtime.py:187-201 | an exception carrying events: when they validate and no call was lost all of them are posted, deduplicated, and its own error type is stored; when they do not validate none is and `PayloadValidationError` is stored; otherwise the posts stop at the lost one, whose error is stored |
| StoryEndings.CompletedRunsTell | src/hermes_agent_runtime/runtime.py:163-183 | a completed run met thread start, `In Progress`, its result and `In Review` in this order, every heartbeat was accepted, events and gates passed, and the row, `run.completed` and the client rows hold exactly what the result says |
| StoryEndings.RowsArePostedInOrder | src/hermes_agent_runtime/runtime.py:168-192 | in every reachable system, crashes included, the client rows of a run are a prefix of its announcement and the deduplicated events of the validated result it was handed, then a prefix of those of an exception it met, in order |
| StoryEndings.CompletedRunsReportTheirTask | src/hermes_agent_runtime/kanban.py:114-165 | with the adapter, the client rows of a completed run are the announcement and the first occurrence of every event of its trace |
| StoryEndings.ReturnedRunsTell | src/hermes_agent_runtime/runtime.py:163-183 | a returned `execute` met exactly that and nothing else |
| StoryEndings.DispatchDecides | src/hermes_agent_runtime/runtime.py:169-195 | what the dispatcher's answer leads to: its own exception, rejected events, then a failed heartbeat before a missing gate before the callback's exception before a refused completion |
| StoryEndings.OtherEndingsTell | src/hermes_agent_runtime/runtime.py:145-204 | what the worker met and posted at every other ending but a crash |
| StoryEndings.BeatsStopAtRefusal | src/hermes_agent_runtime/runtime.py:154-161 | the heartbeat thread makes no call after the first that is not answered with yes, and the failure is known exactly then |
| RunOutcomes.EndedWorkersTell | src/hermes_agent_runtime/runtime.py:145-204 | ending by ending, crashes and lost answers included, where an ended `execute` leaves its run then and later; a finish is refused only after a recovery or its own committed `completed` |
| RunOutcomes.OrphanStaysUntilRecovered | sql/001_runtime_functions.sql:162-184 | a run left running keeps its lock under every interleaving without a recovery of its issue, and a recovery frees it exactly when its lease has expired |
| LeaseTiming.LivePulseKeepsItsLease | src/hermes_agent_runtime/runtime.py:154-164 | the live heartbeat thread of a timely worker owns an unexpired lock, so recovery does nothing and its next beat is accepted, after any number of beats and however other workers hang |
| LeaseTiming.HalfIntervalCallsFit | src/hermes_agent_runtime/runtime.py:130-135 | when a store call takes at most half a heartbeat interval, the constructor check leaves every wait the whole slack of the TTL over two intervals |
| LeaseTiming.PulseDecides | src/hermes_agent_runtime/runtime.py:154-161 | when the heartbeat thread leaves, calls, goes on and records a failure, for every answer and loss |
| Limits.TooSlowCallsLoseTheLease | src/hermes_agent_runtime/runtime.py:130-164 | the timing bound is exact: when delays do not fit, some timely run loses the lease of a live thread |
| Limits.ZombiePostsAfterItsRunIsClosed | src/hermes_agent_runtime/supabase.py:68-76 | a run in which an event of a recovered run follows its recovery in the log |
| Limits.OrphanedExactly | src/hermes_agent_runtime/runtime.py:145-204 | for every ending, some run ends so with its own run still running under its lock if and only if it is one of the known causes |
| Limits.CallbackOrphan | src/hermes_agent_runtime/runtime.py:196-200 | a run in which the raising callback leaves the run running and its lock held |
| Limits.ResultCompletesExactly | src/hermes_agent_runtime/runtime.py:169-182 | a result completes the run in some interleaving if and only if its events validate and the gates of its agent pass |
| Limits.BlockedTaskCompletesExactly | src/hermes_agent_runtime/kanban.py:147-152 | a blocked task completes its run in some interleaving if and only if its trace validates and the gates pass on the fields it reports |
| Limits.GatedBlockedTaskCompletes | src/hermes_agent_runtime/runtime.py:175-182 | a concrete blocked task of a gated agent that completes its run |
| Limits.BlockedTaskRowIsRejected | sql/001_runtime_functions.sql:124-129 | a concrete blocked task whose `run.completed` row the validator rejects |
| Limits.LateConflictIsReported | src/hermes_agent_runtime/orchestrator.py:61-63 | a pass that reports a conflict of a run that exists, after a post answered with 409 |
| Limits.RecoveredRunAborts | src/hermes_agent_runtime/orchestrator.py:56-60 | a pass aborted because its run was recovered before it finished |
| Limits.OutcomeAtDispatchRejectsTrace | src/hermes_agent_runtime/payloads.py:25 | an outcome on the dispatched snapshot makes the whole trace unpostable |
| Limits.RevisitedStatusIsDropped | src/hermes_agent_runtime/runtime.py:215-218 | a status left and revisited with the same outcome is posted once |
| Limits.UntestedTaskCompletes | src/hermes_agent_runtime/kanban.py:154-165 | a concrete done task without metadata that yields a result without fields and completes its run |
| Limits.RunIdMaySpellSecret | src/hermes_agent_runtime/runtime.py:27-31 | random bits whose run id contains a word the scan prohibits |
| Limits.SensitiveRunIdIsLogged | sql/001_runtime_functions.sql:173-179 | whenever a run id fails the scan, a run whose expired lock leaves a `lock.recovered` row the validator rejects |
| Payloads.ValidateEventPayload | src/hermes_agent_runtime/payloads.py:77-129 | the loop accepts exactly the payloads that meet the contract and returns them without nulls |
| Payloads.ValidationIsIdempotent | src/hermes_agent_runtime/supabase.py:69 | validating a validated payload accepts and changes nothing |
| PayloadRules.AcceptsFieldByField | src/hermes_agent_runtime/payloads.py:77-129 | the contract as one domain of values per field: acceptance exactly when each non-null value is in its field's domain for that event, each field occurs where it may, and required ones have a value |
| PayloadRules.TaskReferences | src/hermes_agent_runtime/payloads.py:20-43 | the events in which the task id and the task outcome may and must occur |
| PayloadRules.GateFields | src/hermes_agent_runtime/payloads.py:20-43 | the events in which the two gates may and must occur |
| PayloadRules.ProductFields | src/hermes_agent_runtime/payloads.py:20-43 | the events in which commit, pull request and deployment may and must occur |
| Kanban.Dispatch | src/hermes_agent_runtime/kanban.py:99-165 | the polling loop stops at the first read that is unreadable, done, blocked, given up on (`failed`, `timed_out`, `spawn_failed`, `rate_limited`) or past the deadline, and that reason decides whether it returns or raises, the closing event and the error name; it stops within the timeout divided by the poll interval, rounded up |
| Kanban.BuildPayload | src/hermes_agent_runtime/kanban.py:167-188 | the dictionary built step by step is the declared payload |
| Kanban.CollectFields | src/hermes_agent_runtime/kanban.py:196-202 | the loop collects exactly the allowed fields holding non-empty texts |
| Kanban.MergePrecedence | src/hermes_agent_runtime/kanban.py:149-156 | task metadata wins over the latest run's, and nothing else is reported |
| KanbanContract.PlainAccepted | src/hermes_agent_runtime/payloads.py:25-30 | when the contract accepts a dispatched, changed, blocked or timeout event |
| KanbanContract.CompletedAccepted | src/hermes_agent_runtime/payloads.py:27 | when the contract accepts a completed event |
| KanbanContract.FailedAccepted | src/hermes_agent_runtime/payloads.py:29 | when the contract accepts a failed event |
| KanbanContract.TraceAcceptedExactly | src/hermes_agent_runtime/payloads.py:20-58 | all events of an adapter run validate if and only if the context, its random run id included, is well formed, the first snapshot, and the last at a deadline, has no outcome, reported snapshots are well formed and completed fields meet the rules |
| KanbanContract.TraceShape | src/hermes_agent_runtime/kanban.py:114-157 | the raw trace is one dispatched event, status changes, and one closing event, all of Kanban kinds |
| KanbanContract.TraceByPosition | src/hermes_agent_runtime/kanban.py:114-157 | read by read: the first event describes the first snapshot, then one event each snapshot whose status differs from the one before, in order, and the last event the last snapshot |
| KanbanContract.ClosingDescribes | src/hermes_agent_runtime/kanban.py:147-188 | the closing event tells every column of the last snapshot, and of a done task also its merged fields |
| KanbanContract.AdapterTraceIsPosted | src/hermes_agent_runtime/runtime.py:169-172 | nothing is posted unless the trace is acceptable; else its stable deduplication, which keeps both ends, is a fixpoint and covers exactly the raw keys |
| KanbanContract.WholeTraceIsKeptExactly | src/hermes_agent_runtime/runtime.py:210-228 | an adapter trace loses no event to deduplication if and only if no status is left and revisited with the same outcome |
| EventPipeline.PersistEvents | src/hermes_agent_runtime/runtime.py:210-221 | nothing is posted unless every event validates; then the deduplicated rows are appended, up to the post that raises |
| EventPipeline.DedupKeepsFirstOccurrences | src/hermes_agent_runtime/runtime.py:211-219 | the survivors are exactly the first occurrences of each key, in order |
| EventPipeline.DedupCoversKeys | src/hermes_agent_runtime/runtime.py:211-219 | the posted keys are exactly the observed keys |
| EventPipeline.DedupIsFixpoint | src/hermes_agent_runtime/runtime.py:211-219 | deduplicating again changes nothing |
| EventPipeline.DedupKeepsAllIff | src/hermes_agent_runtime/runtime.py:211-219 | nothing is dropped exactly when every event has a key of its own |
| EventPipeline.DedupKeepsEnds | src/hermes_agent_runtime/runtime.py:211-219 | the first event, and a last event of a kind of its own, are always posted at the ends |
| EventPipeline.SameKeyIffSameObservation | src/hermes_agent_runtime/runtime.py:224-228 | two events have one key exactly when they agree on kind, task, status and outcome, or without a task on every non-null key |
| EventPipeline.RowsByPosition | src/hermes_agent_runtime/runtime.py:210-221 | the posted rows are, in order, one for each event nobody before it observed, with exactly its non-null keys and the run's own identity |
| AuditContract.RunCompletedAccepted | sql/001_runtime_functions.sql:124-129 | the row `run.completed` is accepted exactly when the result fields meet the rules |
| AuditContract.RunFailedAccepted | sql/001_runtime_functions.sql:130-134 | the row `run.failed` is accepted exactly when the name of the error is not empty and not sensitive |
| AuditContract.RejectionAccepted | sql/001_runtime_functions.sql:49-54 | the row `lock.rejected` is accepted exactly when the attempted run id passes the scan |
| AuditContract.RecoveryAccepted | sql/001_runtime_functions.sql:173-179 | the row `lock.expired` is always accepted, `lock.recovered` exactly when the run id it cites passes the scan |
| AuditContract.HistoryIsAccepted | sql/001_runtime_functions.sql:51-179 | in every history whose calls keep the contract each row obeys its rule, and every row is accepted when run ids, error names and completed fields are clean |
| SystemAudit.ClassifiedIsClean | src/hermes_agent_runtime/runtime.py:51-80 | a classified issue and a new run id give labels every event can carry, and a well-formed context exactly when issue and id pass the scan |
| SystemAudit.VerdictIsClean | src/hermes_agent_runtime/kanban.py:99-165 | the adapter names its own errors cleanly and reports result fields only |
| SystemAudit.SystemLogIsAccepted | sql/001_runtime_functions.sql:51-179 | over every run fed by classification and the adapter: `lock.rejected` and `lock.recovered` are accepted exactly when the run id they cite passes the scan, `run.failed` exactly when its error name does, `run.completed` exactly when its fields are valid, every other row always |
| SystemAudit.CitedIdsAreWorkers | sql/001_runtime_functions.sql:49-54 | the run ids cited by rows of any reachable log are those of workers |
| SystemAudit.CompletionRows | sql/001_runtime_functions.sql:123-149 | each `run.completed` row belongs to a completed run, and is accepted exactly when the result behind it is valid |
| SystemAudit.DonePathIsClean | src/hermes_agent_runtime/kanban.py:154-165 | a done task yields a result whose fields were validated with its events |
| SystemAudit.BlockedTaskRow | src/hermes_agent_runtime/kanban.py:147-152 | a run completed by a blocked task has a `run.completed` row in the log, accepted exactly when the unvalidated fields are valid |
| Admission.PoliciesAgree | runtime/poller/poller_dispatch_guard.py:111-150 | the guard admits a label set exactly when classification succeeds, all three gates are present and the risk is not high |
| Admission.ClassifiedExactly | src/hermes_agent_runtime/runtime.py:51-80 | label by label, when an issue is classified and as what |
| Admission.AdmittedExactly | runtime/poller/poller_dispatch_guard.py:111-150 | label by label, which label sets the guard admits |
| Admission.StartNeverRefusesAdmitted | runtime/poller/poller_tick.py:163-168 | the check inside `start` never fires on an admitted issue |
| Selection.SelectWithGuard | runtime/poller/poller_dispatch_guard.py:182-214 | the snapshots at the first max positions whose issue has no card and whose labels are admitted are dispatched in list order, the others skipped with their reason |
| Selection.EligibleByPosition | runtime/poller/poller_dispatch_guard.py:197-209 | the eligible snapshots are those at exactly the positions without a card and with admitted labels, in increasing order |
| Selection.NobodyOvertakes | runtime/poller/poller_dispatch_guard.py:182-214 | every eligible snapshot before a dispatched one is dispatched |
| Selection.TickPartitionsItsInput | runtime/poller/poller_dispatch_guard.py:182-214 | every issue read is dispatched or skipped, exactly once |
| Selection.EligibleAfterDispatch | runtime/poller/poller_dispatch_guard.py:197-209 | cards for the first m eligible issues leave exactly the others eligible, in order |
| Selection.DrainTakesInOrder | runtime/poller/poller_dispatch_guard.py:182-214 | k ticks over a fixed list dispatch exactly its first k times max eligible issues, in order |
| Selection.EveryEligibleIssueIsDispatchedOnce | runtime/poller/poller_tick.py:124-147 | enough ticks dispatch every eligible issue, none twice |
| Cards.MentionIsToken | runtime/poller/poller_dispatch_guard.py:153-155 | the lookaround search succeeds exactly when the identifier is a maximal token of the text |
| Cards.SortById | runtime/poller/poller_dispatch_guard.py:168 | the tasks in the order of their ids, none lost and none added |
| Cards.MatchExistingCards | runtime/poller/poller_dispatch_guard.py:158-179 | the dictionary maps exactly the identifiers that some live card names as a token of its title or body to the least id among those cards |
| Cards.RefersExactly | runtime/poller/poller_dispatch_guard.py:168-178 | a card refers to an issue exactly when it is not archived and names it as a token of its title or of its body |
| Cards.CardMatchesOnlyItsIssue | runtime/poller/poller_tick.py:181-185 | a card written by `start` refers to its own issue and to no other Linear issue |
| Board.GuardedReadIssues | runtime/poller/poller_tick.py:124-147 | a tick dispatches the first eligible issues without a live card, within the bound |
| Board.KnownIffReferred | runtime/poller/poller_tick.py:110-121 | an issue counts as having a card exactly when some card that is not archived names it as a token of its title or body |
| Board.KanbanBoard.Start | runtime/poller/poller_tick.py:150-198 | `start` refuses, returns the least card that refers to the issue, or creates at most one and returns a live card with the issue's key |
| Board.Tick | runtime/poller/poller_tick.py:124-198 | one tick, guarded read and then `start` on each dispatched issue, adds exactly one card per dispatched issue |
| Board.TicksCreateInOrder | runtime/poller/poller_tick.py:124-198 | over a fixed list of Linear issues, k ticks on the board create a card for exactly the first k times max eligible issues, one each, in order |
| Board.TicksCreateByPosition | runtime/poller/poller_tick.py:124-198 | the a-th card of k ticks is a live one written for the a-th eligible issue in list order, and there are no others |
| Board.AtMostOneLiveCardPerIssue | runtime/poller/poller_tick.py:170-196 | under any interleaving of looks, late creations and archiving, an issue has at most one live card with its key |
| Board.CardsAreArchivedOrLive | runtime/poller/poller_tick.py:170-196 | under any interleaving with archiving, the cards ever created for an issue are its archivings plus the live one, if any |
| Board.AtMostOneCardEver | runtime/poller/poller_tick.py:170-196 | without archiving, racing ticks and zombies create at most one card per issue |
| Board.SettledIssueGetsNoCard | runtime/poller/poller_tick.py:170-179 | once a card refers to an issue and nobody is about to create one, none is created |
| Board.CreationIsSeenOnlyByItsIssue | runtime/poller/poller_tick.py:181-196 | creating a card is seen by the search for its own issue and hides no other |
| Orchestrator.RunOnce | src/hermes_agent_runtime/orchestrator.py:54-78 | the loop reports `completed` with the run id of a returned `execute`, `blocked` of one raising `ExecutionBlocked` and `conflict` of one raising `RunConflict` when the recorder did not raise, for the longest prefix of such decisions, and is aborted exactly when that is not all |
| Orchestrator.CollectDecides | src/hermes_agent_runtime/orchestrator.py:58-77 | what a pass appends for each ending of `execute`, and that it is aborted in exactly all other cases |
| Orchestrator.DecisionBegins | src/hermes_agent_runtime/orchestrator.py:55-60 | recovery comes first, takes effect unless lost, aborts the pass unless answered, and then the worker of that decision is spawned |
| Orchestrator.PassIsExec | src/hermes_agent_runtime/orchestrator.py:54-78 | a pass is an interleaving of the workers, so every theorem about them holds at any point of it |
| Orchestrator.PassReportsEndings | src/hermes_agent_runtime/orchestrator.py:58-77 | at any point its results are those of the endings its own workers reached, one per finished decision, in order |
| Orchestrator.ResultsTellTheTables | src/hermes_agent_runtime/orchestrator.py:59-77 | what `completed`, `blocked` and `conflict` say of the run's row, then and later, and that a reported run still open is an orphan of a known cause |
| Orchestrator.ClaimDecides | src/hermes_agent_runtime/runtime.py:145-150 | a worker's claim is refused exactly when a lock or a blocked run stands at that moment |
| Orchestrator.DecisionEnters | src/hermes_agent_runtime/orchestrator.py:58-60 | undisturbed between recovery and claim, a decision is refused entry exactly when an unexpired lock or a blocked run stood |
| Orchestrator.RecoveredRunAbortsThePass | src/hermes_agent_runtime/orchestrator.py:59-69 | a pass that collects a run recovered before its finish is aborted, unless a `RunConflict` of a lost call, of the thread start or of a callback, or an `ExecutionBlocked` of a callback, took the place of the refusal |
| RunIds.RunIdRoundTrip | src/hermes_agent_runtime/runtime.py:27-31 | the 26 digits decode back to timestamp and random bits, and the id fits the `run_id` pattern |
| RunIds.RunIdsSort | src/hermes_agent_runtime/runtime.py:27-31 | string order of run ids is numeric order, so a later millisecond sorts later |

## Left out

- HTTP, JSON, GraphQL and environment loading: kept only as answered, lost before commit, or committed with the answer lost.
- RunOutcomes.PostsFollowOnlyRecoveries: a post that commits after its caller gave up on it is not modelled, see the assumption above.
- RunOutcomes.OrphanStaysUntilRecovered: the same for a finish that commits late.
- Grants, roles, advisory locks and PostgreSQL isolation: each RPC is one atomic step.
- Logging, message wording, and the thin wrappers `adapter.py`, `poller.py` and `selector.py`.
- `canary_readonly.py`, `probe_env.py`, `gen_pin.py`, the launch scripts and systemd units: no state of the lifecycle.
- `hermes_cli` internals: an abstract board with the idempotency assumption above.
- `max_dispatch_per_tick` and `read_task`: parsing one number and copying columns would add easy members only.
- Kanban.Dispatch: assumes that time passes by at least the poll interval between two clock readings, as `sleep` promises; without it the loop need not end.
- Board.KanbanBoard.Start: card ids are taken to be non-empty texts.
- EventPipeline.KeyOf: keys compare typed values, while Python would also equate the numbers 1, 1.0 and true; adapter events carry texts only.
- LeaseTiming.LivePulseKeepsItsLease: a wait is assumed to end within `pause`; an unbounded scheduler delay is outside timely runs.
- Orchestrator.RunOnce: takes what each iteration meets as input; `PassReportsEndings` ties it to the workers. The poller's selection is part of `Admission`, so a decision's own classification always succeeds.
- Board.Tick: every dispatched issue reaches `start`; claims that conflict and calls that fail are the subject of `Orchestrator`.
