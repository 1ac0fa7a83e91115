# Verification of the governed tool gateway

Dafny model and proofs for the three parts of the repository where correctness is a matter of history rather than of
one function body:

* the **asynchronous execution protocol**: the gateway's submission path, the peek-lock queue over a database table,
  and workers that take a message through guard, mark running, run tool, record, settle;
* the **governed pipeline**: registry, RBAC, validation, the destructive gate, dry run, async and sync execution,
  the approval endpoint, and the two audit tables they write;
* the **redactor** and the **CRM dry-run diff**, which decide what a client gets to see and approve.

`dafny verify dfyconfig.toml` checks the whole project.

## How the model is built

The imperative code is modelled imperatively. `LocalQueue.Queue`, `AuditRepository.Repository`, `Gateway.Executor`,
`Worker.JobWorker` and `Redactor.RedactionResult` are classes whose methods update fields of a shared `Database` (or
their own lists) in the order in which the source commits. Each method is proved equal to a function of the old state; the
theorems are about those functions. `Database` also has a ghost log with one entry for every session that may write, and
the methods of worker, queue and executor are proved to append exactly the specified chain of commits, so the order in
which row, job and event become visible is part of their contracts. `Serial.PollCommitsAreTheRun` shows that this chain is
what the transition system below passes through.

`Protocol` turns the functions into a labelled transition system. A `World` holds the committed tables, a monotone
clock, the submissions between their two commits, and each worker's hand (the claimed batch, the position in it, and the
phase of the message at hand). One step
is one committed session: a gateway call, the first or the second commit of a submission, an approval, a publish from
elsewhere, a republished copy, a claim, the next commit of one worker, a crash of one worker, or a tick. `Apply` is total (an impossible step changes nothing), so a
theorem about `Run(c, Init(workers), steps)` for every `steps` is a theorem about every interleaving of any number of
workers with crashes between any two commits. Three history variables record handler runs, client observations and
messages dropped by crashes; no step reads them.

| module | contents |
|---|---|
| `Values`, `Tables`, `Catalog` | JSON, the database tables with their row-level updates, tool specs and deployment settings |
| `Redactor`, `DryRun`, `Rbac` | redaction, the dry-run diff, the access decision |
| `LocalQueue`, `AuditRepository`, `Gateway`, `Worker` | the stateful components and the functions that specify them |
| `Protocol` | steps, runs |
| `QueueRuns`, `BoundedWait` | what every run keeps about rows, and how long a row can wait |
| `OpenSubmissions` | submissions between their two commits, and what brings keys and jobs into the tables |
| `DeliveryRuns`, `DeliveryTheorems` | agreement of row, job, key and handler runs when only the gateway publishes; retry refinement |
| `Duplicates` | one worker with republished copies |
| `HandlerRuns` | no delivery runs the tool twice |
| `Serial`, `Draining` | polling as a schedule; draining, the final job table, termination for several workers |
| `Accounting`, `JobAccounts`, `AuditTrail` | conservation of audit rows, in all and job by job; the audit trail tells the history |
| `GatewayRuns` | approvals as a function of history, the destructive gate, idempotent submission, provenance of handler runs, answers, jobs and keys |
| `Proposals` | what an approval is for |
| `Confidentiality` | where values of sensitive fields can end up |
| `Witnesses` | schedules from the start that reach what the guarantees leave open |

## Assumptions

* Every database session commits atomically, and a claim by `receive` is atomic.
* A submission commits twice: the publish in a session of its own, then the session of `invoke`. Both are steps (`Submit`,
  `Conclude`), anything may happen between them, the second may never come, and it rolls back when another submission took
  the key meanwhile. A `Call` is a whole invocation; for a submission it is the two steps with nothing between
  (`QueueRuns.CallIsSubmitThenConclude`). The publish itself is assumed to succeed.
* `GatewayOnly` names the schedules of `DeliveryRuns`, `DeliveryTheorems`, `IdleIsDrainable`, `DrainedJob`,
  `BatchSizeDoesNotMatter` and `EveryDeliveryIsReported`: no message from elsewhere, no copy, and no run of the tool for a
  submission before its second commit. With whole submissions the last holds by itself (`DeliveryRuns.WholeIsGatewayOnly`).
  `WorkerProvenance` excludes messages from elsewhere only. The results of `Duplicates` and `AtMostOnceIffOneWorker` are
  about whole submissions and copies. All other results hold for every schedule.
* Generated identifiers (job, approval, generated idempotency key) are new, and so are request ids: the HTTP endpoint passes
  none (apps/mcp-gateway/app/main.py:194-200). `AuditTrail.RequestIdsAreUnique` shows that the call table then meets its
  uniqueness constraint (packages/audit/models.py:57).
* The gateway and the workers read one settings object, so they share the registry, the queue name and the maximal
  delivery count. A first delivery always happens, so the effective bound M' is `max(1, max_delivery)` (`Catalog.Bound`).
* What a tool does in the worker is an arbitrary function of the queue row and the delivery count.
  `HandlerRuns.NoDeliveryRunsTwice` shows that no pair occurs twice in any schedule, foreign messages and copies included,
  so this leaves every sequence of outcomes possible. In the gateway the outcome is an arbitrary argument of the call.
* Validation, regular expressions and the input hash are uninterpreted functions. JSON encoding of a message body is the
  identity. Queue ids are handed out in order and rows are never deleted, so a row's id is its position in the table.
* `PollOnce` takes one clock reading for a poll, where `abandon` reads the clock anew for each message; in the transition
  system ticks may fall between any two commits.

## Where the code departs from its documentation or from what one may expect

* docs/observability.md:62-64 says that the lock of a crashed worker lapses after the visibility timeout and the message is
  redelivered. The claim query takes only `available` rows (packages/servicebus/local.py:72-76), so a locked row never
  comes back by itself. `QueueRuns.LockEndsIffHeld` is the exact condition: a locked row can leave that status in some
  continuation if and only if a worker still has its message in hand. `QueueRuns.CrashStrands` says what a crash does to
  every message in hand, and `Witnesses.LockNeverEnds` reaches such a row from the start.
* apps/worker/worker.py:17 promises that every outcome is written to the audit trail. The duplicate branch settles the row
  inside the session that updates the job (apps/worker/worker.py:59-69); the settle commits first, so a crash between the
  two leaves a completed row without its event. `Witnesses.DuplicateNotNoted` is such a schedule.
  `JobAccounts.ReportedUnlessInterrupted` is the exact condition, in terms of the schedule, for a job with no locked row,
  and `JobAccounts.EveryDeliveryIsReported` is the promise for committed submissions when only the gateway publishes.
* `approve` does not look at the current status (apps/mcp-gateway/app/main.py:247), so a consumed approval can be approved and
  used again: `Witnesses.ApprovalUsedTwice`. `GatewayRuns.UsableIffApprovedLast` is the exact condition for a use, and two
  uses always have an approval between them.
* The worker skips completed keys, but two workers that hold copies of one message can both pass the guard.
  `Witnesses.AtMostOnceIffOneWorker`: copies never cause a second success event if and only if there is at most one worker.
  Without copies `AtMostOneSuccessfulRun` holds for any number of workers.
* The message of a submission is published before its job and key are committed
  (apps/mcp-gateway/app/executor.py:238-251). A worker that handles it in between completes the row and finds nothing to
  record the outcome in: `Witnesses.JobStaysQueued`. When the gateway crashes in between, a resubmission under the same key
  runs the tool successfully again: `Witnesses.KeyRunsTwice`. As long as no tool runs before the second commit, which is
  the condition in `GatewayOnly`, `RecordBeforeSettle`, `RetryRefinement` and `AtMostOneSuccessfulRun` hold, whatever else
  workers have done with the message by then.
* The gateway redacts tool output, the worker does not: it stores raw output in job and key (apps/worker/worker.py:94-100), and
  the job endpoint returns it (apps/mcp-gateway/app/main.py:217-228). `Confidentiality.WorkerHidesIffNothingSensitive`: the
  job record hides the values of a tool's sensitive fields if and only if the tool has none.

## Model

| member | source | states |
|---|---|---|
| `DeliveryTheorems.RetryRefinement` | apps/worker/worker.py:84-123 | Whenever a job's row is settled, after any interleaving, batch sizes and crashes, the job record is exactly what trying the tool up to M' times makes of the submitted job, and the tool ran as often as the job has attempts and the row has deliveries. |
| `DeliveryTheorems.SettledJobIsExact` | apps/worker/worker.py:94-123 | A settled job is decided by its last delivery: all earlier ones failed and at most M' were made. Completed: succeeded with that output, the error fields those of the failure before it or empty. Dead-lettered: M' deliveries failed, no result, the last failure's text and code (a tool error's own, an exception's attribute, else `EXECUTION_ERROR`). |
| `DeliveryTheorems.FirstSuccessDecides` | apps/worker/worker.py:94-98 | The reference verdict with a success inside the bound: succeeded, attempts and result of the least successful attempt, the error fields of the failure before it kept. |
| `DeliveryTheorems.LastFailureDecides` | apps/worker/worker.py:106-123 | The reference verdict without a success: dead letter, attempts equal to the last permitted one. |
| `DeliveryTheorems.ScheduleIndependence` | apps/worker/worker.py:126-131 | Two continuations of one run that both settle a job leave the same record of it. |
| `DeliveryTheorems.AtMostOneSuccessfulRun` | apps/worker/worker.py:49-123 | With any number of interleaved workers and crashes, a key has at most one successful handler run and at most M' runs. |
| `DeliveryTheorems.EachDeliveryRunsOnce` | apps/worker/worker.py:84-92 | The n-th run under a key is the n-th delivery of one and the same row, and all runs before the last failed. |
| `DeliveryTheorems.RecordBeforeSettle` | apps/worker/worker.py:94-123 | At every commit point, for a committed submission, a completed row has a succeeded job and a completed key, a dead-lettered row has a dead-lettered job and an open key, an available row has an undecided job: the worker's and the queue's independent bound tests agree. The row of an uncommitted one is never dead-lettered, and completed only when its key was taken. |
| `DeliveryTheorems.UndecidedJobHasItsRow` | packages/servicebus/local.py:110-133 | A job without a verdict has exactly one row, and that row is available or locked. |
| `DeliveryTheorems.NoDuplicateOrUnknown` | apps/worker/worker.py:58-82 | No worker ever takes the unknown-tool branch, nor the duplicate branch for a committed submission. |
| `DeliveryTheorems.KeysJobsRowsBijection` | apps/mcp-gateway/app/executor.py:210-256 | In every reachable state keys and jobs name each other and have a row that names both; every row is of that kind exactly when its submission is not between its two commits; no two rows share a job. |
| `DeliveryTheorems.RowOfJob` | apps/mcp-gateway/app/executor.py:238-251 | Every job has one row, which carries its id and its key. |
| `DeliveryRuns.DeliveryInvariant` | apps/worker/worker.py:49-123 | The stage of every row, its job, its key, its handler runs and the phase of the worker that holds it agree in every reachable state, between the two commits of a submission as well. |
| `DeliveryRuns.ConcludeKeepsDelivery` | apps/mcp-gateway/app/executor.py:238-256 | The second commit of a submission links its row, whatever workers did with the message before, short of running the tool. |
| `DeliveryRuns.WholeIsGatewayOnly` | apps/mcp-gateway/app/executor.py:244-251 | With whole submissions no tool can run before its submission is committed. |
| `DeliveryRuns.HereAfter` | apps/worker/worker.py:49-123 | One commit of a worker takes its row from one stage to the next, or settles it in the stage that its record demands. |
| `DeliveryRuns.CommitElsewhere` | apps/worker/worker.py:49-123 | A commit for one row leaves row, job, key and runs of every other committed row as they were. |
| `Serial.PollIsPollOnce` | apps/worker/worker.py:126-131 | A claim followed by the worker's commits to the end of its batch leaves the database that `poll_once` leaves. |
| `Serial.PollCommitsAreTheRun` | apps/worker/worker.py:49-131 | The tables that `poll_once` commits, session by session, are exactly those its schedule passes through, so a crash during a poll leaves one of them and can leave each. |
| `Serial.PollIsRun` | apps/worker/worker.py:126-131 | A poll is a schedule of the transition system without crashes and publishes. |
| `Draining.PolledSpends` | apps/worker/worker.py:126-131 | A poll lowers the sum of M' minus deliveries over the unsettled rows by at least the number of messages it processed. |
| `Draining.DrainIsRun` | apps/worker/worker.py:126-131 | Polling until a poll returns 0 terminates (that `Drain` is a function needs the decrease) and is a schedule of the transition system. |
| `Draining.DrainSettlesAll` | apps/worker/worker.py:126-131 | After the drain every row of the queue is completed or dead-lettered, whatever messages were in it, but for the rows that crashes had stranded before; those are as they were. |
| `Draining.IdleIsDrainable` | apps/worker/worker.py:126-131 | Every gateway-only schedule, crashes included, that leaves the workers idle and no submission open meets the premise of the draining results. |
| `Draining.CrashFreeStrandsNothing` | packages/servicebus/local.py:97-133 | A crash-free schedule that leaves the workers idle leaves no row locked. |
| `Draining.DrainedJob` | apps/worker/worker.py:84-131 | Draining turns every job whose row no crash has stranded into the verdict of trying its row up to M' times. |
| `Draining.BatchSizeDoesNotMatter` | apps/worker/worker.py:126-131 | The drained job table is the same for all batch sizes, visibility timeouts and polling intervals, stranded jobs included. |
| `Draining.InterleavingsTerminate` | apps/worker/worker.py:126-131 | Without crashes and new messages only a bounded number of steps of any schedule of any number of workers claim or commit anything; the bound is computed from the tables and the hands. |
| `Draining.AtRestAllIsSettled` | apps/worker/worker.py:126-131 | When the workers are idle and a claim finds nothing, every row of the queue is settled or was stranded by a crash. |
| `Duplicates.AtMostOneSuccessEvent` | apps/worker/worker.py:58-69 | At most one worker, crashes and any number of republished copies: a key's job has at most one success event, and it has one exactly when the key is completed. |
| `Duplicates.CompletedForever` | apps/worker/worker.py:94-104 | Once a key is completed, in every continuation it keeps its result and its job is succeeded with that same result. |
| `Duplicates.CompletedRowIsRecorded` | apps/worker/worker.py:94-104 | With copies too, at every commit point a completed row has a completed key and a succeeded job with the key's result. |
| `Witnesses.AtMostOnceIffOneWorker` | apps/worker/worker.py:58-104 | For every deployment with an async tool that may be called and returns: under any copies no job is recorded as succeeded twice, if and only if there is at most one worker. |
| `Witnesses.TwoWorkersRecordTwice` | apps/worker/worker.py:58-104 | The schedule behind it, for any number of workers from two on: one submission, one copy, two success events. |
| `Witnesses.DuplicateNotNoted` | apps/worker/worker.py:58-69 | A schedule after which all rows of a job are completed and the job has fewer worker events than deliveries. |
| `Witnesses.LockNeverEnds` | packages/servicebus/local.py:70-80 | A schedule after which a row is locked in every continuation, whatever the visibility timeout. |
| `Witnesses.ApprovalUsedTwice` | apps/mcp-gateway/app/main.py:242-254 | A schedule with one dry run and two destructive executions on its approval, under pairwise distinct request ids. |
| `Witnesses.JobStaysQueued` | apps/mcp-gateway/app/executor.py:238-251 | A schedule in which a worker handles the message between the two commits: the only row is completed, the job is queued and its key open. |
| `Witnesses.KeyRunsTwice` | apps/mcp-gateway/app/executor.py:238-251 | A schedule in which one worker runs the tool successfully twice under one client key, after the gateway crashed between the two commits. |
| `HandlerRuns.NoDeliveryRunsTwice` | apps/worker/worker.py:84-92 | In every schedule, with foreign messages, copies and crashes, two handler runs of workers differ in row or delivery count. |
| `QueueRuns.QueueInvariant` | packages/servicebus/local.py:64-133 | In every reachable state, whoever publishes: an available row has fewer than M' deliveries, any other row between 1 and M'; a message in hand is the current delivery of a locked row (of a completed one while a duplicate is still to be noted) and has one holder; first deliveries are in id order. |
| `QueueRuns.SettledForever` | packages/servicebus/local.py:110-133 | A completed or dead-lettered row never changes again in any continuation. |
| `QueueRuns.LockEndsIffHeld` | packages/servicebus/local.py:70-80 | A locked row can leave that status if and only if a worker still has its message in hand. |
| `QueueRuns.CrashStrands` | packages/servicebus/local.py:70-80 | When a worker crashes with a claimed message in hand, the message's row stays as it is in every continuation. |
| `QueueRuns.HolderSettles` | apps/worker/worker.py:94-123 | The holder of a message can always settle it with its own commits. |
| `QueueRuns.FirstDeliveriesInOrder` | packages/servicebus/local.py:70-100 | A delivered row has only delivered rows before it in its queue. |
| `QueueRuns.StepOnRow` | packages/servicebus/local.py:97-133 | No step changes a row's body or queue, lowers its count, or touches a settled row or a row locked by a crashed worker. |
| `QueueRuns.CommitTouchesOneRow` | apps/worker/worker.py:49-123 | A commit changes no row but the one at hand, and that one only when it settles; it is made available again only below the bound. |
| `QueueRuns.HistogramIsConserved` | packages/servicebus/local.py:136-142 | Claims, commits, crashes and the clock leave the sum of the status histogram unchanged. |
| `QueueRuns.HistogramCountsPublishes` | packages/servicebus/local.py:58-62 | After every schedule the histogram of a queue sums to the number of steps that published to it: foreign messages, copies, first submissions. |
| `QueueRuns.CallIsSubmitThenConclude` | apps/mcp-gateway/app/executor.py:244-251 | A submission with nothing between its two commits is the whole invocation, and the two commits are those that `invoke` logs. |
| `OpenSubmissions.OpenInvariant` | apps/mcp-gateway/app/executor.py:238-251 | A submission between its two commits was admitted, its message is in the queue, and its job is not in the tables. |
| `BoundedWait.WaitIsBounded` | packages/servicebus/local.py:70-100 | A row with k older rows in its queue is delivered within floor(k M' / m) + 1 polls of batch size m, whatever is published, fails or crashes. |
| `BoundedWait.PollSpends` | packages/servicebus/local.py:70-100 | A poll delivers the row or spends m deliveries on older rows. |
| `Accounting.AuditConservation` | apps/mcp-gateway/app/executor.py:95-111 | At every commit point events plus outstanding and lost event writes equal tool calls plus granted approvals plus deliveries, and approvals equal dry-run calls. |
| `Accounting.AuditCompleteBetweenPolls` | apps/worker/worker.py:58-123 | Between polls of crash-free workers the number of events is tool calls plus granted approvals plus the sum of delivery counts. |
| `JobAccounts.JobConservation` | apps/worker/worker.py:58-123 | At every commit point of every schedule: a job's worker events plus its outstanding and dropped deliveries equal the deliveries of its rows. |
| `JobAccounts.ReportedUnlessInterrupted` | apps/worker/worker.py:58-69 | For a job with no locked row, after every schedule: events equal deliveries if and only if no worker stands, and none crashed in the schedule, between completing a duplicate's row and noting it. |
| `JobAccounts.EveryDeliveryIsReported` | apps/worker/worker.py:17 | When only the gateway publishes, crashes included, a row that is not locked and whose submission is committed has exactly one worker event for each delivery. |
| `AuditTrail.TrailTellsTheHistory` | apps/mcp-gateway/app/executor.py:95-111 | Over every run the n-th call row tells the n-th answered invocation (caller, tool, hash, decision, error, redaction) and the n-th gateway event reports the n-th thing clients saw. |
| `AuditTrail.RequestIdsAreUnique` | packages/audit/models.py:57 | The call table never holds a request id twice, over every run and with open sessions. |
| `GatewayRuns.ApprovalStatusIsHistory` | apps/mcp-gateway/app/main.py:242-254 | The stored approval (tool, proposer, status, who moved it) is the one that the sequence of dry runs, approvals and executions gives it. |
| `GatewayRuns.ReapprovedBetweenExecutions` | apps/mcp-gateway/app/executor.py:275-286 | Two destructive executions that cite one approval always have an approval of it between them. |
| `GatewayRuns.UsableIffApprovedLast` | apps/mcp-gateway/app/executor.py:275-286 | After any schedule a destructive call with the token executes on an approval if and only if the last thing that happened to it was an approve and the handler returns. |
| `GatewayRuns.ProposedThenApproved` | apps/mcp-gateway/app/executor.py:187-199 | Before any destructive execution a dry run created the cited approval and afterwards an admin approved it. |
| `Proposals.ApprovalCarriesTheProposal` | apps/mcp-gateway/app/executor.py:187-199 | At any time of any run the approval with an id carries the resource and the proposed change that the handler of the one proposing call returned, and that call's tool and caller. |
| `Proposals.TermsAreFixed` | apps/mcp-gateway/app/main.py:242-254 | No continuation changes tool, resource, proposed change or proposer of an approval, so what an admin approves is what was proposed. |
| `Proposals.GrantEventsNameTheTool` | apps/mcp-gateway/app/main.py:249-254 | Over every run the event of a grant names the tool of the approval that was granted. |
| `GatewayRuns.SubmissionIsIdempotent` | apps/mcp-gateway/app/executor.py:214-223 | All accepted submissions under one client key get one job id, whatever happens in between. |
| `GatewayRuns.AnswerIsTheKeysJob` | apps/mcp-gateway/app/executor.py:214-256 | An accepted submission is answered with the job its key names afterwards, and no key row is ever rewritten by a call. |
| `GatewayRuns.GatewayProvenance` | apps/mcp-gateway/app/executor.py:113-208 | For any registry every handler run in the gateway is the run of one answered call: same request id, which no other run and no other answer carries, known and listed role, enabled tool that is not plain async, validated arguments; and the answer shows that run's outcome, redacted for that caller. |
| `GatewayRuns.ResultsComeFromRuns` | apps/mcp-gateway/app/executor.py:169-208 | Over every run a client is shown a result only if its own call ran the handler and the handler returned; what it is shown is that output, redacted for this client. |
| `GatewayRuns.WorkerProvenance` | apps/worker/worker.py:71-92 | Without foreign messages every handler run in a worker, copies included, is for a plain async tool and a request that was admitted with those validated arguments and answered with the run's job under the message's trace id, or whose session is still open; the message carries the client's key. |
| `GatewayRuns.DestructiveRunsWereApproved` | apps/mcp-gateway/app/executor.py:258-284 | Every run of a destructive tool, returned or raised, is the run of one call, and of no other run's: it shows the configured token and cites an approval granted before and not used since. |
| `GatewayRuns.JobProvenance` | apps/mcp-gateway/app/executor.py:238-243 | At any time of any run a job carries tool, caller, validated arguments and client key of an accepted submission that was answered with it. |
| `GatewayRuns.KeyProvenance` | apps/mcp-gateway/app/executor.py:214-236 | At any time of any run a key row carries the job, the tool and the hash of the raw arguments of an accepted submission under that key; later submissions never rewrite them. |
| `Gateway.Executor.InvokeTool` | apps/mcp-gateway/app/executor.py:75-166 | Response, handler run, new database and the committed sessions are those of the specified routing: for a new submission the publish, then everything else; otherwise one session. |
| `Gateway.Executor.Finish` | apps/mcp-gateway/app/executor.py:95-111 | One call row and one event are appended and the session is committed. |
| `Gateway.Executor.HandleSync` | apps/mcp-gateway/app/executor.py:176-185 | Runs the tool and answers as specified, changing no table; `AnswerIsOfTheRun` says what the answer shows. |
| `Gateway.Executor.HandleDryRun` | apps/mcp-gateway/app/executor.py:187-208 | A dry run that returns creates the pending approval of its proposal and answers with its id; one that raises creates none. `AnswerIsOfTheRun` and `WhatMovesApprovals` say what answer and approval hold. |
| `Gateway.Executor.HandleAsync` | apps/mcp-gateway/app/executor.py:210-256 | A known key answers with its job and commits nothing; a new key reserves it, creates the job and publishes its message, of which the publish commits first. |
| `Gateway.Executor.HandleDestructive` | apps/mcp-gateway/app/executor.py:258-291 | Kill-switch, token, approved record, in this order; only a run that returns consumes the approval. |
| `Gateway.Executor.ApproveChange` | apps/mcp-gateway/app/main.py:231-256 | Grants exactly for an admin and an existing record, whatever its status, in one session with one event. |
| `Gateway.WhatRuns` | apps/mcp-gateway/app/executor.py:144-158 | The gateway runs a handler on given arguments if and only if the call is admitted with them, the tool is not plain async, and for a destructive tool the gate is open. |
| `Gateway.DecisionIsExact` | apps/mcp-gateway/app/executor.py:113-166 | Each of the five decisions has exactly one cause, given in terms of registry, role, arguments, gate and handler outcome; error codes go with refusals and failures only, results with executions and dry runs only. |
| `Gateway.AnswerIsOfTheRun` | apps/mcp-gateway/app/executor.py:169-208 | Every call whose handler ran is answered with that outcome and nothing else. Raised: the tool error's code or `INTERNAL_ERROR`, no result. Returned: the output leaf by leaf masked, swept or kept under the tool's sensitive fields, raw only for a role in its raw roles, with the right status and lists; a dry run sets `approval_id` and keeps every other key, a destructive call names the approval it cited and reports the status only. |
| `Gateway.CodesAreExact` | apps/mcp-gateway/app/executor.py:113-152 | Each code of a call that ran no handler has exactly one condition: `UNKNOWN_TOOL`, `unknown_role`, `tool_disabled`, `role_not_permitted`, `INVALID_ARGUMENTS`, `APPROVAL_REQUIRED`, `APPROVAL_NOT_APPROVED`; such an answer, and that of a submission, carries no result, approval or redaction report. |
| `Values.PutSets` | apps/mcp-gateway/app/executor.py:200-201 | Setting a key replaces its first entry in place or appends it; all other entries and their order stay. |
| `Values.GetAfterPut` | apps/mcp-gateway/app/executor.py:200-201 | After a key is set it reads as the new value and every other key reads as before. |
| `Gateway.WhatMovesApprovals` | apps/mcp-gateway/app/executor.py:187-286 | An approval is created or consumed if and only if the matching handler returned; a created one holds exactly the tool, the caller, the resource and the proposed change that the handler returned; refused and failed calls change nothing but the audit tables. |
| `Gateway.WhatEnqueues` | apps/mcp-gateway/app/executor.py:210-251 | A call enqueues if and only if it is an admitted call of a plain async tool under a new key. |
| `Gateway.DuplicateTouchesOnlyAudit` | apps/mcp-gateway/app/executor.py:216-223 | A submission under a known key, with whatever arguments, gets the first job's id and changes only the two audit tables. |
| `Gateway.InvocationNonInterference` | apps/mcp-gateway/app/executor.py:169-185 | Two tool outputs that differ only in sensitive leaves give the same response and the same database for a caller without raw access. |
| `Confidentiality.RunNonInterference` | apps/mcp-gateway/app/executor.py:169-208 | Two schedules whose gateway calls differ in values of sensitive fields only, for callers without raw access, lead to the same world: tables, queue, hands and everything clients saw. Only the history of what handlers returned tells them apart. |
| `Confidentiality.WorkerHidesIffNothingSensitive` | apps/worker/worker.py:94-98 | The result stored in the job hides the values of the tool's sensitive fields if and only if the tool has none. |
| `Gateway.InvokeTables` | apps/mcp-gateway/app/executor.py:92-166 | Only an enqueued submission touches rows, jobs and keys; every invocation appends one call row and one event. |
| `Worker.JobWorker.Process` | apps/worker/worker.py:49-104 | The sessions it commits, one by one, are the specified chain: running mark, record, settle; or the duplicate or unknown-tool chain. |
| `Worker.JobWorker.SkipDuplicate` | apps/worker/worker.py:58-69 | Commits the completed row first and then, in one session, job and event. |
| `Worker.JobWorker.RejectMessage` | apps/worker/worker.py:71-82 | Commits job and event in one session and then the dead-lettered row. |
| `Worker.JobWorker.SettleSuccess` | apps/worker/worker.py:94-104 | Commits job, key and event in one session and then the completed row. |
| `Worker.JobWorker.HandleFailure` | apps/worker/worker.py:106-123 | Commits job and event in one session and then the abandoned row; the message's count decides what is recorded, the row's count what the queue does. |
| `Worker.JobWorker.PollOnce` | apps/worker/worker.py:126-131 | Commits the claim and then the chains of its messages in order, and returns the batch size. |
| `Worker.CompletedKeyIsSkipped` | apps/worker/worker.py:58-69 | A message under a completed key runs no tool: row completed, stored result in the job, attempts kept, and one event with its tool, trace id, job and key. |
| `Worker.UnknownToolIsDeadLettered` | apps/worker/worker.py:71-82 | A message for an unregistered tool is dead-lettered in row and job at any delivery count, with code, text and event written out, key untouched. |
| `Worker.AttemptIsRecorded` | apps/worker/worker.py:84-123 | Any other message: success, retry and dead letter each show in job, row, key and event, and no other job or row changes. A failure shows a tool error's own code, an exception's attribute or `EXECUTION_ERROR` in job and event, and the event carries the delivery count and the bound. |
| `LocalQueue.Queue.Receive` | packages/servicebus/local.py:64-108 | The claiming loop returns the messages of the selected rows in order and updates exactly those rows, in one session. |
| `LocalQueue.Queue.Claim` | packages/servicebus/local.py:97-107 | One claim locks the row, counts the delivery, and hands out the new count. |
| `LocalQueue.Queue.Abandon` | packages/servicebus/local.py:116-126 | At the bound the row is dead-lettered, below it it is available at once. |
| `LocalQueue.Queue.Stats` | packages/servicebus/local.py:136-142 | The histogram has exactly the statuses that occur in the queue, with their exact counts. |
| `LocalQueue.SelectedExact` | packages/servicebus/local.py:70-80 | The claim takes only rows of the queue that are available and visible, each once, in id order, at most `max`; such a row left behind is younger than all taken ones and the batch is full. |
| `LocalQueue.ClaimIsExact` | packages/servicebus/local.py:97-107 | After a claim exactly the selected rows differ, how they differ, and the messages are those of the selected rows with the new counts, in id order. |
| `LocalQueue.HistogramSums` | packages/servicebus/local.py:136-142 | The four statuses partition the queue's rows. |
| `LocalQueue.CountIsCardinality` | packages/servicebus/local.py:136-142 | Each count of the histogram is the number of rows of the queue in that status. |
| `AuditRepository.Repository.SetJobStatus` | packages/audit/repository.py:78-93 | Nothing for a missing job; otherwise the status and only the given fields change. |
| `AuditRepository.Repository.ReserveIdempotency` | packages/audit/repository.py:96-107 | A conflict exactly when the key exists, and then nothing changes. |
| `AuditRepository.Repository.CompleteIdempotency` | packages/audit/repository.py:112-116 | An existing key becomes completed with the result; a missing one is ignored. |
| `Redactor.RedactionNonInterference` | packages/pii/redactor.py:71-94 | Trees of one shape that differ only in leaves under a sensitive key give the same data and the same two lists. |
| `Redactor.RedactionIsExact` | packages/pii/redactor.py:71-94 | Shape, dict keys and key order survive. A leaf under a sensitive key becomes the mask text unless raw access is allowed, any other string leaf the text of its sweep, with and without raw access, and any other leaf stays. The status is `none` exactly when both lists are empty. |
| `Redactor.ListsAreExact` | packages/pii/redactor.py:76-91 | The field list is exactly the set of sensitive keys that govern a masked leaf, the pattern list exactly the set of patterns that matched in a swept leaf; both are without duplicates and in order of first encounter among the leaves. |
| `Redactor.LeavesAreTheScalars` | packages/pii/redactor.py:71-76 | The leaves of a tree are its scalars in document order, all of them, each with the key of the last dict on its path: lists hand the enclosing key down. |
| `Redactor.CleanMeansUnchanged` | packages/pii/redactor.py:38-42 | Status `none` implies that the output equals the input. |
| `Redactor.RawStillSwept` | packages/pii/redactor.py:64-67 | With raw access no field is masked, and every string leaf is still swept. |
| `Redactor.ShapeAndLeavesDetermine` | packages/pii/redactor.py:71-75 | A tree is determined by its shape and its leaves, so the two together describe redaction completely. |
| `Redactor.FirstEncounter` | packages/pii/redactor.py:78-84 | The guarded append yields the duplicate-free list in first-encounter order. |
| `Redactor.RedactText` | packages/pii/redactor.py:45-53 | There are texts from the input to the output such that each pattern sees the text that the ones before it left and masks it exactly when it matches there; `matched` names those patterns in order. |
| `Redactor.SweepIsChain` | packages/pii/redactor.py:45-53 | The fold that specifies the loop is such a chain of texts, for all patterns and texts. |
| `Redactor.ChainIsUnique` | packages/pii/redactor.py:45-53 | There is one such chain, so text and matches are determined by it. |
| `Redactor.NothingLeftToMatch` | packages/pii/redactor.py:49-52 | When no pattern matches its own masked text, and no mask uncovers a match of an earlier pattern, no pattern matches in the output. |
| `Redactor.IdleSweep` | packages/pii/redactor.py:49-53 | A sweep reports nothing if and only if no pattern matches in the text, and then leaves it alone. |
| `Redactor.RedactingTwice` | packages/pii/redactor.py:71-94 | Redacting what was redacted changes no data if and only if a second sweep changes none of its unmasked strings. |
| `Redactor.RedactionIsStable` | packages/pii/redactor.py:71-94 | When no mask leaves or uncovers a match, redaction is idempotent on every tree and for every caller. |
| `Redactor.RedactionResult.Walk` | packages/pii/redactor.py:71-91 | The recursive walk rebuilds the masked tree and extends both lists by what the leaves of the node contribute. |
| `Redactor.RedactionResult.WalkFields` | packages/pii/redactor.py:72-73 | The same for a dict, whose values are governed by their own keys. |
| `Redactor.RedactionResult.WalkItems` | packages/pii/redactor.py:74-75 | The same for a list, whose items keep the enclosing key. |
| `Redactor.RedactionResult.WalkScalar` | packages/pii/redactor.py:76-91 | A scalar is masked, swept or kept, and the two lists grow by what it contributes; `RedactionIsExact` says what that is. |
| `Redactor.RunRedact` | packages/pii/redactor.py:56-94 | A fresh result that holds the redaction described by the leaves of the input. |
| `DryRun.CreateCrmUpdateDryRun` | packages/tool_registry/tools.py:178-199 | An unknown account fails; otherwise the loop builds the diff, says that approval is required and nothing was written, and reports the proposal unchanged. |
| `DryRun.DiffListsChanges` | packages/tool_registry/tools.py:183-187 | The diff lists exactly the proposed changes that do not hold yet, in the proposal's order, each with the value read before and the proposed one. |
| `DryRun.PatchIsSound` | packages/tool_registry/tools.py:183-187 | Applying the `to` values reads, field by field, like applying every proposed change. |
| `DryRun.PatchIsReversible` | packages/tool_registry/tools.py:183-187 | Applying the `from` values afterwards restores what every field read before. |
| `DryRun.TouchedIffChanged` | packages/tool_registry/tools.py:183-187 | A field has an entry if and only if the proposal changes what it reads. |
| `DryRun.EmptyIffNothingChanges` | packages/tool_registry/tools.py:183-187 | The diff is empty if and only if every proposed change already holds. |
| `DryRun.PatchIsMinimal` | packages/tool_registry/tools.py:183-187 | Any list of changes with the same effect touches every field of the diff. |
| `DryRun.NoShorterPatch` | packages/tool_registry/tools.py:183-187 | No list of changes with the same effect is shorter than the diff. |
| `Rbac.Evaluate` | packages/rbac/policy.py:33-46 | Each reason if and only if its condition: unknown role first, then the kill-switch, then the role list. |

The remaining methods of repository and queue (appending, inserting, fetching, settling a row) are proved against their
assignment and carry no claim of their own.

## Left out

- Copies together with submissions between their two commits: the results of `Duplicates` are about whole submissions.
- A publish that raises: the session of `invoke` then rolls back and nothing is committed.
- `Gateway.CitedApproval`: an `approved_change_id` that is not a string counts as naming no record.
- `Worker.ErrorCode`: a `code` attribute of an exception that is not a string, for example `None`, is not modelled.
- `DryRun.Diff`: values are compared as JSON values; Python's equality across types (`1 == True`) is not modelled.
- `DryRun.CreateCrmUpdateDryRun`: the human-readable message of the report is left out.
- Human-readable messages, latency, timestamps and telemetry spans: no decision depends on them.
- Token signing and verification: a principal is given. The token check of the destructive gate is modelled.
- The HTTP layer, schemas, read-only endpoints, admin pages, demo agent, dashboards and infrastructure code.
- The Azure Service Bus backend and the Databricks connector: SDK calls and a mock.
- Regular expressions and argument schemas: uninterpreted. That the shipped patterns meet the premise of
  `RedactionIsStable` is not claimed, because a mask can create a boundary at which another pattern matches.
- The other tool handlers, their fixtures, the policy snapshot table and the budget arithmetic: lookups and sums without state.
- `run_forever`: signals, sleeping and the catch-all around a poll. A poll that raises is a crash between two commits whose
  claimed messages are dropped, which the model covers as `Crash`.
- The SQLite fallback of `receive`: the claim is atomic in both.
