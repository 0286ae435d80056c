# Verification of the per-CPE read-query protocol

This project models how the ACS queues read queries for its CPEs, hands them to devices inside CWMP sessions, judges the
replies and keeps what they say, and proves what holds of every run. Path names are the parameter paths of TR-069 data models;
a discovery step is a GetParameterNames with NextLevel true (section A.3.2.3 of TR-069), a values read a GetParameterValues
(section A.3.2.2).

`dafny verify dfyconfig.toml` checks everything.

## How it is laid out

- `Text`, `Numbers`, `Domain`: character order, sorting, splitting, paths, decimal text; the values that components exchange.
- `Policies`: what the queue asks of a query policy, as a record of functions with a contract. All protocol theorems hold for
  every policy that meets the contract; `Telemetry`, `TelemetryProofs` and `Huawei` model the one the repository ships and prove
  that it does. `Verdicts` and `ReadResults` say what that policy makes of a reply, parameter by parameter; `FieldNames`, `Readings`
  and `Measurements` follow a telemetry field from the name and text that the device reports to the stored row.
- `Registers`, `ArrivalOrder`, `ObservedRuns`: last observation and last valid value of inventory and telemetry fields, on their own
  and over runs, and the firmware side of approvals.
- `Jobs`, `Queue`: job records, the tables as one value `Db`, and each repository operation as a function from tables to tables.
  A raised error is `Raised`, which carries no tables: nothing of the transaction is kept, not even the expiry or the job advance
  that preceded the error.
- `Invariants`, `JobProofs`, `QueueProofs`, `AdvanceProofs`, `AnswerProofs`, `OperationProofs`: the invariants and why every
  change keeps them. `Runs` states what holds of every reachable state. `Effects`, `Replay`, `StoredPlans`, `Progress` and `Idempotency` relate
  several states of a run. `QuietSteps`, `ReplyLog`, `EntryTotals`, `WalkCompleteness` and `WalkResults` follow the replies of a run
  into the catalog and the discovery jobs; `OvertakenWalk` is a run in which one goes wrong. `OpRules` carries rules of single operations
  over runs.
- `Acceptance`, `Discoveries`, `Commands`, `ReplyOutcomes`, `StoredValues`, `Origins`, `Identities`: what one step answers and leaves, from
  the request that is accepted to the command that is handed out, the reply that is recorded and the rows that it leaves.
- `Validation`, `ApprovalLapse`: binding, status and approval of the reviewed profile, and when an approval lapses.
- `Xml`, `Soap`, `SoapPrinter`: element trees, namespace scopes (section 6.1 of Namespaces in XML 1.0), the reply parser and printer;
  `Grammar` and `Requests` say which documents are replies and what a printed request asks.
- `Relabel`, `Evidence`, `EvidenceProofs`, `Disclosure`, `StoredEvidence`: evidence of one read, what it shows and its verification, down
  to what runs store.
- `Repository`: the tables as fields of a class, with methods that update them in place and loop as the code does. Each method is
  proved to end in exactly the tables that the function in `Queue`, `Registers` or `Validation` gives, and to restore all of them
  when it raises.

Each public repository method is one atomic step, which the row lock on the CPE gives. Identities are drawn from a counter,
timestamps are integers and are assumed to be ordered only where a theorem says so. The digest is the digested tuple itself.

The policy, the address library (`Relabel.AddressLib`) and the printable-character test enter as parameters with stated
properties. `AddressLib` asks what Python’s `ipaddress` gives: only hexadecimal digits, colons and dots in an address without a
zone, a canonical text that is read back as the same address, and documentation addresses that are their own canonical text.

## What turned out otherwise

- The last valid value does depend on arrival order: `ArrivalOrder.ColumnDependsOnArrival` gives two inventories whose two orders leave
  different columns. The order does not matter exactly when all the newest reports of the field are valid and agree, or none is valid
  (`ArrivalOrder.ColumnOrderFree`); for every order, `Registers.InventoryRefinesHistory` says what is held.
- The arm of the job that notes an unsupported branch is never reached (`Runs.BranchNeverNoted`): reported objects have already been
  checked to be concrete (`Text.ReportedIsChild`). The assertions of an exchange that a referenced row exists cannot fail either
  (`Effects.NeverAsserts`).
- The handler that refuses a reply because its stored profile cannot be restored is never reached under the Huawei policy
  (`StoredPlans.HuaweiPlansRestore`).
- Collecting ends the approval that it needs: its read takes the values over from the operation that was approved
  (`ApprovalLapse.CollectingEndsApproval`), and under the same binding the profile is never effective
  again (`ApprovalLapse.RunValues`).
- A discovery job can succeed without having asked for an object that its own reply named: the catalog keeps a row from a later time, and
  the job reads only rows that cite its operation. `OvertakenWalk.WalkMissesChild` is such a run. The guard of that upsert is the exact
  condition, for what is dispatched and for the entry count (`WalkResults.WalkFindsExactly`, `WalkResults.EntryCountExactly`); with step
  times that never decrease it always holds (`WalkResults.WalkFindsEverything`, `WalkResults.EntryCountIsTotal`).

## Model

| member | source | states |
|---|---|---|
| `Runs.RunKeeps` | backend/src/acs/infrastructure/database/queries.py:107-718 | From the empty database, whatever transactions follow, every invariant of the queue holds after each of them, and an operation that was terminal never changes again in state, result, reason, fault, finishing time or evidence. |
| `Runs.MutualExclusion` | backend/src/acs/infrastructure/database/query_models.py:47-52 | In every reachable state a CPE has at most one pending or dispatched operation and at most one running job; a running job has a current operation and no other operation of its CPE is active, so the partial unique indexes never fire. |
| `Runs.DispatchCoupling` | backend/src/acs/infrastructure/database/queries.py:432-484 | An operation is dispatched exactly when it has an attempt whose session awaits the response; attempts pair operations and sessions one to one; operation, attempt and session share one deadline, the earlier of ten minutes after creation and one minute after dispatch. |
| `Runs.NothingOverdue` | backend/src/acs/infrastructure/database/queries.py:107-133 | After any committed create, get, job creation, job poll or exchange, every active operation of that CPE has its deadline strictly ahead. |
| `Runs.WalkNeverRepeats` | backend/src/acs/infrastructure/database/collection_jobs.py:155-254 | In every reachable state the dispatched and the waiting paths of a discovery job are pairwise distinct, each extends the root by exactly its depth within the limit, and the waiting ones are in level order over at most two levels. |
| `Runs.SelectionInOrder` | backend/src/acs/infrastructure/database/collection_jobs.py:104-123 | What a selection job has asked and what still waits split the sorted selection in order; nothing is asked twice or outside it; each request is within the batch size and within what the entry budget had left after the requests before it; while nothing failed or was cut, nothing is missing. |
| `Runs.SelectionSucceeds` | backend/src/acs/infrastructure/database/collection_jobs.py:200-254 | A selection job that succeeded asked every selected name exactly once, every request was answered with exactly the names it asked for, in their order, and the entry count is the size of the selection. |
| `Runs.JobEnds` | backend/src/acs/infrastructure/database/collection_jobs.py:155-254 | In every reachable state a job is over exactly when it has a finishing time and succeeded exactly when then nothing failed and no limit was met; the failures that name an operation are exactly those of its operations that ended otherwise than in success, each with the reason stored for it; the limits on requests and on depth are noted only when they are reached. |
| `Runs.BranchNeverNoted` | backend/src/acs/infrastructure/database/collection_jobs.py:178-199 | In no reachable state has a job noted an unsupported branch. |
| `Runs.BudgetsHold` | backend/src/acs/infrastructure/database/collection_jobs.py:203-252 | RPCs launched are counted exactly (completed plus the current one), never exceed the RPC limit, and the entry count never exceeds the entry limit, although that limit is enforced in two places. |
| `Runs.EntriesAccounted` | backend/src/acs/infrastructure/database/collection_jobs.py:169-202 | While a discovery job runs, its entry count is exactly the number of catalog rows that cite the operations it has accounted for. |
| `Runs.Provenance` | backend/src/acs/infrastructure/database/queries.py:609-685 | Every catalog and value row cites a succeeded operation of the same CPE that finished at the row’s time and asked for it (a direct child of the path, or a requested name); every inventory or telemetry observation from a read cites a terminal values read of the CPE at its finishing time; the approval and CHECK constraints hold. |
| `QueueProofs.ExpireKeeps` | backend/src/acs/infrastructure/database/queries.py:107-133 | Expiring keeps every invariant, lets nothing succeed, makes nothing active and leaves no active operation of the CPE due. |
| `QueueProofs.ExpiresExactly` | backend/src/acs/infrastructure/database/queries.py:107-133 | Expiring ends exactly the active operations of the CPE whose deadline has come and exactly the sessions of the CPE that wait past their own deadline; every other row of every table stays. |
| `QueueProofs.FailKeeps` | backend/src/acs/infrastructure/database/queries.py:459-468 | The failure written when a profile changed meets only an active operation, pending or dispatched, and keeps every invariant. |
| `QueueProofs.DispatchKeeps` | backend/src/acs/infrastructure/database/queries.py:469-481 | Dispatching a pending operation ties it to a session that had none and keeps every invariant. |
| `AdvanceProofs.AdvanceReady` | backend/src/acs/infrastructure/database/collection_jobs.py:155-254 | Advancing a job whose operation is over accounts for exactly that operation, then launches one operation or closes the job, and keeps every invariant. |
| `AnswerProofs.RecordedKeeps` | backend/src/acs/infrastructure/database/queries.py:603-712 | Recording a reply keeps every invariant, with operation, attempt, session, job limits, catalog, values, inventory and telemetry written together. |
| `OperationProofs.ExchangeKeeps` | backend/src/acs/infrastructure/database/queries.py:406-486 | Any committed exchange leads from a state with all invariants to one with all invariants and changes no terminal operation. |
| `OperationProofs.CreateKeeps` | backend/src/acs/infrastructure/database/queries.py:135-280 | Whatever a call that creates an operation commits, whether it adds one or returns the one of the key, every invariant is kept. |
| `OperationProofs.CreateJobKeeps` | backend/src/acs/infrastructure/database/collection_jobs.py:62-147 | Creating a job and launching its first operation keeps every invariant. |
| `OperationProofs.GetJobKeeps` | backend/src/acs/infrastructure/database/queries.py:296-309 | Polling a job keeps every invariant. |
| `OperationProofs.AcceptKeeps` | backend/src/acs/infrastructure/database/inform_repository.py:89-179 | A first Inform upserts the CPE, records its inventory and opens a session without breaking any invariant. |
| `OperationProofs.CompleteKeeps` | backend/src/acs/infrastructure/database/inform_repository.py:181-196 | Ending a session that never carried a command keeps every invariant. |
| `JobProofs.LaunchKeeps` | backend/src/acs/infrastructure/database/collection_jobs.py:203-252 | The launch loop keeps everything a job and its operations promise each other, for every policy and every frontier. |
| `JobProofs.SettleKeeps` | backend/src/acs/infrastructure/database/collection_jobs.py:163-202 | Accounting for a finished operation keeps everything a job and its operations promise each other. |
| `JobProofs.AddEntriesClosed` | backend/src/acs/infrastructure/database/collection_jobs.py:178-199 | Catalogued entries become one new step per object, in order, or a depth limit; for entries as the catalog holds them the arm for an unsupported branch is not taken. |
| `JobProofs.ChildIsNew` | backend/src/acs/infrastructure/database/collection_jobs.py:191-197 | A child reported under the current path is new to the walk: it differs from every dispatched and every waiting path. |
| `Text.ParentUnique` | backend/src/acs/infrastructure/database/queries.py:581-590 | A name is a direct child of at most one object. |
| `Text.ReportedIsChild` | backend/src/acs/infrastructure/database/queries.py:581-590 | The test applied to reported names accepts only direct children, and objects among them are concrete paths, also when a name ends in several dots. |
| `FieldNames.ReportedExactly` | backend/src/acs/infrastructure/database/queries.py:581-590 | The test applied to reported names accepts exactly the names one segment below the path, perhaps with dots after it, that are concrete objects or leaves of one. |
| `FieldNames.ConcreteExactly` | backend/src/acs/domain/operations/collection.py:11-13 | A concrete object is one of the two roots followed by at most sixteen names of letters, digits, underscores and hyphens, each closed by a dot. |
| `Effects.ExactlyOnceEffects` | backend/src/acs/infrastructure/database/queries.py:603-712 | Catalog, values and telemetry change only in the step in which an exchange takes an operation from dispatched to succeeded or failed; inventory fields and the columns of a CPE only there and by an Inform; approvals only there, by an Inform, a binding or an approval; replays and refused replies write none of them. |
| `Effects.AnsweredOnce` | backend/src/acs/infrastructure/database/queries.py:603-608 | No run answers an operation a second time. |
| `Effects.NeverAsserts` | backend/src/acs/infrastructure/database/queries.py:441-507 | In a good state no exchange fails the assertion that the operation of an attempt exists. |
| `Effects.RunLasts` | backend/src/acs/infrastructure/database/queries.py:692-712 | Over any run attempts stay bound to their session and a recorded digest never changes. |
| `Effects.StepRevokes` | backend/src/acs/infrastructure/database/inform_repository.py:76-87 | Any step other than binding a different operation revokes the approval when it records a newer valid firmware that was not the expected one, lifts no revocation and keeps the binding, whatever the step is. |
| `Effects.RevokedUntilRebound` | backend/src/acs/infrastructure/database/profile_validation.py:76-87 | Over any run that binds no other operation for the CPE, a revoked approval stays revoked and bound as it was. |
| `Effects.ChangedFirmwareBlocks` | backend/src/acs/infrastructure/database/profile_validation.py:204-239 | Once a step, an Inform or a read, has recorded a newer valid firmware other than the expected one, approving and collecting are refused and the status asks for revalidation after every further run that binds no other operation for the CPE. |
| `Effects.ApprovedAsShown` | backend/src/acs/infrastructure/database/profile_validation.py:204-225 | An approval granted after any run to the operation that a status showed as validated rests on that operation, still the same successful read of the CPE, and on the reviewed firmware stored when it is granted. |
| `OpRules.RunsKeep` | backend/src/acs/infrastructure/database/queries.py:107-718 | A rule of single operations that new operations keep, and that expiring, dispatching, failing and answering keep, holds of every operation after every run. |
| `OpRules.OutcomesOfRun` | backend/src/acs/infrastructure/database/queries.py:676-712 | After any run: an active operation shows no outcome; one that failed or expired has a reason, one that succeeded none; a fault code is stored exactly when the device answered with a fault; evidence is stored exactly when it was asked for and the reply fits the request. |
| `Commands.ExchangeHands` | backend/src/acs/infrastructure/database/queries.py:437-484 | Exactly when an exchange without a reply is answered by a command, and which: the session has not ended and one operation is on offer, waiting or already in flight in it, for which the device still gets its plan; the command has the kind, path, names, profile and firmware stored with that operation and the request identifier of its attempt; dispatching it starts that attempt now, for at most a minute and not past its own deadline, and handing it out again changes nothing. Otherwise the answer is empty, and an operation whose profile no longer applies fails. |
| `Commands.ExchangeRefuses` | backend/src/acs/infrastructure/database/queries.py:432-437 | An exchange without a reply is refused exactly when its session has neither ended nor time left; one with a reply is never answered by a command. |
| `ReplyOutcomes.ReplySettles` | backend/src/acs/infrastructure/database/queries.py:488-608 | What becomes of a reply, case by case: without an attempt of its session under its identifier it is refused; to an expired operation it only ends the session; to one in flight it is recorded, unless the profile has changed, which fails the operation, its kind does not fit or evidence asked for cannot be kept; to one that is over it changes nothing and is accepted exactly when it is the recorded reply again. |
| `ReplyOutcomes.DigestTells` | backend/src/acs/infrastructure/database/queries.py:597-602 | Two replies have the same digest exactly when they are of the same kind, faults with the same code, and were judged to have the same reason and the same items. |
| `ReplyOutcomes.OnlySameValues` | backend/src/acs/infrastructure/database/queries.py:597-608 | A selected read that succeeded accepts again only a reply with the very same values. |
| `ReplyOutcomes.ReadsShow` | backend/src/acs/infrastructure/database/queries.py:296-384 | Reading an operation or a job shows its row as the step leaves it, exactly when the CPE is known and the row is its own. |
| `Origins.AnswerLeaves` | backend/src/acs/infrastructure/database/queries.py:672-713 | A recorded reply leaves its operation with the reason and the items of the verdict, the finishing time, the device’s fault code exactly when it answered with a fault, and evidence exactly when it was asked for and the reply fits; its attempt gets the digest and its session ends. |
| `Origins.AnswerCatalogs` | backend/src/acs/infrastructure/database/queries.py:609-643 | After a recorded names reply that succeeded the catalog holds, for each name within the budget, what was reported, unless a newer row stood there; after any other reply it is as it was. |
| `Origins.TruncatesExactly` | backend/src/acs/infrastructure/database/queries.py:609-616 | All names are catalogued, unless a running job waits for this operation and has less left of its entry budget; then exactly as many as are left, the first in name order, and the job notes the limit. |
| `StoredValues.ValuesExactly` | backend/src/acs/infrastructure/database/queries.py:644-671 | Upserting the values of distinct parameters one after the other leaves each row with the value and the type of its own parameter, the time and the operation, unless a newer row stood there, and every other row as it was. |
| `Origins.RowsOfRun` | backend/src/acs/infrastructure/database/queries.py:609-671 | After any run, every catalog row holds what the reply recorded by its operation reported of that name, and every value row the value and the type that the reply of its operation reported under that name. |
| `Acceptance.AcceptsRequest` | backend/src/acs/infrastructure/database/queries.py:149-249 | A request under a new key is accepted exactly when the selection is well formed, the CPE is known, no job of it runs and no operation is active past expiry, the kind agrees with the scope, every name of a measured selection was discovered, and the policy has a plan that asks for those names; otherwise the first of these that fails names the conflict. |
| `Acceptance.AcceptedAsks` | backend/src/acs/infrastructure/database/queries.py:250-276 | An accepted request adds one pending operation with a deadline ten minutes ahead that asks the kind, scope, path and names requested, or for a measured scope names that were discovered, under the plan’s profile; apart from the expiry nothing else changes. |
| `Acceptance.HuaweiPlans` | backend/src/acs/cwmp/compatibility/queries.py:116-149 | Under the Huawei policy there is such a plan exactly when the device is one of the reviewed ones and the scope allows the path and the names. |
| `Acceptance.AcceptedPlanned` | backend/src/acs/cwmp/compatibility/queries.py:116-149 | Under the Huawei policy the stored request of an accepted operation gives its plan again for the same device, so it can be handed out. |
| `Acceptance.AcceptsJob` | backend/src/acs/infrastructure/database/collection_jobs.py:73-123 | A job under a new key is accepted exactly when the CPE is known, the specification is within its limits, nothing of the CPE is under way, all names of a selection are catalogued leaves of this CPE and the policy plans for the root or the names; otherwise the first of these that fails names the conflict. |
| `Acceptance.AcceptedJob` | backend/src/acs/infrastructure/database/collection_jobs.py:73-147 | The new job has the specification given with its names ascending, and of a selection no name that was not a catalogued leaf; a discovery has launched one operation, which reads the names below its root. |
| `Acceptance.LaunchAsks` | backend/src/acs/infrastructure/database/collection_jobs.py:203-252 | What a job launches is a new operation for a waiting step, without evidence, asking for its path and for its names as far as the entry budget goes, under a profile that its stored request gives again for the same device. |
| `Discoveries.GatherNames` | backend/src/acs/infrastructure/database/queries.py:208-235 | The loop over the recent discoveries with its set of visited paths gathers exactly the names below the path in the results of those that come first of their path. |
| `Discoveries.GatheredOffers` | backend/src/acs/infrastructure/database/queries.py:208-235 | Over the latest 256 discoveries of the CPE under its firmware within a day that is what discovery offers: the results of the newest of each path. |
| `Discoveries.MeasuredWasReported` | backend/src/acs/infrastructure/database/queries.py:203-249 | Over any run, an accepted measured read asks only for names below its path that the device itself reported in a discovery that succeeded under its present firmware within the last day. |
| `Replay.ReplayAccepted` | backend/src/acs/infrastructure/database/queries.py:597-608 | A reply sent again after it was recorded is accepted and records nothing, after any further steps, in any order of its entries, at any time, and even when the reply itself changed the firmware. |
| `Replay.DigestStable` | backend/src/acs/infrastructure/database/queries.py:597-602 | The digest of a reply depends only on its set of entries and the core of the plan, not on their order, on time, or on whether the plan is made again or restored. |
| `StoredPlans.PlansRestore` | backend/src/acs/infrastructure/database/queries.py:515-529 | Under a policy that makes plans again from their own names and restores what it plans, the plan of every operation of a reachable state can be restored from its row. |
| `StoredPlans.HuaweiPlansRestore` | backend/src/acs/infrastructure/database/queries.py:520-529 | Under the Huawei policy, whatever run came before, no reply is refused because the plan of its operation cannot be restored. |
| `Progress.PollsEndJob` | backend/src/acs/infrastructure/database/collection_jobs.py:155-254 | From any good state, overdue polls as many as the job may still launch end it, even if the CPE never answers. |
| `Progress.PollCounts` | backend/src/acs/infrastructure/database/queries.py:296-309 | One poll of a running job past its current deadline accounts for exactly one more operation. |
| `WalkResults.WalkFindsExactly` | backend/src/acs/infrastructure/database/collection_jobs.py:178-199 | Over every run, whatever the step times: each operation of a discovery job that succeeded got a reply, and an object named in one of these replies was dispatched in turn if and only if the catalog held no row for it from a later time when the reply was recorded. |
| `WalkResults.EntryCountExactly` | backend/src/acs/infrastructure/database/collection_jobs.py:169-202 | Over every run: the entry count of a discovery job that succeeded is the number of names that the replies to its operations brought into the catalog, and it is the number of names in those replies if and only if none had a row from a later time. |
| `WalkResults.WalkFindsEverything` | backend/src/acs/infrastructure/database/collection_jobs.py:178-199 | When step times never decrease, a discovery job that succeeded dispatched every object that any reply to its operations named. |
| `WalkResults.EntryCountIsTotal` | backend/src/acs/infrastructure/database/collection_jobs.py:169-202 | When step times never decrease, the entry count of a discovery job that succeeded is the total number of names in the replies to its operations. |
| `WalkResults.LogOrigin` | backend/src/acs/infrastructure/database/queries.py:618-643 | Every receipt in the log is that of the one step in which its operation succeeded: the reply of that step, and those of its names whose catalog row was from a later time than the step. |
| `OvertakenWalk.WalkMissesChild` | backend/src/acs/infrastructure/database/queries.py:618-643 | A run of eight possible steps after which a discovery job has succeeded although it neither dispatched nor counted the object in its own result, because an earlier operation catalogued that object at a later time. |
| `OvertakenWalk.HuaweiMissesChild` | backend/src/acs/infrastructure/database/queries.py:618-643 | The same under the Huawei policy. |
| `WalkCompleteness.FoundGrows` | backend/src/acs/infrastructure/database/collection_jobs.py:178-199 | Accounting for one more reply keeps the equivalence of being reached and not being overtaken for all earlier replies, because a name has one parent. |
| `WalkCompleteness.EntriesAwaited` | backend/src/acs/infrastructure/database/collection_jobs.py:169-199 | The objects put on the frontier for an operation are exactly those whose catalog rows cite it. |
| `WalkResults.ReportedObjectsKept` | backend/src/acs/cwmp/compatibility/queries.py:161-173 | No object reported in a discovery reply is lost from the operation’s result. |
| `Idempotency.CreateIsIdempotent` | backend/src/acs/infrastructure/database/queries.py:160-194 | Once a request has been accepted, the same request under the same key returns the same operation after any further run, whatever was discovered or changed since, and only expires what is overdue. |
| `Idempotency.OtherRequestRefused` | backend/src/acs/infrastructure/database/queries.py:172-194 | A request under a used key that differs in kind, scope, path, capture or names is refused. |
| `Idempotency.CreateJobIsIdempotent` | backend/src/acs/infrastructure/database/collection_jobs.py:83-92 | Once a job has been accepted, the same specification under the same key returns the same job after any further run. |
| `Idempotency.RunStays` | backend/src/acs/infrastructure/database/collection_jobs.py:155-254 | Over any run every job keeps its CPE, its key and its specification. |
| `Idempotency.CommandRepeats` | backend/src/acs/infrastructure/database/queries.py:406-484 | A session that polls again before its deadline gets the very same command under the same request identifier, and nothing changes: nothing expires and no job advances. |
| `ReplyLog.CatalogExactly` | backend/src/acs/infrastructure/database/queries.py:618-643 | Upserting a reply’s distinct names one after the other leaves exactly the new row for each name, unless a newer row stood there, and every other row as it was. |
| `ReplyLog.CitedExactly` | backend/src/acs/infrastructure/database/queries.py:618-643 | The rows that cite an operation afterwards are exactly those of its reply’s names that no newer row overtook. |
| `Registers.InventoryRefinesHistory` | backend/src/acs/infrastructure/database/inform_repository.py:41-75 | After any sequence of inventories a field row holds the first-arrived newest observation, and the column with its provenance the last valid one among those that broke the time record. |
| `Registers.InventoryExactly` | backend/src/acs/infrastructure/database/inform_repository.py:41-87 | One inventory writes model, firmware and hardware each from its own observation when that is valid and newer, and nothing else of the CPE; a newer valid firmware that differs from the expected one revokes the approval and forgets who approved it; no other CPE or approval changes. |
| `ObservedRuns.InventoryOfRun` | backend/src/acs/infrastructure/database/inform_repository.py:41-75 | After any run, the row and the column of every inventory field of every CPE are those of the explained register of what its Informs and its recorded reads reported, in the order of the run. |
| `Registers.InOrderNewestValid` | backend/src/acs/infrastructure/database/inform_repository.py:54-76 | When no observation arrives with an earlier time than the one before, equal times included, the register holds the first of the newest and the last valid one that was newer than its predecessor. |
| `ArrivalOrder.ColumnOrderFree` | backend/src/acs/infrastructure/database/inform_repository.py:41-76 | For a CPE without the field: every order in which a batch of inventories may arrive leaves the same column if and only if all its newest reports of the field are valid and agree, or none of its reports is valid. |
| `ArrivalOrder.ArrivalOrderFree` | backend/src/acs/infrastructure/database/inform_repository.py:54-76 | Every order of a history leaves the same register if and only if it is empty or has one newest sample, which is valid unless no sample is. |
| `ArrivalOrder.EarlierValueLost` | backend/src/acs/infrastructure/database/inform_repository.py:54-76 | A valid report and a later one that is not: the column keeps the value when they arrive in order and never gets it when they do not. |
| `ArrivalOrder.ColumnDependsOnArrival` | backend/src/acs/infrastructure/database/inform_repository.py:54-76 | Two inventories, a valid firmware of time 1 and an empty one of time 2, whose two orders leave different columns. |
| `Registers.UpdateKeepsFieldsChecked` | backend/src/acs/infrastructure/database/cwmp_models.py:46-75 | Every inventory row satisfies the CHECK constraints after any inventory. |
| `Registers.TelemetryRefinesHistory` | backend/src/acs/infrastructure/database/telemetry.py:24-70 | After any sequence of collections a telemetry row holds the first-arrived newest observation and the last valid value with its provenance. |
| `ObservedRuns.TelemetryOfRun` | backend/src/acs/infrastructure/database/telemetry.py:24-70 | After any run, the row of every telemetry field under every path is that of the explained register of what the recorded reads of the CPE reported. |
| `ObservedRuns.AnswerStores` | backend/src/acs/infrastructure/database/queries.py:488-712 | A reply is recorded exactly when its operation is in flight, its plan still applies and evidence asked for can be kept; then the store is updated by the verdict alone, each kept value’s row holds that value and its type, time and operation unless it was newer, and every other value row is as it was. |
| `Registers.ObservationsKeepChecks` | backend/src/acs/infrastructure/database/telemetry_models.py:16-35 | Telemetry rows satisfy the CHECK constraints after any collection that satisfies what collections promise. |
| `Registers.UpdateKeepsApprovalSafe` | backend/src/acs/infrastructure/database/inform_repository.py:77-87 | An inventory keeps an approval only while the reviewed firmware is both expected and stored. |
| `Identities.AcceptOpens` | backend/src/acs/infrastructure/database/inform_repository.py:121-179 | A first Inform opens a session, under a token not used before, for the row with the identity of its device, added if there is none; the row takes over the manufacturer and the inventory is recorded for it; nothing else changes. |
| `Identities.OneRowEach` | backend/src/acs/infrastructure/database/inform_repository.py:121-150 | In every reachable state no two CPE rows have the same identity. |
| `Identities.IdentitiesOfRun` | backend/src/acs/infrastructure/database/inform_repository.py:121-150 | Over any run every CPE row stays, under the identity it had. |
| `Validation.ApprovedIsGrounded` | backend/src/acs/infrastructure/database/profile_validation.py:119-201 | A status of approved or validated rests on manufacturer, product class, model and firmware stored now being the reviewed ones, and on the reviewed firmware and a clean hardware value that a successful values read of this very CPE, the bound one, asked for and left as strings. |
| `Origins.ApprovedAsReported` | backend/src/acs/infrastructure/database/profile_validation.py:91-201 | After any run a status of approved or validated rests on one reply: the one recorded by the bound operation, a read of this CPE, in the one step in which it succeeded, in which the device reported the reviewed firmware and a clean hardware version, both as strings. |
| `ApprovalLapse.LostToReads` | backend/src/acs/infrastructure/database/profile_validation.py:109-122 | Over any run a value of the bound operation is lost only to another read of the CPE that asked for it and succeeded in the run, not before the bound one did, and to every such read that names it. |
| `ApprovalLapse.RunValues` | backend/src/acs/infrastructure/database/profile_validation.py:109-122 | Over any run a value that the bound operation has lost to another read stays lost. |
| `ApprovalLapse.ReadEndsApproval` | backend/src/acs/infrastructure/database/profile_validation.py:109-201 | A successful read of the firmware or the hardware that finishes no earlier ends an effective approval: after any run in which there was one the status is neither approved nor validated and collecting is refused, as long as the binding stays. |
| `ApprovalLapse.CollectsExactly` | backend/src/acs/infrastructure/database/profile_validation.py:227-239 | Collecting is refused for want of approval exactly when the status, read first, is not an approved one; what it starts is a values read of the two reviewed names, for a CPE whose granted approval, expectation and firmware stand. |
| `ApprovalLapse.CollectingEndsApproval` | backend/src/acs/infrastructure/database/profile_validation.py:227-239 | Collecting ends the approval that allowed it, once the read it started has succeeded, not before the approved operation did. |
| `Validation.StatusExplained` | backend/src/acs/infrastructure/database/profile_validation.py:119-201 | The three listed fields explain the state: needing revalidation exactly when identity, firmware or expectation fall; approved or validated exactly when all three are valid, approved exactly when it was granted as well; validating exactly while the values are awaited; an operation that failed or expired shows its reason in both values. The model is valid exactly when manufacturer, product class and model are the reviewed ones. |
| `Validation.FieldsExplained` | backend/src/acs/infrastructure/database/profile_validation.py:129-175 | A listed value is valid exactly when the bound operation is over and left it as a clean string and, for the firmware, it is the reviewed one up to surrounding white space; a firmware read cleanly that differs is a mismatch and nothing else is; a value is pending only while the operation is active or has succeeded. |
| `Verdicts.SelectedRead` | backend/src/acs/infrastructure/database/queries.py:560-565 | Reading selected names succeeds exactly when the reply names them all and no others and every value is clean text; the result then is those values, one item a name, ascending. |
| `Verdicts.TelemetryRead` | backend/src/acs/infrastructure/database/queries.py:535-559 | A telemetry read is judged parameter by parameter: unexpected names, then not Internet over PPPoE, then invalid if any parameter is, then unverified if any power is, else success; joining addresses neither hides nor invents an invalid one. |
| `ReadResults.TelemetryItems` | backend/src/acs/cwmp/compatibility/huawei_telemetry.py:255-286 | A telemetry read that is judged by its values is recorded with its collection and has one item a parameter, ascending, that of the parameter’s own reading; a refused one has neither. |
| `ReadResults.InventoryRead` | backend/src/acs/infrastructure/database/queries.py:569-579 | The default read succeeds exactly when the reply names the three fields and no others, every value is a string and each is clear text; once it names them as strings there is one item a name, its text or nothing, and the inventory observes each field from the parameter of that field’s own name, valid or not. |
| `ReadResults.ProfileNoted` | backend/src/acs/cwmp/compatibility/queries.py:175-193 | The inventory of a read is that of the reviewed profile exactly while the reply shows the firmware of the plan and, if it shows a model, the product class; else that of the generic profile. |
| `ReadResults.NamesRead` | backend/src/acs/infrastructure/database/queries.py:580-597 | A names read succeeds exactly when every name is reported under the path; its items are, in ascending order, the names that are objects or of a known kind, with what was reported of each. |
| `ReadResults.OtherReplies` | backend/src/acs/infrastructure/database/queries.py:534-538 | A reply of another kind than asked is not judged, and a fault fails the operation and leaves nothing. |
| `Huawei.HuaweiMeetsContract` | backend/src/acs/cwmp/compatibility/queries.py:75-193 | The Huawei policy meets everything that the queue’s theorems assume of a policy. |
| `Huawei.HuaweiIsStable` | backend/src/acs/cwmp/compatibility/queries.py:103-149 | Plans made again or restored agree, and judgements do not depend on the order of entries, so the replay theorem applies to this policy. |
| `Huawei.PlanFitsRequest` | backend/src/acs/cwmp/compatibility/queries.py:116-149 | A plan names the device, scope and path it was asked for; its names are the requested ones or the three defaults, none for discovery, or an ascending selection of one to sixteen available fields. |
| `Huawei.RestoresPlan` | backend/src/acs/cwmp/compatibility/queries.py:103-114 | Every plan can be restored from its stored profile with the same profile, names, path and scope. |
| `Huawei.RestoresOnly` | backend/src/acs/cwmp/compatibility/queries.py:103-114 | A plan is restored exactly when some device of the stored profile and version would get one, and then under that profile and version. |
| `Huawei.PlanIdempotent` | backend/src/acs/cwmp/compatibility/queries.py:116-149 | A plan asked for again with its own names is the same plan. |
| `Huawei.SelectionExact` | backend/src/acs/cwmp/compatibility/huawei_telemetry.py:66-81 | The selected names are exactly the available fields under the path, ascending, and they exist if and only if the path fits, there are one to sixteen, and a WAN comes with the two names that classify it. |
| `Huawei.SelectionIdempotent` | backend/src/acs/cwmp/compatibility/huawei_telemetry.py:66-81 | Selecting again among the selected names changes nothing. |
| `Huawei.ValidTextExactly` | backend/src/acs/cwmp/compatibility/generic.py:29-57 | A basic inventory field is valid with a value exactly when it is reported, every report of it is clean, and all reports say that value. |
| `ReadResults.FieldExactly` | backend/src/acs/cwmp/compatibility/generic.py:29-57 | What an inventory field is observed as, valid or not: nothing without a report; else the first report that is not clear text, that of the newer path before that of the older, names the source and why; else a conflict without a source when the two differ; else the text of the first. |
| `Huawei.TextOrderFree` | backend/src/acs/cwmp/compatibility/generic.py:35-39 | An inventory field does not depend on the order of the parameters. |
| `Huawei.ReadText` | backend/src/acs/cwmp/compatibility/generic.py:29-57 | The loop over the sorted candidates with its set of values computes that field. |
| `Telemetry.CollectedClosed` | backend/src/acs/cwmp/compatibility/huawei_telemetry.py:184-232 | After any prefix of a reply with distinct names the folded field is its closed form: for IPv6, invalid if any source is, else the sorted union of the addresses, with the sorted sources. |
| `Telemetry.JoinFacts` | backend/src/acs/cwmp/compatibility/huawei_telemetry.py:196-230 | The closed form lists all sources ascending, is invalid exactly when one source is, and otherwise holds exactly the union of their addresses. |
| `TelemetryProofs.CollectFields` | backend/src/acs/cwmp/compatibility/huawei_telemetry.py:184-232 | The loop over the parameters is refused exactly when one is not a field, as FieldNames says, and otherwise gives every field its closed form. |
| `TelemetryProofs.CollectOrderFree` | backend/src/acs/cwmp/compatibility/huawei_telemetry.py:184-252 | Two orderings of a reply are refused together and otherwise give every field the same observation. |
| `TelemetryProofs.CollectionChecks` | backend/src/acs/infrastructure/database/telemetry_models.py:16-35 | Every field of a collection that answers a plan satisfies the table’s CHECK constraints, with one to sixteen sources. |
| `TelemetryProofs.OpticalState` | backend/src/acs/cwmp/compatibility/huawei_telemetry.py:255-269 | The state an optical result item shows is that of its own reading, although it is looked up through the list of fields. |
| `TelemetryProofs.ResultsOrderFree` | backend/src/acs/cwmp/compatibility/huawei_telemetry.py:255-286 | The result items of two orderings of a reply are the same set. |
| `Telemetry.OneSource` | backend/src/acs/cwmp/compatibility/huawei_telemetry.py:49-63 | Two names that are the same field under a path are the same name, except for the addresses of IPv6. |
| `FieldNames.FieldNamesExactly` | backend/src/acs/cwmp/compatibility/huawei_telemetry.py:49-63 | Under a path a name is a field exactly when it is that field’s own name: the two powers under an optical path, the six named fields and the numbered addresses under a WAN path. |
| `FieldNames.WanPathExactly` | backend/src/acs/cwmp/compatibility/huawei_telemetry.py:30-32 | A WAN path is that of a PPP connection with three numbers of 1 to 9999 without leading zeros. |
| `FieldNames.OpticalPathExactly` | backend/src/acs/cwmp/compatibility/huawei_telemetry.py:33-35 | An optical path is that of a WAN device with such a number. |
| `Readings.PowerRead` | backend/src/acs/cwmp/compatibility/huawei_telemetry.py:97-118 | A power is valid, as that many dBm, exactly when it is an xsd:int under a reviewed profile whose text denotes, with sign and leading zeros and in at most ten digits, an integer of -80 to 20. |
| `Readings.PowerFails` | backend/src/acs/cwmp/compatibility/huawei_telemetry.py:97-117 | A power that is not valid is not a number of a numeric type, or a number whose unit is not known, because the profile is not reviewed or it is not typed as a whole number, or a whole number out of range; each reason is given in exactly its case. |
| `Readings.EmptyRead` | backend/src/acs/cwmp/compatibility/huawei_telemetry.py:84-93 | A value is unavailable exactly when it is blank, or is the zero address of its version. |
| `Readings.TextFails` | backend/src/acs/cwmp/compatibility/huawei_telemetry.py:119-181 | Any other value that is not valid is given the reason of its kind, after the check of type and length. |
| `Readings.AddressRead` | backend/src/acs/cwmp/compatibility/huawei_telemetry.py:121-132 | An address field is valid exactly when its text is one address of its version without a zone, neither unspecified nor multicast; it is read as its canonical text. |
| `Readings.ServersRead` | backend/src/acs/cwmp/compatibility/huawei_telemetry.py:133-141 | A list of servers is valid exactly when it is at most eight usable addresses between commas without a zone; it is read as each address once, in the order in which they are first given. |
| `Readings.MacRead` | backend/src/acs/cwmp/compatibility/huawei_telemetry.py:142-151 | A MAC address is valid exactly when it is six pairs of hexadecimal digits between colons or hyphens, of a single device and not all zeros; it is read in lower case between colons. |
| `Readings.WordRead` | backend/src/acs/cwmp/compatibility/huawei_telemetry.py:152-179 | A connection status is valid exactly when it is one of seven words and a transport when it is PPPoE. |
| `Readings.ServicesRead` | backend/src/acs/cwmp/compatibility/huawei_telemetry.py:152-179 | A list of services is read as the words whose join it is, exactly when all are from the fixed list; one profile’s combined word counts as two. |
| `Readings.ServicesListed` | backend/src/acs/cwmp/compatibility/huawei_telemetry.py:165-178 | A valid list of services holds at least one word, all from that list. |
| `Measurements.FieldsExactly` | backend/src/acs/infrastructure/database/telemetry.py:24-70 | Recording a collection leaves each of its fields’ rows showing that field, a value only if it is valid, unless a row as new stood there, and every other row as it was. |
| `Measurements.RecordedRead` | backend/src/acs/infrastructure/database/queries.py:541-549 | After a recorded read of a WAN or of the optics, the row of every field that the reply names shows what its parameter of that name is observed as, or for the address list the join of all of them, unless a row as new stood there; every other telemetry row is as it was. |
| `Measurements.PowerStored` | backend/src/acs/cwmp/compatibility/huawei_telemetry.py:97-118 | A power of -80 to 20 that a recorded read reports as RXPower or TXPower is stored, under that very name, as the integer its text denotes. |
| `Measurements.MeasureOfRun` | backend/src/acs/infrastructure/database/telemetry.py:24-70 | After any run, the state and the value of every telemetry row are each what some recorded reply of that CPE said of that field, at the time that the row gives for it. |
| `Measurements.PowerOfRun` | backend/src/acs/infrastructure/database/telemetry.py:24-70 | After any run, every stored power is one that the device reported under that power’s own name as a number of -80 to 20 dBm. |
| `Xml.ValueTypes` | backend/src/acs/cwmp/soap/queries.py:54-81 | The scope-stack loop over the event stream of any tree returns exactly the preorder list of types resolved recursively, each in the scope of its own element, and never pops an empty stack. |
| `Xml.RunTree` | backend/src/acs/cwmp/soap/queries.py:66-81 | Over the events of a tree the loop leaves its stack as it found it and appends the types of that tree. |
| `Xml.Shallow` | backend/src/acs/cwmp/soap/inform.py:85-90 | The worklist accepts a document exactly when its height is within the limit. |
| `Soap.AcceptedIsValid` | backend/src/acs/cwmp/soap/queries.py:84-165 | Every accepted reply has a request identifier of 1 to 256 characters, distinct names, bounded counts and lengths, values that fit their types, and fault codes from 9000 to 9999. |
| `Grammar.AcceptedExactly` | backend/src/acs/cwmp/soap/queries.py:84-165 | A document is accepted as a reply exactly when its tree says that reply: an envelope within 32 levels with one identifier and no other demand, and in its body a fault with its code, a list of names, or a list of values each of which fits the type that its own scope resolves, with declared counts, limits and distinct names as required. |
| `Grammar.UnsupportedExactly` | backend/src/acs/cwmp/soap/queries.py:84-107 | A document is answered as an unsupported method exactly when its envelope is good and its body is another element of the protocol. |
| `Soap.TypesBelong` | backend/src/acs/cwmp/soap/queries.py:108-149 | When a values reply is accepted, the type at each position of the document’s type list is the type of the value at that position, resolved in that value’s own scope. |
| `Soap.ReadParameters` | backend/src/acs/cwmp/soap/queries.py:113-149 | The loop with its set of seen names accepts the items exactly when each is well formed and no name repeats. |
| `Soap.ParametersExactly` | backend/src/acs/cwmp/soap/queries.py:113-149 | Parameters are accepted exactly when every item is well formed and names are distinct, and each is then its own item’s. |
| `Soap.InfosExactly` | backend/src/acs/cwmp/soap/queries.py:152-162 | The same for the items of a names reply. |
| `Soap.PairChildren` | backend/src/acs/cwmp/soap/inform.py:35-51 | An element whose fields are as listed has exactly one child of each name. |
| `SoapPrinter.RoundTrip` | backend/src/acs/cwmp/compatibility/query_evidence.py:89-129 | Printing any reply the parser may accept, resolving its prefixes and parsing it gives the same kind, fault code, names, values and types, sorted by name. |
| `SoapPrinter.ListParses` | backend/src/acs/cwmp/soap/inform.py:64-73 | The printed array with its declared count is read back as the same items. |
| `SoapPrinter.EnvelopeParses` | backend/src/acs/cwmp/soap/inform.py:76-110 | A printed envelope is read back as its identifier and its one body element. |
| `Requests.RequestAsks` | backend/src/acs/cwmp/soap/queries.py:32-51 | The document printed for a command is an envelope with its identifier that asks for exactly what the plan says: the next level of its path, or the values of its names in their order. |
| `Requests.AsksOnce` | backend/src/acs/cwmp/soap/queries.py:32-51 | A request asks for one thing only. |
| `Relabel.AssignProper` | backend/src/acs/cwmp/compatibility/query_evidence.py:145-157 | Equal addresses get equal pseudonyms and different ones different pseudonyms, numbered per version. |
| `Relabel.RelabelledAgain` | backend/src/acs/cwmp/compatibility/query_evidence.py:145-157 | Relabelling a relabelled list changes nothing: numbering by first occurrence is a fixed point. |
| `Evidence.BuildEvidence` | backend/src/acs/cwmp/compatibility/query_evidence.py:132-216 | The loop over the sorted parameters builds the bundle that Disclosure describes. |
| `Evidence.ProjectedAgain` | backend/src/acs/cwmp/compatibility/query_evidence.py:159-192 | Projecting what was projected keeps the same parameters with the same values and marks the same ones as substituted. |
| `EvidenceProofs.EvidenceFixedPoint` | backend/src/acs/cwmp/compatibility/query_evidence.py:228-294 | For every reply that the protocol packages, evidence is built, and verifying it, by remaking the plan, parsing the kept reply and rebuilding, gives the very same bundle. |
| `Disclosure.BundleShows` | backend/src/acs/cwmp/compatibility/query_evidence.py:156-192 | The bundle of a values reply keeps exactly the parameters that may be shown, each as it was, except that a valid MAC address is replaced by 02:00:00:00:00:01 and every part of a valid address field by a documentation address of its version; it lists in ascending order exactly the names of the parameters replaced. |
| `Disclosure.ManifestSays` | backend/src/acs/cwmp/compatibility/query_evidence.py:189-213 | The manifest of a bundle says of which device, what was asked, when it came and with how many entries, and lists in ascending order the names that are not kept; of a names reply exactly the approved names are kept, of a fault the fault. |
| `Disclosure.VerifiesExactly` | backend/src/acs/cwmp/compatibility/query_evidence.py:228-294 | A bundle verifies exactly when its response is a document that says a reply, that reply fits the manifest in kind, path and counts, and building from the two gives the bundle. |
| `Disclosure.VerifiedIsHarmless` | backend/src/acs/cwmp/compatibility/query_evidence.py:228-294 | No bundle that verifies shows an address of a WAN field other than documentation’s, whoever made it. |
| `StoredEvidence.EvidenceHarmless` | backend/src/acs/infrastructure/database/queries.py:708-711 | So over all runs no evidence in the database shows one. |
| `EvidenceProofs.PseudonymsFaithful` | backend/src/acs/cwmp/compatibility/query_evidence.py:140-192 | Across all parameters of a reply and both versions, two addresses have the same pseudonym exactly when they are the same address. |
| `StoredEvidence.EvidenceVerifies` | backend/src/acs/infrastructure/database/queries.py:704-711 | Over all runs of the queue under the Huawei policy, every evidence text that an operation holds is the text of a bundle that verifies. |
| `Repository.QueryRepository.ExpireDue` | backend/src/acs/infrastructure/database/queries.py:107-133 | The row-by-row loop does exactly the specified expiry. |
| `Repository.QueryRepository.CreateOperation` | backend/src/acs/infrastructure/database/queries.py:135-280 | Creates or returns an operation exactly as the specification does, which Acceptance and Idempotency describe, and leaves every table as it was when it raises. |
| `Repository.QueryRepository.GetOperation` | backend/src/acs/infrastructure/database/queries.py:372-384 | Returns an operation after expiring what is overdue, and leaves every table as it was when it raises. |
| `Repository.QueryRepository.CreateCollection` | backend/src/acs/infrastructure/database/queries.py:282-294 | Creates or returns a job and launches its first operation exactly as specified, or changes nothing. |
| `Repository.QueryRepository.GetCollection` | backend/src/acs/infrastructure/database/queries.py:296-309 | Advances and returns a job exactly as specified, or changes nothing. |
| `Repository.QueryRepository.ExchangeWith` | backend/src/acs/infrastructure/database/queries.py:406-486 | One exchange does exactly what the specification does, which Commands and ReplyOutcomes describe, and when it raises all effects of expiry and of the job’s advance in the same transaction are undone. |
| `Repository.QueryRepository.PollSteps` | backend/src/acs/infrastructure/database/queries.py:437-484 | The exchange without a reply dispatches, repeats or fails a command, or ends the session, exactly as the specification that Commands describes. |
| `Repository.QueryRepository.AnswerSteps` | backend/src/acs/infrastructure/database/queries.py:488-533 | The exchange with a reply finds its attempt, plan and verdict exactly as specified. |
| `Repository.QueryRepository.AnswerJudgedSteps` | backend/src/acs/infrastructure/database/queries.py:603-718 | A judged reply is a replay, a refusal, or the one answer recorded, exactly as specified; no CPE changes its identity. |
| `Repository.QueryRepository.Record` | backend/src/acs/infrastructure/database/queries.py:609-712 | All tables a reply writes end up as specified. |
| `Repository.QueryRepository.AdvanceJob` | backend/src/acs/infrastructure/database/collection_jobs.py:155-254 | Accounts for a finished operation and launches the next exactly as specified. |
| `Repository.LaunchNext` | backend/src/acs/infrastructure/database/collection_jobs.py:203-252 | The loop over the frontier stops, skips refused steps and launches exactly as specified. |
| `Repository.Enqueue` | backend/src/acs/infrastructure/database/collection_jobs.py:178-199 | The loop over the catalogued entries extends the frontier exactly as specified. |
| `Repository.QueryRepository.WriteNames` | backend/src/acs/infrastructure/database/queries.py:609-643 | Names are catalogued within the running job’s entry budget, cut in name order with the limit noted. |
| `Repository.QueryRepository.StoreValues` | backend/src/acs/infrastructure/database/queries.py:644-669 | The loop of value upserts leaves each parameter’s row with its own value and type, the time and the operation, unless a newer row stood there, and every other row as it was. |
| `Repository.QueryRepository.WriteInventory` | backend/src/acs/infrastructure/database/inform_repository.py:41-87 | The loop over the three fields, the column update and the revocation do what one simultaneous update from the state before does. |
| `Repository.AllWritten` | backend/src/acs/infrastructure/database/inform_repository.py:48-76 | Writing the fields one after the other is writing them all from the rows before. |
| `Repository.QueryRepository.WriteTelemetryFields` | backend/src/acs/infrastructure/database/telemetry.py:24-70 | The loop over the observations gives the specified rows. |
| `Repository.QueryRepository.AcceptInform` | backend/src/acs/infrastructure/database/inform_repository.py:121-179 | Upserts the CPE by identity, records its inventory and opens the session exactly as specified; identities stay unique. |
| `Repository.QueryRepository.CompleteSession` | backend/src/acs/domain/events/session.py:26-28 | Ends a session exactly when it still awaits the empty request and has not expired, changes no other session and keeps its CPE and deadline. |
| `Repository.QueryRepository.BindProfile` | backend/src/acs/infrastructure/database/profile_validation.py:67-87 | Succeeds exactly when CPE and operation exist; the operation already bound changes nothing, another one starts a new unapproved binding, and no other CPE’s approval changes. |
| `Repository.QueryRepository.ApproveProfile` | backend/src/acs/infrastructure/database/profile_validation.py:207-225 | The approving transaction: it commits exactly when the CPE matches, the reviewed firmware is expected and the binding is the one that was shown; the first approver and time stay; no other approval changes. |
| `Repository.QueryRepository.Rollback` | backend/src/acs/infrastructure/database/database.py:38-46 | A failed unit of work restores every table. |
| `Queue.SortedSpecValid` | backend/src/acs/domain/operations/collection.py:26-52 | Sorting the names of a valid job specification keeps it valid. |

## Left out

- Byte-level XML: escaping, encodings, size limits and external entities; trees only. Text that a byte round trip alters, such as a
  carriage return, is therefore outside `SoapPrinter.RoundTrip` and `EvidenceProofs.EvidenceFixedPoint`.
- JSON, SHA-256 and the one-mebibyte limit of evidence: the text of a bundle is a function parameter that may refuse, and artifacts are
  compared as trees.
- The query in `create` that gathers recently discovered names: `Discoveries` says what it gives, but creating takes its result as a
  parameter, so every result, in every order in which a set may be listed, is covered.
- White space outside Latin-1 in `Text.Strip`, and Unicode decimal digits, which the code’s regular expressions exclude as well.
- Private observations, actors, request sources, first and last seen times, event lists and other columns that are only written.
- The Inform parser, the SOAP fault and InformResponse writers, and an Inform that continues a session: they change none of the modelled tables.
- Profile validation runs several transactions per call; the model has its last ones, binding and approving, as steps that anything may precede.
- Catalog, export, telemetry and inventory views, routes, command line, migrations, authentication and logging: reads or plumbing.
- Column widths, database locks and isolation, and failures of the database itself.
- Acceptance.AcceptsRequest: names every conflict that the policy raises for want of a plan by one code; `Acceptance.HuaweiPlans` says when there is
  one. `Acceptance.AcceptsJob` does the same.
- Huawei.HuaweiMeetsContract: leaves the evidence text arbitrary, because the queue relies on nothing about it; `StoredEvidence.EvidenceVerifies` says what it is.
- Evidence.BuildEvidence: does not model the limit on the size of the written bundle, which is the refusal of the text parameter in `StoredEvidence`.
