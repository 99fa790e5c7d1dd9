# Verified model of the Chaop control plane

Chaop's Worker leases commands to connectors, records what they report and accounts for it; each
connector keeps a local app-server process alive; the browser rebuilds what it shows from snapshots and a
flat list of events. This project models the parts of it with the hardest invariants and proves them for
every run.

| File | What it models |
|---|---|
| `HostSessions.dfy` | the table of host sessions and the three queries that find the session attached to a command |
| `Commands.dfy` | every SQL statement on commands as an atomic step over the tables; what all interleavings of the steps keep |
| `CommandColumns.dfy` | what the guards of these statements mean, said once more by columns |
| `CommandStore.dfy` | the store's functions on commands (create, lease, release, detach, fail, clean up, record an event) as methods over those statements |
| `ActiveCommands.dfy` | the Durable Object's list of active commands on each agent socket |
| `TurnInteraction.dfy` | answering one turn interaction: claims, dispatch, marks, the unique event; many requests interleaved, and the request handler |
| `EventSequence.dfy` | reserving sequence numbers, rolling them back, importing histories |
| `UsageWindows.dfy`, `UsageAccounting.dfy` | thresholds and time windows; the batch accounting of events |
| `InstanceReports.dfy`, `ReportCache.dfy` | app-server reports in the store and in the Durable Object: two levels of deduplication against plain write-through |
| `AppServerLog.dfy`, `AppServerManager.dfy` | when an action on the app-server process is safe; the manager, whose every action is |
| `ThreadTurns.dfy` | cutting a thread's events into turns |
| `SnapshotMerge.dfy` | merging snapshots in the browser |

How to read it. Code that changes state is a class or a method with loops, specified by functions on
values (`Apply`, `Recorded`, `Settled`, `Merged`, ...); the properties of these functions are lemmas.
Concurrent parts are state machines whose steps are single statements; `Run` takes any list of steps, and
`Allowed` says what a step's handler must have read before. Constructors are not listed below.

Where a property is false of the code, the code is kept and the boundary is proved:

* A report that the Durable Object skips can leave the table wrong. Retiring a duplicate connector stops its
  rows in the store but leaves the cached report (`apps/worker/src/db.ts:3383-3430`; the cache is only cleared
  at `apps/worker/src/workspace-do.ts:622-625`); a socket lost, or another report handled, between recording
  and remembering a report does the same. `ReportCache.RetirementHidesAReport`, `SocketLossHidesAReport` and
  `OvertakingHidesAReport` are such runs. `ReportCache.StepAgreesIff` says exactly when a step departs from
  write-through, `SerialSkipIff` that without overlapping handlers the rows must all be stopped, and
  `DedupRefinesWriteThrough` that without retirements and overlaps it never happens.
* An INSERT of an event that takes effect but reports a failure is rolled back all the same, and leaves a
  stored number above the counter (`apps/worker/src/db.ts:4895-4917`):
  `EventSequence.UnnoticedInsertBreaksNumbering`. `EventSequence.StepKeepsGood` shows that exactly such a
  rollback breaks the numbering, and `AppendsCollide` that no later append whose rollback runs gets past it.
* A second response can be sent for one interaction. Once the event is recorded, beside a delivered claim:
  `TurnInteraction.SecondResponseAfterTheEvent`, for which `SendsBesideMarkedClaim` shows that the recorded
  event is needed. Before it, when a response is rejected or its dispatch fails after the send:
  `SecondResponseBeforeTheEvent`, for which `SecondResponseNeedsRemoval` shows that a claim must have been
  given back or gone stale for each response after the first.
* Agreement in `TurnInteraction` assumes that a request does not outlive the time limit of its claim
  (`Allowed`); `TurnInteraction.OutlivingTheClaimRecordsUnsent` shows that it cannot be dropped.
* A child whose status cannot be read is cleaned up like one that exited
  (`crates/agent/src/app_server_manager.rs:601-628`), even if it runs and turns are draining:
  `AppServerManager.UnreadableStatusEndsAChild` is such a run. `AppServerLog.InspectionIsDecisive` and the
  polls' contracts (`Held`) say that while turns drain a child is terminated if and only if the status just
  read was not Running, or the manager itself goes away.

Assumptions taken from the schema that the code relies on: primary keys; UNIQUE(connector_id, session_id) on
host sessions; UNIQUE(thread_id, seq) on events; at most one resolution event for each command and
interaction; the conflict keys of the upserts.

## Model

| member | source | states |
|---|---|---|
| HostSessions.ResolversAgree | apps/worker/src/db.ts:2283-2311 | For every session table and command scope, the lease's COALESCE query, the one query ordered by CASE and the two sequential queries return the same row |
| HostSessions.OrderedAgrees | apps/worker/src/db.ts:2175-2200 | The CASE-ordered query of command insertion selects the row of the COALESCE query |
| HostSessions.SequentialAgrees | apps/worker/src/db.ts:4657-4700 | Looking by task and only then by thread selects the row of the COALESCE query |
| HostSessions.ExclusionsAgree | apps/worker/src/db.ts:1300-1335 | Excluding a session by connector and session id (release pass) or by row id (failure pass) leaves the same resolution |
| HostSessions.DetachedResolves | apps/worker/src/db.ts:1056-1063 | After the detach UPDATE, the resolution that excludes the session is the plain resolution of the new table, and both keys stay unique |
| HostSessions.LatestWhere | apps/worker/src/db.ts:2284-2292 | Empty exactly if no row qualifies; otherwise a qualifying row that no other qualifying row is newer than |
| Commands.EveryRunKeepsLifecycle | apps/worker/src/db.ts:2264-2573 | In every interleaving of all statements: pending commands have neither owner nor deadline, leased and running ones have both |
| Commands.EveryRunKeepsProvenance | apps/worker/src/db.ts:2359-2520 | In every interleaving: explicit and attached sources have a target; leased or running commands with a target belong to that target; only codex commands outside CLI fallback name a session to lease through |
| Commands.LaterRowsFollow | apps/worker/src/db.ts:2977-3369 | Between any two points of a run: succeeded and failed rows never change again in any column, running work is never queued, leased or handed over, an explicit source never changes |
| Commands.LeaseIsNotStolen | apps/worker/src/db.ts:2359-2520 | No statement gives a lease that has not expired to another connector, even if it was planned from an older read |
| Commands.RunKeepsGood | apps/worker/src/db.ts:2264-3598 | Every interleaving of reads, leases, releases, failures and migrations keeps all row invariants and the facts that handlers rely on about rows read earlier |
| Commands.StepKeepsGood | apps/worker/src/db.ts:2264-3598 | The same for one statement, with the protection of unexpired leases |
| Commands.LeaseKeepsRow | apps/worker/src/db.ts:2359-2520 | The lease's UPDATE, applied to a row that has changed since its SELECT, still keeps target provenance and does not take an unexpired lease |
| Commands.BuiltIsSound | apps/worker/src/db.ts:2054-2145 | A command that creation builds is pending and has the target its source requires |
| CommandColumns.ResolveMeans | apps/worker/src/db.ts:2283-2311 | The attached session of a scope: the newest of those attached to its task, or, if the workspace has none, of those attached to its thread, the larger id deciding |
| CommandColumns.TakesIsSelectable | apps/worker/src/db.ts:2312-2352 | Which commands a connector may take, said by columns: online, allowed in the workspace, with the capability that the resolved session calls for, and with a fitting target |
| CommandColumns.LeasedMeans | apps/worker/src/db.ts:2359-2384 | Every column of a leased row |
| CommandColumns.ServesIsEligible | apps/worker/src/db.ts:1100-1135 | When a session can run a command through its app server |
| CommandColumns.BuildMeans | apps/worker/src/db.ts:2056-2125 | Which requests are refused, and every column of the command that the others become |
| CommandColumns.InsertMeans | apps/worker/src/db.ts:2165-2210 | The INSERT goes through exactly if the session found before still is the attached one |
| CommandColumns.GatedStartMeans | apps/worker/src/db.ts:5178-5258 | A start that names a session goes through exactly if the command was leased for it, and it is still attached, the connector's, and has an app server |
| CommandColumns.RefusedStartMeans | apps/worker/src/db.ts:3105-3289 | When a refused start is queued again, and when it may fail |
| CommandColumns.MigrationMeans | apps/worker/src/db.ts:3512-3598 | Which pending commands follow a session to the replacement of its connector, and that only their target changes |
| CommandStore.SelectedIsLeased | apps/worker/src/db.ts:2359-2520 | With nothing in between, the lease's UPDATE accepts a row exactly if its SELECT chose it |
| CommandStore.LeaseBindsSession | apps/worker/src/db.ts:2359-2520 | A lease binds a codex command to the session that the resolver names if that has an app server, to none otherwise, and never to another session than the one it was bound to |
| CommandStore.DetachSplits | apps/worker/src/db.ts:1079-1484 | A detached session's commands fall into two groups: queued again for the eligible session the resolver names, or failed; none is left over and none is in both |
| CommandStore.SettledMeans | apps/worker/src/db.ts:1079-1484 | Which commands a session's loss concerns, when they are queued again and when they fail, and every column of the result |
| CommandStore.DetachSplitsAll | apps/worker/src/db.ts:1079-1484 | The same for the whole table between the release pass and the failure pass |
| CommandStore.DetachUsesNewResolution | apps/worker/src/db.ts:1038-1077 | The session that decides after a detach is the resolver's plain answer in the new table |
| CommandStore.StaleIsSettled | apps/worker/src/db.ts:2583-2975 | Every command that the stale-target cleanup selects is queued again or failed |
| CommandStore.CleanupMeans | apps/worker/src/db.ts:2583-2975 | Which commands the stale-target cleanup takes, when they are queued again and when they fail, and every column of the result |
| CommandStore.ServedAreNotStale | apps/worker/src/db.ts:2660-2698 | A command that its own attached session serves on this connector is never taken by the cleanup |
| CommandStore.SelectableIdsTake | apps/worker/src/db.ts:2264-2352 | The selected rows are those that the connector takes |
| CommandStore.AcceptsMeans | apps/worker/src/db.ts:2977-3053 | When an event is accepted, said by columns |
| CommandStore.ReleaseOneMore | apps/worker/src/db.ts:2546-2573 | A duplicate id in the list to release changes nothing and is not counted again |
| CommandStore.KeyOf | apps/worker/src/db.ts:2466-2573 | An UPDATE with WHERE id = ? can only match the row of that id |
| CommandStore.Store.CreateCommand | apps/worker/src/db.ts:2054-2262 | A command is inserted exactly if it can be built and its attached session is still the attached one |
| CommandStore.Store.SelectForLease | apps/worker/src/db.ts:2264-2460 | Finds the oldest command that the connector may take, if there is one, with the session joined to it |
| CommandStore.Store.PendingCommandsForConnector | apps/worker/src/db.ts:2264-2544 | Leases the oldest command that the connector takes exactly if there is one, for a minute, to a connector that is online, allowed and able to run it through the resolved session, and touches no other row |
| CommandStore.Store.LeaseOldest | apps/worker/src/db.ts:2264-2544 | The SELECT and the UPDATE of the lease in a row |
| CommandStore.Store.ReleaseLeasedCommands | apps/worker/src/db.ts:2546-2573 | Exactly the listed commands leased by this connector become pending, and they are counted |
| CommandStore.Store.FailActiveCommands | apps/worker/src/db.ts:3291-3369 | Exactly the leased and running commands of the connector (all, or those listed) fail |
| CommandStore.Store.DetachHostSession | apps/worker/src/db.ts:1038-1077 | The whole new table after a detach, and the set of commands it failed |
| CommandStore.Store.SettleWithout | apps/worker/src/db.ts:852-862 | The same two passes for a session that lost its app server |
| CommandStore.Store.FailDetachedCommands | apps/worker/src/db.ts:1260-1484 | Exactly the commands that no eligible session can take fail |
| CommandStore.Store.CleanupStaleTargets | apps/worker/src/db.ts:2583-2823 | The twenty oldest stale commands are picked, or all of them if there are fewer; each is queued again or failed, and a command that its own attached session serves is left alone |
| CommandStore.Store.CleanupPicked | apps/worker/src/db.ts:2704-2817 | The loop over the picked commands |
| CommandStore.Store.SelectStale | apps/worker/src/db.ts:2600-2700 | The cleanup's SELECT with its order and limit |
| CommandStore.Store.CleanupOne | apps/worker/src/db.ts:2831-2975 | A picked command is queued again for the resolved session, or failed if that is refused |
| CommandStore.Store.RecordAgentEvent | apps/worker/src/db.ts:2977-3103 | Exactly when an event is accepted; an accepted start, finish or failure leaves the command running, succeeded or failed with every other column as it was; when a start is queued again and when it fails instead |
| CommandStore.Store.RejectStart | apps/worker/src/db.ts:3105-3289 | A start that no longer fits the attached session is queued again exactly if another session can take it, otherwise failed exactly if the command is explicit, otherwise left |
| CommandStore.Store.Update | apps/worker/src/db.ts:2359-2544 | One UPDATE touches exactly the rows its WHERE clause matches, and reports whether there were any |
| ActiveCommands.NothingIsOrphaned | apps/worker/src/workspace-do.ts:602-646 | A connector without sockets holds no leased and no running command |
| ActiveCommands.CoveredWithoutEntry | apps/worker/src/workspace-do.ts:1277-1290 | Forgetting a command that is not this connector's active work leaves every active command listed |
| ActiveCommands.CoveredWhenNoneStart | apps/worker/src/workspace-do.ts:393-437 | Statements that start no command keep every active command listed |
| ActiveCommands.LeaseIsCovered | apps/worker/src/workspace-do.ts:1036-1086 | A lease is listed by the socket it was made for |
| ActiveCommands.Hub.Serve | apps/worker/src/workspace-do.ts:207-499 | After any sequence of calls, host-session reports among them, a connector without sockets owns no leased and no running command |
| ActiveCommands.Hub.Handle | apps/worker/src/workspace-do.ts:207-499 | Each kind of call keeps every active command listed by a live socket of its owner |
| ActiveCommands.Hub.SendPendingCommands | apps/worker/src/workspace-do.ts:1036-1086 | On a ready socket the oldest selectable command is leased exactly if there is one, after the cleanup if that runs; it is listed if the send succeeds and pending again if it fails |
| ActiveCommands.Hub.LeaseFor | apps/worker/src/workspace-do.ts:1036-1086 | A leased command belongs to the socket's connector and is added to the socket's list |
| ActiveCommands.Hub.LeaseAndSend | apps/worker/src/workspace-do.ts:1036-1086 | The lease and the send without the cleanup |
| ActiveCommands.Hub.Cleanup | apps/worker/src/workspace-do.ts:1108-1114 | The stale-target cleanup before a dispatch queues again or fails what it takes and starts nothing |
| ActiveCommands.Hub.ReportSessions | apps/worker/src/workspace-do.ts:268-311 | A report of host sessions keeps every active command listed |
| ActiveCommands.Hub.ChangeSessions | apps/worker/src/db.ts:752-803 | A session that loses its app server has its commands settled without it, in the new session table |
| ActiveCommands.Hub.DetachSession | apps/worker/src/db.ts:1038-1077 | A detach settles the commands of the session in the new table |
| ActiveCommands.SettledStaysCovered | apps/worker/src/db.ts:1079-1484 | Settling a session's commands keeps every active command listed |
| ActiveCommands.EventStaysCovered | apps/worker/src/workspace-do.ts:393-437 | Recording an event keeps every active command listed |
| ActiveCommands.CleanedStaysCovered | apps/worker/src/db.ts:2583-2975 | The stale-target cleanup keeps every active command listed |
| ActiveCommands.Hub.GiveBack | apps/worker/src/workspace-do.ts:1305-1319 | After a failed send the command is pending and off the list, and the socket is not used for dispatch |
| ActiveCommands.Hub.HandleEvent | apps/worker/src/workspace-do.ts:393-437 | Accepted exactly as the store accepts; the socket forgets the command exactly if the event is final or its start was queued again or failed |
| ActiveCommands.Hub.HandleSocketGone | apps/worker/src/workspace-do.ts:602-646 | The socket is gone; a command fails exactly if it was active for the connector and either no other ready socket of it remains or the closed socket listed it; every other row stays; without any socket left nothing stays active |
| TurnInteraction.AcceptedRequestsAgree | apps/worker/src/routes.ts:372-462 | In every interleaving of requests, retries and connector reports, all accepted requests return the one recorded event; if a request wrote it, it resolves the interaction as a response that was sent |
| TurnInteraction.MarkedClaimStands | apps/worker/src/db.ts:4464-4539 | Until an event exists, no step removes or replaces a claim marked delivered or uncertain, or sends another response |
| TurnInteraction.MarkedClaimDecides | apps/worker/src/db.ts:1670-1681 | From then on, over any run, only the claimed resolution can be recorded by a request, and nothing more is sent before an event exists |
| TurnInteraction.SendsBesideMarkedClaim | apps/worker/src/routes.ts:389-450 | A response can go out beside a marked claim only if the event is recorded already |
| TurnInteraction.RunKeepsInv | apps/worker/src/db.ts:4286-4539 | Every interleaving keeps: a working request holds the claim it inserted, and whatever is about to be recorded was sent or is already resolved |
| TurnInteraction.StepKeepsInv | apps/worker/src/db.ts:4286-4539 | The same for one step of one request |
| TurnInteraction.ActKeepsInv | apps/worker/src/db.ts:4286-4539 | The same for a step that belongs to a request |
| TurnInteraction.ActKeepsOthersHolding | apps/worker/src/db.ts:4286-4328 | A step of one request takes no claim away from another that still works under it |
| TurnInteraction.ActKeepsOthersJustified | apps/worker/src/db.ts:1719-1799 | What another request is about to record stays backed |
| TurnInteraction.ActKeepsHolding | apps/worker/src/db.ts:4286-4328 | A request that works under a claim holds the claim it inserted, with its response and times |
| TurnInteraction.ActKeepsJustified | apps/worker/src/db.ts:1719-1799 | Whatever a request is about to record was sent by it, is the marked claim's, or is resolved already |
| TurnInteraction.ActKeepsEvidence | apps/worker/src/db.ts:1719-1799 | A marked claim's response, and an event that a request wrote, stand for a response that was sent |
| TurnInteraction.RunKeepsEvent | apps/worker/src/db.ts:1719-1799 | A recorded event is never replaced |
| TurnInteraction.SecondResponseAfterTheEvent | apps/worker/src/db.ts:1801-1848 | A concrete run in which a second response goes out beside a marked claim, after the event was recorded and another request released the claim |
| TurnInteraction.SecondResponseNeedsRemoval | apps/worker/src/db.ts:4511-4539 | Before the event, the number of different responses sent is at most one more than the number of claims given back or swept as stale |
| TurnInteraction.ResponsesNeedRemovals | apps/worker/src/db.ts:4511-4539 | The same between any two points of a run |
| TurnInteraction.StepSends | apps/worker/src/routes.ts:395-437 | Without an event, a claim disappears exactly by being given back or swept, and only the claimed response can be sent |
| TurnInteraction.SecondResponseBeforeTheEvent | apps/worker/src/routes.ts:855-866 | Concrete runs in which a rejected response, or a dispatch that fails after the send, lets a second response go out before the event |
| TurnInteraction.OutlivingTheClaimRecordsUnsent | apps/worker/src/db.ts:4464-4539 | A concrete run in which a request outlives its claim and a resolution is recorded that was never sent: the TTL assumption is needed |
| TurnInteraction.Service.Resolve | apps/worker/src/routes.ts:389-450 | From the claim and the event it finds: exactly when the handler answers, which event it leaves, and whether its response is sent |
| TurnInteraction.Service.Prepare | apps/worker/src/db.ts:1619-1701 | Exactly when the request is refused, finds a delivered claim or the event, or holds a claim of its own |
| TurnInteraction.Service.ClaimResolution | apps/worker/src/db.ts:4286-4328 | The claim is taken exactly if there is none, or one that is unmarked and older than its limit |
| TurnInteraction.Service.Dispatch | apps/worker/src/routes.ts:395-437 | Exactly when the handler goes on to record, and whether the response was sent |
| TurnInteraction.Service.React | apps/worker/src/routes.ts:855-866 | What becomes of the claim after each outcome of the dispatch, and when the handler goes on to record |
| TurnInteraction.Service.ReactToError | apps/worker/src/routes.ts:420-437 | A dispatch that did not confirm a delivery |
| TurnInteraction.ResolutionTells | apps/worker/src/db.ts:4600-4636 | The recorded resolution tells decisions apart and says how many questions were answered |
| TurnInteraction.Service.SendAndHear | apps/worker/src/workspace-do.ts:556-600 | Sending a response and hearing the outcome leads to the phase of that outcome |
| TurnInteraction.Service.MarkConfirmedBestEffort | apps/worker/src/routes.ts:754-773 | A confirmed delivery is recorded whether or not either mark can be written |
| TurnInteraction.Service.Record | apps/worker/src/db.ts:1719-1799 | Exactly when there is an answer: the event there is, or the resolution this request stands for |
| TurnInteraction.Service.FindOrAppend | apps/worker/src/db.ts:1719-1799 | The unique index makes the second writer return the first one's event |
| EventSequence.RunKeepsDistinct | apps/worker/src/db.ts:4849-4917 | In every interleaving of appends, failing inserts, guarded rollbacks and imports in which no rollback takes back the number of a stored event: numbers stored or held are pairwise distinct and at most last_seq, and every number handed out is stored, held or lost |
| EventSequence.NoticedRunKeepsDistinct | apps/worker/src/db.ts:4849-4917 | If inserts that report a failure stored nothing, that is every run |
| EventSequence.StepKeepsGood | apps/worker/src/db.ts:4904-4917 | One statement keeps the numbering if and only if it is not a rollback of an insert that took effect although it reported a failure, with the counter still at its number |
| EventSequence.UnnoticedInsertBreaksNumbering | apps/worker/src/db.ts:4895-4917 | A concrete run in which such a rollback leaves a stored number above last_seq |
| EventSequence.AppendsCollide | apps/worker/src/db.ts:4849-4917 | From then on every append gets the taken number, is refused by the unique key and takes its number back |
| EventSequence.StepKeepsCarried | apps/worker/src/db.ts:4878-4897 | The events of unnoticed inserts stay stored |
| EventSequence.StepKeepsDistinct | apps/worker/src/db.ts:4849-4917 | The same for one statement |
| EventSequence.StepKeepsAccounted | apps/worker/src/db.ts:4849-4917 | last_seq is the number of stored, held and lost numbers |
| EventSequence.RollbackFreesOnlyItsOwn | apps/worker/src/db.ts:4904-4917 | A rollback that lowers the counter frees a number above all others in use, which the next append gets again |
| EventSequence.ReservedNumbersInsert | apps/worker/src/db.ts:4880-4900 | The unique key on (thread, sequence) never refuses a reserved number |
| EventSequence.AppendedWell | apps/worker/src/db.ts:4849-4902 | An append stores its event under the next number or leaves everything as it was, a number is lost only if the rollback does not run, and the numbering is kept unless the insert took effect unnoticed and the rollback runs |
| EventSequence.AppendedIs | apps/worker/src/db.ts:4849-4917 | The whole state after an append |
| EventSequence.InsertKeepsGood | apps/worker/src/db.ts:4854-4896 | Reserving and inserting keep the numbering, however the insert ends |
| EventSequence.AppendKeepsGood | apps/worker/src/db.ts:4849-4917 | Exactly when an append keeps the numbering |
| EventSequence.ReservedWell | apps/worker/src/db.ts:4854-4867 | A reservation hands out a number above all in use |
| EventSequence.ImportedWell | apps/worker/src/db.ts:1537-1583 | An import stores its event under the next number |
| EventSequence.ImportIsNumbered | apps/worker/src/db.ts:1525-1583 | An import of a history adds exactly the new events, numbered in the order of the history, and loses no number |
| EventSequence.FreshIsNew | apps/worker/src/db.ts:1525-1533 | What is imported is exactly what the history has and the store does not, each event once |
| EventSequence.NumberedInOrder | apps/worker/src/db.ts:1537-1583 | Imported events get consecutive numbers in order; no stored event changes its number |
| EventSequence.BackfillAgainImportsNothing | apps/worker/src/db.ts:1508-1583 | Importing the same history again imports nothing |
| EventSequence.EventLog.Append | apps/worker/src/db.ts:4849-4902 | The append of one event while others hold numbers: its result, the whole new state, and exactly when the numbering is kept |
| EventSequence.EventLog.Backfill | apps/worker/src/db.ts:1508-1583 | The import loop and the events it reports |
| EventSequence.EventLog.Next | apps/worker/src/db.ts:4854-4865 | The counter's increment reserves the number it returns |
| EventSequence.EventLog.Put | apps/worker/src/db.ts:4878-4896 | The insert, also when it takes effect but reports a failure |
| EventSequence.EventLog.PutOrIgnore | apps/worker/src/db.ts:1561-1582 | INSERT OR IGNORE adds a row exactly if neither key is taken |
| EventSequence.EventLog.TakeBack | apps/worker/src/db.ts:4904-4917 | The decrement applies only while the counter still stands at the number |
| UsageWindows.ThresholdSet | apps/worker/src/db.ts:5080-5093 | 1 <= conservative <= throttled <= hard |
| UsageWindows.StateMeans | apps/worker/src/db.ts:5080-5100 | What the rounded thresholds mean as fractions of the budgets |
| UsageWindows.ThresholdsScale | apps/worker/src/db.ts:5080-5100 | For all counts, budgets, optional soft budgets and factors, scaling all of them leaves the state as it is |
| UsageWindows.SoftThresholdsScale | apps/worker/src/db.ts:5080-5100 | The same with a soft budget |
| UsageWindows.ConstraintAgreesWithWindow | apps/worker/src/db.ts:6420-6457 | Without telemetry the constraint in rows is the window's state in events; telemetry only makes it more severe |
| UsageWindows.MoreIsNotMilder | apps/worker/src/db.ts:5095-5100 | A larger count is never in a milder state |
| UsageWindows.StartIsFloor | apps/worker/src/db.ts:5017-5041 | The start computed from day, hour and minute is the instant rounded down to the window's length |
| UsageWindows.WindowsPartition | apps/worker/src/db.ts:5017-5060 | Each instant is in exactly one window of each type |
| UsageWindows.WindowsNest | apps/worker/src/db.ts:5017-5060 | Minute windows lie in four-hour windows, and these in days |
| UsageAccounting.RecordingSplits | apps/worker/src/db.ts:4931-4965 | Recording two batches one after the other is recording them as one |
| UsageAccounting.RecordingPermutes | apps/worker/src/db.ts:4931-4965 | The order of events does not matter |
| UsageAccounting.BatchIsOneAtATime | apps/worker/src/db.ts:4931-4965 | A batch gives the same table as its events one at a time |
| UsageAccounting.MergedTwice | apps/worker/src/db.ts:4967-5015 | Upserting twice is upserting the sum once |
| UsageAccounting.TotalPermutes | apps/worker/src/db.ts:4931-4965 | A window's total is the same for every order of the log |
| UsageAccounting.GrownIsTotals | apps/worker/src/db.ts:4937-4960 | Adding one event to the three aggregates of its windows gives the totals of the longer log |
| UsageAccounting.TotalMeans | apps/worker/src/db.ts:4931-4960 | A window's total sums up each column over the entries whose times lie in the window, and bears the latest of these times |
| UsageAccounting.RowMeans | apps/worker/src/db.ts:5017-5104 | A row's state and percentage in terms of the budget settings, for each type of window |
| UsageAccounting.EveryRowCounts | apps/worker/src/db.ts:4967-5015 | In every reachable table, each row's state and percentage are those of its count, and its count is the number of events accounted for in its window |
| UsageAccounting.CountsAreConserved | apps/worker/src/db.ts:5017-5078 | In every reachable table a day's count is the sum of its six four-hour counts and of its 1440 minute counts, and a four-hour count that of its 240 minutes |
| UsageAccounting.RowsAreReadBack | apps/worker/src/db.ts:6683-6697 | The window found again from a row's stored start is the row's own, so the state computed for display is the stored one |
| UsageAccounting.UsedPctIsNearest | apps/worker/src/db.ts:5102-5104 | The stored percentage, in tenths, is off by at most half a tenth |
| UsageAccounting.UsageTable.Upsert | apps/worker/src/db.ts:4967-5015 | The thresholds spelled out in the statement give the row of the summed counts |
| UsageAccounting.UsageTable.RecordEvents | apps/worker/src/db.ts:4931-4965 | The aggregation loop and the upserts record the log of the batch |
| UsageAccounting.UsageTable.UpsertAll | apps/worker/src/db.ts:4962-4964 | Upserting the aggregates one by one adds all of them |
| UsageAccounting.UsageTable.BootstrapWindows | apps/worker/src/db.ts:415-438 | Creates the three current windows with zero counts and changes no count |
| UsageAccounting.AddEntry | apps/worker/src/db.ts:4937-4960 | One event grows exactly the aggregates of its three windows |
| InstanceReports.SnapshotIsExact | apps/worker/src/db.ts:554-578 | After a snapshot the connector's instances that are not stopped are exactly those it reported as not stopped |
| InstanceReports.RecordReportWrites | apps/worker/src/db.ts:446-589 | The store's level of deduplication loses nothing |
| InstanceReports.RecordOneWrites | apps/worker/src/db.ts:3809-3828 | An instance that is not persisted equals its row |
| InstanceReports.RecordOneMeans | apps/worker/src/db.ts:466-520 | Every column of the row after a reported instance, and that it is left alone exactly if it says the same and was seen less than a quarter of an hour ago |
| InstanceReports.StopRowsMeans | apps/worker/src/db.ts:3765-3807 | Which rows a stop concerns, and every column of the result |
| InstanceReports.RewriteIsIdle | apps/worker/src/db.ts:446-520 | Writing a report changes nothing exactly if the table says the last word of it about each identity |
| InstanceReports.WriteAllFinds | apps/worker/src/db.ts:446-520 | Of several instances with one identity in a report, the last one counts |
| ReportCache.DedupRefinesWriteThrough | apps/worker/src/workspace-do.ts:341-348 | Over every run of reports, snapshots, socket losses and restarts in which handlers of one connector do not overlap and none is retired, the stored table agrees with writing every report, on every field but times |
| ReportCache.StepAgreesIff | apps/worker/src/workspace-do.ts:524-544 | In every interleaving: a step agrees with write-through if and only if it does not skip a report of which some row says otherwise |
| ReportCache.RunAgrees | apps/worker/src/workspace-do.ts:524-544 | A run without such a step agrees with write-through |
| ReportCache.SerialSkipIff | apps/worker/src/workspace-do.ts:524-536 | While handlers of one connector do not overlap, a skip departs from write-through if and only if the connector's rows are all stopped, and only retirements lead there |
| ReportCache.SerialRunAgrees | apps/worker/src/workspace-do.ts:341-348 | The same as the first from any such state |
| ReportCache.StepKeepsSerial | apps/worker/src/workspace-do.ts:538-544 | Every step keeps: a remembered report is reflected by the table, or its rows were stopped by a retirement |
| ReportCache.SocketLossKeepsSerial | apps/worker/src/workspace-do.ts:622-634 | A socket loss stops the rows and forgets the report |
| ReportCache.RetirementKeepsSerial | apps/worker/src/db.ts:3383-3394 | A retirement stops the rows and leaves the report |
| ReportCache.RetirementHidesAReport | apps/worker/src/db.ts:3383-3430 | A concrete run: a retirement stops the rows but not the cached report, so an identical report is skipped and the table departs from write-through |
| ReportCache.SocketLossHidesAReport | apps/worker/src/workspace-do.ts:341-348 | A concrete run: a socket is lost after a report was recorded and before it is remembered |
| ReportCache.OvertakingHidesAReport | apps/worker/src/workspace-do.ts:341-348 | A concrete run: a report is recorded before another one and remembered after it |
| ReportCache.CacheableIsHealthy | apps/worker/src/workspace-do.ts:1501-1516 | Only reports that are no snapshots and healthy throughout can be skipped |
| ReportCache.SkipsMeans | apps/worker/src/workspace-do.ts:524-536 | Exactly which reports are skipped |
| ReportCache.RememberedMeans | apps/worker/src/workspace-do.ts:538-544 | Exactly what is remembered |
| ReportCache.Reports.RecordInstances | apps/worker/src/db.ts:446-589 | The loop over a report and the stop of what a snapshot omits |
| ReportCache.Reports.StopOthers | apps/worker/src/db.ts:591-621 | Exactly the connector's rows that are not stopped and not kept are stopped |
| ReportCache.Reports.CheckReport | apps/worker/src/workspace-do.ts:341-342 | When a report is skipped |
| ReportCache.Reports.RecordChecked | apps/worker/src/workspace-do.ts:343-345 | The store records a report that was not skipped |
| ReportCache.Reports.RememberRecorded | apps/worker/src/workspace-do.ts:538-544 | A recorded report is remembered, or the cache forgets the connector's |
| ReportCache.Reports.HandleReport | apps/worker/src/workspace-do.ts:341-348 | What a report makes of table and cache when nothing comes in between |
| ReportCache.Reports.HandleSocketGone | apps/worker/src/workspace-do.ts:622-634 | Without a ready peer the cached report is forgotten, and rows stop if that is allowed |
| ReportCache.Reports.Retire | apps/worker/src/db.ts:3383-3394 | The store stops the rows; the cache is out of its reach |
| AppServerLog.DrainIsRespected | crates/agent/src/app_server_manager.rs:282-355 | With turns active, a restart asked for and the drain timeout not over, no child is spawned, and a child is terminated only right after a status was read that is not Running, or because the manager goes away |
| AppServerLog.InspectionIsDecisive | crates/agent/src/app_server_manager.rs:601-628 | Exactly when an inspection ends a child: when it did not read Running; during a drain nothing else does, but the manager going away |
| AppServerLog.SpawnInBackoffIsLifted | crates/agent/src/app_server_manager.rs:646-665 | A spawn within the backoff of any failed start follows a restart, after that failure, that was for an upgrade or found a child still owned |
| AppServerLog.ReapedBetweenSpawns | crates/agent/src/app_server_manager.rs:636-644 | Between two spawns the first child was reaped |
| AppServerLog.PrefixIsSafe | crates/agent/src/app_server_manager.rs:282-355 | Every action in a safe log was safe when it was taken |
| AppServerLog.FailuresAreOrdered | crates/agent/src/app_server_manager.rs:663-665 | A later failure only extends the backoff |
| AppServerManager.Serve | crates/agent/src/app_server_manager.rs:89-105 | Any calls in any environment leave a log in which every action was safe and no cleanup is due |
| AppServerManager.UnreadableStatusEndsAChild | crates/agent/src/app_server_manager.rs:601-628 | A concrete run through the public calls in which an unreadable status ends a running child during a drain |
| AppServerManager.Manager.RuntimeUrl | crates/agent/src/app_server_manager.rs:184-191 | After every poll that may start, a URL is returned exactly if the state is healthy, after a health check that succeeded; a restart stays pending only while draining or degraded; while turns drain, the child is terminated exactly if the status just read was not Running |
| AppServerManager.Manager.ActiveTurnUrl | crates/agent/src/app_server_manager.rs:193-200 | During a turn the app-server is left alone unless a restart is pending or asked for; while it drains, the child is terminated exactly if the status just read was not Running |
| AppServerManager.Manager.RequestRestart | crates/agent/src/app_server_manager.rs:257-280 | A pending restart changes only from scheduled to upgrade; its start time moves at most once |
| AppServerManager.PendingMovesAtMostOnce | crates/agent/src/app_server_manager.rs:257-280 | While a restart stays pending, its start time moves at most once, and only for an upgrade |
| AppServerManager.Manager.SchedulePeriodicRestart | crates/agent/src/app_server_manager.rs:207-235 | A periodic restart is asked for when it is due and no backoff puts it off; when the next one is armed or put off; an existing request stays as it is |
| AppServerManager.Manager.ScheduleUpgradeRestart | crates/agent/src/app_server_manager.rs:237-255 | An upgrade restart is asked for exactly if the marker seen is newer than the remembered one and no upgrade is pending; the newer marker is remembered |
| AppServerManager.Manager.ScheduleRestarts | crates/agent/src/app_server_manager.rs:202-205 | A restart that is due, or a newer marker, is asked for; a pending restart is kept or superseded by an upgrade |
| AppServerManager.Manager.AdvancePendingRestart | crates/agent/src/app_server_manager.rs:282-355 | The restart is carried out or stays as it is; an owned child is terminated once no turns are active or the drain timeout is over; URL exactly if healthy |
| AppServerManager.Manager.Drain | crates/agent/src/app_server_manager.rs:282-317 | Why a restart is held: turns within the drain timeout or backoff, or a healthy listener that is not ours; the child is terminated exactly if the status just read was not Running |
| AppServerManager.Manager.InspectForDrain | crates/agent/src/app_server_manager.rs:282-285 | The inspection at the start of every attempt |
| AppServerManager.Manager.Decide | crates/agent/src/app_server_manager.rs:286-317 | Whether to wait, decided without touching the child |
| AppServerManager.Manager.CarryOut | crates/agent/src/app_server_manager.rs:323-346 | A child that cannot be stopped stays owned and the restart stays pending with its start time |
| AppServerManager.Manager.StartAnew | crates/agent/src/app_server_manager.rs:347-355 | A forced restart that fails leaves the drain timeout as the last error |
| AppServerManager.Manager.EnsureReadyAndArm | crates/agent/src/app_server_manager.rs:347-350 | A successful start arms the next scheduled restart |
| AppServerManager.Manager.RecordForcedRestart | crates/agent/src/app_server_manager.rs:386-408 | The state and error that a forced restart leaves |
| AppServerManager.Manager.StopForRestart | crates/agent/src/app_server_manager.rs:329-346 | The stop of a restart; a child that cannot be stopped leaves the state degraded |
| AppServerManager.Manager.LiftBackoff | crates/agent/src/app_server_manager.rs:325-327 | The backoff is lifted for an upgrade, for a forced restart, or with a child still owned, and stays otherwise |
| AppServerManager.Manager.ScheduledBackoffDeadline | crates/agent/src/app_server_manager.rs:357-367 | The running backoff's deadline for a scheduled restart without a child; without one the backoff is over |
| AppServerManager.Manager.BlockUnownedListener | crates/agent/src/app_server_manager.rs:369-384 | A restart without an owned child is blocked exactly by a healthy listener, and nothing else changes |
| AppServerManager.Manager.EnsureReady | crates/agent/src/app_server_manager.rs:485-585 | URL exactly if healthy, after a successful check; without a start attempt the check decides; no URL only for a shutdown, a backoff or a failure recorded meanwhile |
| AppServerManager.Manager.StartIfAllowed | crates/agent/src/app_server_manager.rs:514-530 | No start during the backoff |
| AppServerManager.Manager.StartOver | crates/agent/src/app_server_manager.rs:523-585 | Stop an unhealthy child and start a new one, unless the connector shuts down |
| AppServerManager.Manager.StopUnhealthy | crates/agent/src/app_server_manager.rs:533-549 | An unhealthy child is stopped, or the failure is recorded just now |
| AppServerManager.Manager.Start | crates/agent/src/app_server_manager.rs:551-585 | Healthy with an owned child, or degraded with a failure recorded just now |
| AppServerManager.Manager.SpawnAndWait | crates/agent/src/app_server_manager.rs:551-570 | A child that does not become healthy in time is not kept as healthy |
| AppServerManager.Manager.Spawn | crates/agent/src/app_server_manager.rs:683-700 | One to three attempts, of which at most one starts a child; none starts one only if all three were used or an attempt failed otherwise |
| AppServerManager.Manager.WaitUntilReady | crates/agent/src/app_server_manager.rs:728-771 | Ready only with an owned child that answered in time |
| AppServerManager.Manager.CheckInTime | crates/agent/src/app_server_manager.rs:745-764 | A health check counts only if it came before the deadline |
| AppServerManager.Manager.ClearExitedChild | crates/agent/src/app_server_manager.rs:601-628 | A running child and everything else stays as it is; a child that has exited or cannot be inspected is terminated, and a failed start is recorded even if it cannot be |
| AppServerManager.Manager.CleanUp | crates/agent/src/app_server_manager.rs:618-627 | The actions of the cleanup, in order |
| AppServerManager.Manager.TryWait | crates/agent/src/app_server_manager.rs:601-617 | The status read is the environment's and is put on record |
| AppServerManager.Manager.StopChild | crates/agent/src/app_server_manager.rs:630-644 | Spawned children are those reaped plus the one owned, also when a stop fails |
| AppServerManager.Manager.SetState | crates/agent/src/app_server_manager.rs:587-599 | The generation counts state changes, up to saturation |
| AppServerManager.Manager.RecordStartFailure | crates/agent/src/app_server_manager.rs:663-665 | The failure time is the present |
| AppServerManager.Manager.ArmNextScheduledRestart | crates/agent/src/app_server_manager.rs:418-430 | The next restart is one interval from now, or none |
| AppServerManager.Manager.InstanceSnapshot | crates/agent/src/app_server_manager.rs:151-174 | An external app-server is probed exactly when thirty seconds have passed, and its state is the probe's result |
| AppServerManager.Manager.BeginTurn | crates/agent/src/app_server_manager.rs:176-178 | The turn count saturates at its maximum |
| AppServerManager.Manager.FinishTurn | crates/agent/src/app_server_manager.rs:180-182 | The turn count saturates at zero |
| AppServerManager.Manager.Drop | crates/agent/src/app_server_manager.rs:1143-1147 | The owned child is terminated when the manager goes away, and nothing else is done |
| ThreadTurns.HistoryTurnsPartition | apps/web/src/state.ts:186-274 | In order, the events of the history turns are the sorted history minus the events before its first message; each turn has at most one user message, as its first event; there are as many turns as user messages, plus one if an assistant message comes first |
| ThreadTurns.SegmentsPartition | apps/web/src/state.ts:206-242 | Cutting loses, repeats and reorders nothing |
| ThreadTurns.SegmentsCount | apps/web/src/state.ts:206-242 | The number of segments |
| ThreadTurns.SegmentsOpen | apps/web/src/state.ts:206-242 | How each segment starts, and that no user message comes later in it |
| ThreadTurns.TurnOfSegment | apps/web/src/state.ts:255-274 | A turn holds exactly its segment's events, in order, and what its fields say about them |
| ThreadTurns.DraftMeans | apps/web/src/state.ts:193-242 | A draft's prompt, last assistant text and distinct progress summaries in terms of its events |
| ThreadTurns.SortSorts | apps/web/src/state.ts:187-192 | Sorting orders by sequence number and time, keeps the events, and keeps the order of equal keys |
| ThreadTurns.SortIsIdle | apps/web/src/state.ts:255-259 | Sorting a turn's events again changes nothing |
| ThreadTurns.BuildHistoryTurns | apps/web/src/state.ts:186-243 | The loop with its open draft builds the history turns |
| ThreadTurns.CommandEventsOnce | apps/web/src/state.ts:159-184 | Every command event of the thread is in exactly one command group, its command's, as often as in the log, and no group holds a foreign event |
| ThreadTurns.EveryEventOnce | apps/web/src/state.ts:159-184 | Over all turns, in any order of display, every event of the thread is shown as often as it is in the log, unless it is one of the leading events of the history, and no other event is shown |
| ThreadTurns.ThreadTurnsForDisplay | apps/web/src/state.ts:159-184 | One turn for each command with events or a row in the thread, and the history turns |
| ThreadTurns.HistoryTimes | apps/web/src/state.ts:186-243 | History turns show the history without its leading events |
| ThreadTurns.GroupTimes | apps/web/src/state.ts:164-178 | Command turns show the command events |
| ThreadTurns.OrderIsIrrelevant | apps/web/src/state.ts:180-183 | The order of display does not matter for what is shown |
| ThreadTurns.UpdatedAtIsLatest | apps/web/src/state.ts:285-291 | A history turn is as recent as the latest known time of its events |
| ThreadTurns.ErrorSummaryIsLast | apps/web/src/state.ts:260-266 | A turn has an error summary exactly if it has a failure |
| ThreadTurns.GroupByCommand | apps/web/src/state.ts:164-178 | Groups for exactly the commands that have events or rows in the thread, each with its events in log order and its last row |
| ThreadTurns.TakeReply | apps/web/src/state.ts:220-239 | What an assistant message does to the drafts |
| ThreadTurns.TakeProgress | apps/web/src/state.ts:199-205 | What an event that is no message does to the drafts |
| ThreadTurns.GroupEvents | apps/web/src/state.ts:164-170 | The groups before commands without events are added |
| SnapshotMerge.ShownNeverRollsBack | apps/web/src/state.ts:566-595 | Over any sequence of snapshots no id disappears from a merged list, nothing is replaced by something older, and a thread's last_seq never decreases |
| SnapshotMerge.ShownIsIndependentOfOrder | apps/web/src/state.ts:566-595 | Without ties, what is shown for each id does not depend on how the items were spread over snapshots or in which order these arrived |
| SnapshotMerge.RemergeIsIdle | apps/web/src/state.ts:566-595 | Merging a snapshot again changes nothing in the whole payload, not even the order of a list |
| SnapshotMerge.ShowingAgainIsIdle | apps/web/src/state.ts:566-595 | After any sequence of snapshots, merging the last one again changes nothing of what is shown |
| SnapshotMerge.ShownIsUnique | apps/web/src/state.ts:566-595 | What is shown after any snapshots has each id once in every list |
| SnapshotMerge.MergeKeepsUnique | apps/web/src/state.ts:566-595 | The same for one merge |
| SnapshotMerge.ShownIsAfterAll | apps/web/src/state.ts:566-595 | What is shown of each list depends only on that list of each snapshot |
| SnapshotMerge.AfterAllHasNewest | apps/web/src/state.ts:1391-1405 | An id is shown exactly if some snapshot had it, with an item that no snapshot had a newer version of |
| SnapshotMerge.MergeNeverRollsBack | apps/web/src/state.ts:1439-1470 | One merge keeps every id, with the newer of two items |
| SnapshotMerge.PickMeans | apps/web/src/state.ts:1439-1479 | Which of two items is shown, and which of two equals |
| SnapshotMerge.MergeAgainIsIdle | apps/web/src/state.ts:1391-1405 | Merging a list again changes nothing |
| SnapshotMerge.MergedGet | apps/web/src/state.ts:1391-1405 | What the merged list holds for each id |
| SnapshotMerge.MergedIsUnique | apps/web/src/state.ts:1391-1405 | Merged lists have each id once |
| SnapshotMerge.ArrivalOrderIsIrrelevant | apps/web/src/state.ts:1391-1405 | The same for one list |
| SnapshotMerge.ConnectorsAgain | apps/web/src/state.ts:653-662 | Connectors: only incoming ones, each in its newer version; merging again changes none |
| SnapshotMerge.NewerConnectorMeans | apps/web/src/state.ts:1445-1462 | The current connector is kept exactly if both have a time and its own is later |
| SnapshotMerge.BootstrapMeans | apps/web/src/state.ts:566-605 | Every field of the merged payload that is not merged by id, also for snapshots of an older control plane |
| SnapshotMerge.OverlaidAgain | apps/web/src/state.ts:664-673 | The same for app-server instances |
| SnapshotMerge.MergeById | apps/web/src/state.ts:1391-1405 | The loops give each id of either list once, and for lists with unique ids exactly the merged list |
| SnapshotMerge.SetCurrent | apps/web/src/state.ts:1400-1403 | One round of the second loop |
| SnapshotMerge.CollectIncoming | apps/web/src/state.ts:1396-1399 | The first loop holds the last item of each incoming id |

## Left out

- SQL text, JSON and validators: tables are maps or sequences, queries are functions, texts that are only compared are numbers; validated keys and optional texts are not empty, hashes and fingerprints are injective.
- Display columns and side effects on other tables: `updated_at` of commands, states of tasks and threads, and `active_command_count`, which stealing an expired lease does not refresh for the old owner.
- Safety gates: whether an action is allowed is an argument where it decides what is written, and otherwise left out with the requests it refuses.
- Refreshing, backfilling and ensuring host sessions over sockets, and waiting for a pending refresh before dispatch: what they write to the session table is any change of the world between steps.
- Registration of connectors: retiring and migrating appear as the statements they run on commands and instances.
- The states `cancelling` and `cancelled` of a command, which no modelled statement writes.
- Commands.Apply: a statement on other tables is any change of the world (`ChangeWorld`); that sessions keep their keys is required only where a proof needs it.
- ActiveCommands.Hub.Serve: each handler runs to its end before the next; interleavings inside a handler are covered for the tables by `Commands`, not for the socket lists.
- TurnInteraction: one command and one interaction; the event's thread, sequence number and broadcast, and resuming the waiting task, are not part of it.
- UsageAccounting.UsageTable.RecordEvents: what an event adds to the other columns (output, priority, size of its summary) is given; upserts do not fail and budgets stay fixed over a run; a budget of zero has no percentage, where the original stores what the division gives.
- UsageWindows: the products with 0.9 and 0.75 are exact fractions, which the floating-point products round up to as well; years before 100, which `Date.UTC` shifts, are left out; times compare as their ISO texts do.
- Telemetry, projections and the view of constraints other than the rows-written ones.
- AppServerManager: the configuration does not change between calls, deadlines do not overflow, a status summary is not kept, and of the last error only whether it is the drain timeout; preflight, command lines, sockets and URL parsing are left out.
- SnapshotMerge: host-session updates scoped to one connector's snapshot, and the update of connectors and instances outside snapshots.
- Authentication, HTTP routing, rendering, the executor, configuration and shutdown: plumbing or easy helpers.
- Among rows created at the same time, which one a LIMIT takes is arbitrary.
- ReportCache.Reports.RecordChecked: the store's statements for one report are one step, and the connector is known to the store.
- EventSequence: the thread exists; an import whose INSERT takes effect but reports a failure leaves the table as a successful one does; usage accounting of appended and imported events is in `UsageAccounting`.
- ThreadTurns: the final order of turns for display, whose comparison is not transitive, is any order; status, texts and pending interactions of command turns; the patterns that recognise a message, which are a parameter.
