# A verified model of AgentTown Core

AgentTown Core is a single-node company runtime. Employees, played by agents,
work on tasks that depend on one another; an orchestrator drives the tasks, a
session manager owns the agents' processes, a lifecycle service pauses and stops
the company against a deadline, and an IPC server answers clients that retry and
stream the event log. This project models those parts in Dafny and proves what
they keep over every run.

JavaScript runs each stretch between two awaits as one. A component is therefore
a state and a set of steps, one step for each stretch, and everything the
program cannot foresee is an input of a step: what an adapter or the store
returns, when a write is acknowledged, what the clock shows, when the process
dies. Where the source updates an object, a class with the same fields does the
same step by step, and its methods are proved to do what the functions say that
the runs are built from.

| file | what it holds |
|---|---|
| `Company.dfy` | the check of reporting lines |
| `TaskGraph.dfy` | dependency graphs, the cycle search, sources of acyclic sets |
| `TaskModel.dfy`, `CoreStore.dfy`, `TaskOperations.dfy` | task records, the transactional tables, the task operations |
| `TaskRuns.dfy` | what holds after any sequence of task operations |
| `TaskHistory.dfy` | which commands are carried out, judged by the event log |
| `JsonText.dfy`, `StableJson.dfy`, `Fingerprint.dfy` | string quoting, canonical JSON and what it identifies |
| `Utf8.dfy`, `RequestHashes.dfy` | the bytes that are hashed, and which requests and ids share them |
| `RequestCache.dfy` | the bounded memory of completed requests as a part of an unbounded one |
| `RequestProtocol.dfy`, `RequestServer.dfy` | at-most-once execution over crashes and retries, and the server's maps |
| `EventStream.dfy` | one client's event stream, from the captured cursor to the terminal marker |
| `ClientPipeline.dfy` | the client's line framing, event queue, pausing and resuming |
| `Orchestrator.dfy`, `OrchestratorState.dfy` | drivers, reviews, the dispatch epoch and the limit on running tasks |
| `Drivers.dfy` | no running task is left without a driver, and what recovery restarts |
| `UnderWay.dfy`, `Retries.dfy` | what is in flight, what a stop stops, and what a driver does when its session ends |
| `SessionLock.dfy` | the promise-tail lock of each employee |
| `SessionOwnership.dfy`, `SessionManagement.dfy` | who owns agent handles, stop candidates, ownership versions |
| `Suspension.dfy` | the bounded cleanup loop and how a suspension ends |
| `LeaseRegistry.dfy` | client leases and the last-client callback |
| `Wrappers.dfy` | an option type, and sequences without repetition |

`dafny verify dfyconfig.toml` checks everything.

## What the code does not keep

The model follows the code where it is looser than its names or its purpose
suggest, and says exactly when.

- Canonical JSON text does not tell a number too large for a double from null
  (`Fingerprint.InfinityLooksLikeNull`); `Fingerprint.CanonicalTextIdentifies`
  says exactly which values share a text.
- A cache key stands for more than one pair of ids when an id holds a lone
  surrogate, the replacement character or a zero that can separate the ids
  elsewhere, and only then (`RequestHashes.RequestKeyIsUnsharedExactly`).
- A blocked task also leaves by an assignment, a retry or a rejection
  (`TaskRuns.BlockedTaskLeavesExactly`, a run in `TaskRuns.BlockedTaskIsAssigned`).
- An unassigned draft that is unblocked, retried or rejected becomes ready without
  an owner (`TaskRuns.RunMakesReadyWithoutOwnerExactly`, a run in
  `TaskRuns.UnassignedDraftBecomesReady`) and can never be moved again
  (`TaskRuns.ReadyWithoutOwnerIsStuck`).
- Recovery gives no new driver to a running task for which an outdated one is
  still in flight (`Drivers.RecoveryDrivesExactly`, a run in
  `Drivers.RecoveryLeavesATaskBehind`).
- The last-client callback is called one stretch after it is decided: it runs over
  a lease exactly if a client came back in between and stayed
  (`LeaseRegistry.CallbackFindsALeaseExactly`), and then a second callback can
  succeed between the same heartbeats (`LeaseRegistry.SecondCallCanFollowExactly`).
- The review loop count of a task exceeds its limit once the task is rejected again
  after an unblocking (`TaskRuns.LoopCountExceedsItsLimitExactly`), and nothing
  bounds it (`TaskRuns.ReviewLoopsAreUnbounded`).
- A session that a replacement supersedes is neither stopped nor owned any more
  (`SessionOwnership.LeftAliveExactly`). A pause or stop then succeeds over it
  (`Suspension.PausedOverReplacedSession`); a cleanup without failures leaves nothing
  alive exactly if none was left (`Suspension.OnlyLeftLivesAfterCleanup`).
- A suspension can end neither blocked nor in its terminal status with nothing
  owned (`Suspension.SuspensionEndsWellExactly`): a company stays paused over a
  live session in `Suspension.PausedOverLiveSessions`. Which store writes rule
  that out is said by `Suspension.SuspensionAlwaysEndsWellExactly`.

## Model

| member | source | states |
|---|---|---|
| `Company.ValidateOrganization` | packages/runtime-contract/src/company.ts:54-77 | Accepts exactly the rosters with unique ids, known managers and a chain from everyone to the owner; each refusal names an id at which the corresponding rule is broken. The walk ends on every roster. |
| `Company.ClimbToOwner` | packages/runtime-contract/src/company.ts:65-75 | The climb from one employee is accepted exactly if its chain reaches the owner; a cycle verdict names a manager from which the owner cannot be reached. |
| `TaskGraph.FindCycle` | packages/core/src/tasks/task-service.ts:294-315 | The visiting/visited search ends and finds no cycle exactly if the graph is acyclic, with unknown ids as leaves; a refusal names an id that lies on a cycle. |
| `TaskGraph.CycleSearch.Visit` | packages/core/src/tasks/task-service.ts:302-312 | A visit that succeeds leaves the stack as it was and has visited the id and all before it; one that throws names an id on a real cycle. |
| `TaskGraph.OrderedGraphIsAcyclic` | packages/core/src/tasks/task-service.ts:302-314 | An order in which every id stands after its dependencies rules out cycles: why a finished search may accept. |
| `TaskGraph.AcyclicSetHasASource` | packages/core/src/tasks/task-service.ts:286-292 | Every non-empty finite set of ids of an acyclic graph has one that depends on nothing inside the set. |
| `CoreStore.Store.PutTask` | packages/core/src/storage/core-store.ts:245-308 | Succeeds exactly if there is an event, no dependency, artifact or evidence is repeated and all event ids are new; then record, rows and events are all written, otherwise every table is as before. |
| `CoreStore.Store.InsertDependencies` | packages/core/src/storage/core-store.ts:282-288 | Inserting row by row fails exactly at a repeated dependency, which the primary key refuses. |
| `CoreStore.Store.InsertArtifacts` | packages/core/src/storage/core-store.ts:290-303 | Inserting row by row fails exactly at a repeated value of the kind. |
| `CoreStore.Store.InsertEvent` | packages/core/src/storage/core-store.ts:97-101 | An event is appended exactly if its id is new; otherwise the log is as before. |
| `TaskOperations.TaskService.Create` | packages/core/src/tasks/task-service.ts:64-88 | Refuses a known id, a status other than draft, an owner and a dependency cycle, in this order; otherwise the record and its event are written as one. |
| `TaskOperations.TaskService.Assign` | packages/core/src/tasks/task-service.ts:100-124 | Refusals and write of an assignment; any state from which ready is legal is accepted. |
| `TaskOperations.TaskService.Transition` | packages/core/src/tasks/task-service.ts:126-156 | Refusals and write of a generic status change: legality, the operations with a method of their own, known actor, dependencies and owner for running, review permission and evidence for completed. |
| `TaskOperations.TaskService.Submit` | packages/core/src/tasks/task-service.ts:158-186 | Refusals of a submission, and its two events and record written as one. |
| `TaskOperations.TaskService.Retry` | packages/core/src/tasks/task-service.ts:188-208 | Ready with one more retry while the budget lasts, blocked afterwards. |
| `TaskOperations.TaskService.Reject` | packages/core/src/tasks/task-service.ts:210-234 | Ready while another review loop is left, blocked afterwards; the loop is counted in both cases. |
| `TaskOperations.TaskService.Unblock` | packages/core/src/tasks/task-service.ts:236-260 | Only the owner or the leader, from any state from which ready is legal. |
| `TaskRuns.StoredGraphIsAcyclic` | packages/core/src/tasks/task-service.ts:64-77 | After any sequence of operations the stored dependency graph has no cycle. |
| `TaskRuns.EventLogIsTheRecord` | packages/core/src/tasks/task-service.ts:64-260 | After any run, folding the event log gives back exactly status, owner, counters, artifacts, evidence and event ids of every task, and nothing for unknown ids. |
| `TaskRuns.StepKeepsInvariant` | packages/core/src/tasks/task-service.ts:64-260 | Every operation keeps all table invariants: ids, acyclicity, dependencies first, owners with worktrees, evidence of submitted work, log and rows agreeing with the records, budgets, permissions. |
| `TaskHistory.CommandsAreGrantedExactly` | packages/core/src/tasks/task-service.ts:64-260 | After any run a command is carried out exactly if an event it asks for is permitted by what the log says so far and nothing in the store stands against the write (a used event id, a repeated value, a cycle); then exactly that event is appended, with the review request of a submission. The rules say by event who may cause it in which state, with which counters. |
| `TaskHistory.DescriptionsNeverChange` | packages/core/src/tasks/task-service.ts:64-88 | After any run, the title, objective, dependencies and acceptance criteria of a task are those of the one proposal that created it. |
| `TaskRuns.RetriesAndReworksStayWithinLimits` | packages/core/src/tasks/task-service.ts:188-234 | Over any run, whatever is unblocked or reassigned, a task has at most `maxTaskRetry` scheduled retries and at most `max(0, maxReviewLoops - 1)` requested reworks. |
| `TaskRuns.BegunTasksHaveEverythingTheyNeed` | packages/core/src/tasks/task-service.ts:126-156 | In every reachable store a task that is neither draft nor ready has an owner, and everything it depends on, directly or not, is completed. |
| `TaskRuns.CompletedTasksNeverChange` | packages/core/src/tasks/task-service.ts:9-17 | A completed task is the same record after any further commands. |
| `TaskRuns.SomeTaskWaitsForNothing` | packages/core/src/tasks/task-service.ts:286-292 | While unfinished tasks remain and all dependencies are known, some unfinished task has every dependency completed. |
| `TaskRuns.StepSpendsEnergy` | packages/core/src/tasks/task-service.ts:188-234 | Every status change without an assignment or an unblocking strictly lowers 4 * (retries left + review loops left) + rank; those two raise it by at most 3. |
| `TaskRuns.StatusChangesAreBounded` | packages/core/src/tasks/task-service.ts:9-17 | Over any run, the number of status changes of a task is at most its energy plus four for each assignment or unblocking. |
| `TaskRuns.BlockedTaskLeavesExactly` | packages/core/src/tasks/task-service.ts:100-124 | Exactly which operations a blocked task accepts: besides unblock, an assignment, a retry with retries left and a rejection with loops left; it always becomes ready. |
| `TaskRuns.ReadyWithoutOwnerExactly` | packages/core/src/tasks/task-service.ts:188-260 | In any store, a write makes a task ready without an owner exactly when it unblocks, retries or rejects a task nobody was assigned. |
| `TaskRuns.RunMakesReadyWithoutOwnerExactly` | packages/core/src/tasks/task-service.ts:100-260 | After any run, a task is ready without an owner exactly if at some point of the run an unblock, a retry or a rejection of the unassigned draft was written. |
| `TaskRuns.ReadyWithoutOwnerIsStuck` | packages/core/src/tasks/task-service.ts:9-17 | No command changes a ready task without an owner: it can be neither assigned nor started, unblocked, retried or rejected. |
| `TaskRuns.UnassignedDraftBecomesReady` | packages/core/src/tasks/task-service.ts:236-260 | A run from the empty store, in every company, that leaves a task ready without an owner. |
| `TaskRuns.LoopCountExceedsItsLimitExactly` | packages/core/src/tasks/task-service.ts:210-234 | After any run, the stored review loop count is the number of requested and exhausted reworks in the log, and it exceeds `maxReviewLoops` exactly if there were two exhausted reworks, or one under a limit of zero. |
| `TaskRuns.ReviewLoopsAreUnbounded` | packages/core/src/tasks/task-service.ts:210-260 | For every number there is a run, in every company with an employee who has a worktree, after which a running task was rejected that often. |
| `TaskRuns.BlockedTaskIsAssigned` | packages/core/src/tasks/task-service.ts:100-124 | A run from the empty store, in every company with an employee who has a worktree, in which a blocked task leaves by an assignment. |
| `JsonText.QuotedTextReadsBack` | packages/core/src/ipc/core-server.ts:125-136 | A quoted string (section 7 of RFC 8259, with lone surrogates escaped) reads back as itself, whatever follows its closing quote. |
| `JsonText.QuoteDelimits` | packages/core/src/ipc/core-server.ts:125-136 | Quoting is injective and marks its own end inside any text. |
| `StableJson.StableIsPlainCanon` | packages/core/src/ipc/core-server.ts:125-136 | Writing every object in the order of its sorted keys is plain printing of the value with all fields sorted. |
| `StableJson.CanonicalMeansSame` | packages/core/src/ipc/core-server.ts:129-134 | Two values have the same sorted form exactly if they are the same value up to the order of object keys, at any depth. |
| `Fingerprint.PlainDelimits` | packages/core/src/ipc/core-server.ts:125-136 | A printed value without infinities determines the value and where its text ends. |
| `Fingerprint.FiniteValuesAreIdentified` | packages/core/src/ipc/core-server.ts:125-136 | For values without infinities, the canonical texts are equal exactly if the values are the same up to key order. |
| `Fingerprint.CanonicalTextIdentifies` | packages/core/src/ipc/core-server.ts:125-136 | For all parsed JSON values, the canonical texts are equal exactly if the values are the same up to key order once numbers too large for a double count as null. |
| `Fingerprint.InfinityLooksLikeNull` | packages/core/src/ipc/core-server.ts:135-135 | A concrete pair that is told apart by value and not by text: an overflowing number and null. |
| `Utf8.BytesIdentifyCodePoints` | packages/core/src/ipc/core-server.ts:138-152 | The bytes that are hashed for a string tell exactly its code points, with every lone surrogate read as U+FFFD. |
| `Utf8.BytesReadBack` | packages/core/src/ipc/core-server.ts:138-152 | The bytes that are hashed for a string read back as its code points by the decoding of section 3 of RFC 3629. |
| `Utf8.BytesAreUnsharedExactly` | packages/core/src/ipc/core-server.ts:138-152 | A string shares its bytes with no other string exactly if it holds neither a lone surrogate nor U+FFFD. |
| `Utf8.ReplacementIsReadExactly` | packages/core/src/ipc/core-server.ts:138-152 | U+FFFD is read from a string exactly if the string holds a lone surrogate or U+FFFD itself. |
| `RequestHashes.FingerprintBytesIdentify` | packages/core/src/ipc/core-server.ts:138-144 | The bytes that are hashed are equal exactly for methods with the same code points and the same parameters in the sense above, even if a method holds zero units. |
| `RequestHashes.HashedBytesIdentify` | packages/core/src/ipc/core-server.ts:146-152 | Two pairs of ids are hashed from the same bytes exactly if their code points, with a zero in between, are the same. |
| `RequestHashes.RequestKeyIsUnsharedExactly` | packages/core/src/ipc/core-server.ts:116-152 | For an acceptable request id, a cache key belongs to no other pair of client id and acceptable request id exactly if neither id holds a lone surrogate or U+FFFD, no zero of the client id leaves room for a request id of at most 128 bytes after it, and no zero of the request id is followed by anything. |
| `RequestHashes.RequestKeysArePairs` | packages/core/src/ipc/core-server.ts:146-152 | Without limits on the ids: a pair has its key for itself exactly if neither id holds a zero, a lone surrogate or U+FFFD. |
| `RequestHashes.ZeroUnitsMergeKeys` | packages/core/src/ipc/core-server.ts:146-152 | A zero that can belong to either id gives two different pairs the same key. |
| `RequestHashes.LoneSurrogatesMergeKeys` | packages/core/src/ipc/core-server.ts:146-152 | Two different acceptable request ids without any zero that share a key under every client id. |
| `RequestCache.CompletedRequests.Complete` | packages/core/src/ipc/core-server.ts:1148-1195 | After any completion the cache still refines an unbounded table of last completions: cache and tombstones are disjoint and together the completion order, the byte counter is the exact sum within its limit, the count is within its limit, fitting tombstones are older than every cached entry. |
| `RequestCache.CompletedRequests.Lookup` | packages/core/src/ipc/core-server.ts:698-740 | A hit is given exactly for a cached key with the same fingerprint; a hit or a conflict is what the unbounded table answers; an unavailable replay is a hit there; a miss means the key is not among the newest completions. |
| `RequestCache.CompletedRequests.EvictResponses` | packages/core/src/ipc/core-server.ts:1171-1183 | The oldest cached responses become tombstones until the bytes fit, as the specification function says. |
| `RequestCache.CompletedRequests.ForgetKeys` | packages/core/src/ipc/core-server.ts:1185-1194 | The oldest keys are forgotten until the count fits, as the specification function says. |
| `RequestCache.EvictToFitKeepsTheNewest` | packages/core/src/ipc/core-server.ts:1171-1183 | Exactly the responses survive the byte limit that fit together with everything newer. |
| `RequestCache.ForgetToCountKeepsTheNewest` | packages/core/src/ipc/core-server.ts:1185-1194 | Exactly the newest keys, as many as the limit allows, survive the count limit. |
| `RequestCache.CompletionRefines` | packages/core/src/ipc/core-server.ts:1148-1195 | Any completion with these eviction rules keeps the refinement of the unbounded table. |
| `RequestCache.NewestFittingResponseSurvives` | packages/core/src/ipc/core-server.ts:1162-1183 | The response just completed is kept exactly if it fits at all. |
| `RequestServer.CoreServer.ProcessLine` | packages/core/src/ipc/core-server.ts:681-807 | One request line up to its reply or first await, as the specification function says; the rows on arrivals below say what each line is answered and which execute. |
| `RequestServer.CoreServer.ClaimMutation` | packages/core/src/storage/core-store.ts:545-574 | A claim succeeds exactly if the id was unclaimed; otherwise it stays, and the answer is duplicate or conflict by fingerprint. |
| `RequestServer.CoreServer.Settle` | packages/core/src/ipc/core-server.ts:806-828 | A flight that gets its response leaves the map only if it is still its own, is remembered, is noted in the ledger if the store can, and is answered. |
| `RequestServer.CoreServer.Wake` | packages/core/src/ipc/core-server.ts:752-768 | A request that joined a flight is answered with that flight's response, or with the error of its repeated local effect. |
| `RequestProtocol.MutationsRunAtMostOnce` | packages/core/src/ipc/core-server.ts:771-801 | Over every run with crashes, restarts, evictions and concurrent retries, a mutation is executed at most once per client and request id, and the ledger holds its fingerprint. |
| `RequestProtocol.ReusedIdConflicts` | packages/core/src/ipc/core-server.ts:698-799 | In every reachable state, a mutation that reuses a claimed id with another fingerprint is answered with a conflict and nothing else happens. |
| `RequestProtocol.ClaimedMutationsNeverRunAgain` | packages/core/src/ipc/core-server.ts:778-799 | Whatever was forgotten, a claimed id never executes again. |
| `RequestProtocol.RepliesComeFromExecutions` | packages/core/src/ipc/core-server.ts:698-770 | Every response given to anyone was returned by an execution of that very request. |
| `RequestProtocol.ClaimsStay` | packages/core/src/storage/core-store.ts:545-596 | No step, not even a crash, removes a claim or changes its fingerprint. |
| `RequestProtocol.RetriesReplayTheLastResponse` | packages/core/src/ipc/core-server.ts:698-724 | In every reachable state, a request whose response is remembered gets exactly one reply and changes nothing else: the response of the last completion of its key if it is that request, a conflict if it is another one, and an error only for a handshake or heartbeat whose repeated effect fails. |
| `RequestProtocol.ForgottenResponsesAreUnavailable` | packages/core/src/ipc/core-server.ts:726-740 | If only the fingerprint is remembered, the same request as the last completion is told that the replay is unavailable, another one conflicts, and nothing executes. |
| `RequestProtocol.RequestsInFlightAreJoined` | packages/core/src/ipc/core-server.ts:742-752 | A request in flight is not executed again: the same request waits for the execution that is under way for it, another one with its id conflicts. |
| `RequestProtocol.UnknownRequestsExecuteOnce` | packages/core/src/ipc/core-server.ts:771-806 | A request the server knows nothing of executes once, in a flight of its own that is remembered as under way, with its claim if it is a mutation; a claimed mutation is refused by fingerprint instead. |
| `RequestProtocol.NothingPrecedesTheHandshake` | packages/core/src/ipc/core-server.ts:681-688 | Before the handshake any other request is told so, and nothing executes or changes. |
| `RequestProtocol.NoTwoFlightsOfOneKey` | packages/core/src/ipc/core-server.ts:742-816 | In every reachable state at most one execution per client and request id is under way. |
| `RequestProtocol.EachLineIsAnsweredOnce` | packages/core/src/ipc/core-server.ts:681-832 | Every line adds exactly one to the replies given and owed: it is answered on arrival, or it runs or waits. |
| `RequestProtocol.FlightsAreAnsweredOnce` | packages/core/src/ipc/core-server.ts:806-828 | A flight that ends answers its request with its response, settles those that wait for it, leaves the map of requests in flight, and what is given and owed stays the same. |
| `RequestProtocol.CompletedRequestsReplay` | packages/core/src/ipc/core-server.ts:827-828 | Right after a completion, the same request is replayed the same response if that fits the memory at all, and is told that it is unavailable otherwise. |
| `RequestProtocol.WaitersAreAnsweredOnce` | packages/core/src/ipc/core-server.ts:752-768 | A waiter whose flight has ended can go on, and is answered once, with what an execution of that very request returned, unless its repeated effect fails. |
| `EventStream.ClientConnection.ForwardEvent` | packages/core/src/ipc/core-server.ts:1128-1146 | Skips what is not newer than the cursor, ends the stream at an event too large for a message, otherwise sends and advances the cursor only if the write happened. |
| `EventStream.ClientConnection.Send` | packages/core/src/ipc/core-server.ts:1197-1235 | Writes a message exactly if the connection lives and it fits with everything queued; otherwise the connection is destroyed. |
| `EventStream.ClientConnection.TerminateEventStream` | packages/core/src/ipc/core-server.ts:1237-1274 | Ends the stream at most once, unsubscribes, and writes the marker beyond the normal limit. |
| `EventStream.ClientConnection.StartEventSubscription` | packages/core/src/ipc/core-server.ts:1118-1126 | Subscribes and hands over the stored events after the cursor in one stretch. |
| `EventStream.StreamIsAsExpected` | packages/core/src/ipc/core-server.ts:1060-1146 | In every run whose handshake asked for a sequence number (or, by the live-only value, for the end of the log at that step), for every interleaving of inserts, subscription, responses, acknowledgements and closing: nothing is streamed before the subscription; from then on a living connection was sent exactly what follows the number asked for, up to the first event that fits no message, then a marker for that one; a destroyed one was sent a prefix. |
| `EventStream.SentMessageIsFromTheLog` | packages/core/src/ipc/core-server.ts:1060-1146 | The i-th stream message is the event with sequence number asked + i + 1, or the marker for it, and a marker is the last message. |
| `EventStream.ExpectedIsARunOfTheLog` | packages/core/src/ipc/core-server.ts:1132-1146 | The expected stream has no gap and no repetition and stops only at the end or at an event that is too large. |
| `EventStream.QueuedBytesAreBounded` | packages/core/src/ipc/core-server.ts:1217-1274 | The queue counter is the size of exactly those messages on the wire that the socket has not finished, and exceeds the limit only by the marker. |
| `EventStream.EventsCutOffExactly` | packages/core/src/ipc/core-server.ts:1128-1235 | The next event destroys a subscribed connection exactly if it is new to the client and fits a message but not what waits on the socket; it ends the stream exactly if it is new and fits no message. |
| `EventStream.ResponsesCutOffExactly` | packages/core/src/ipc/core-server.ts:1197-1235 | A response destroys a living connection exactly if what is sent for it, itself or the error in its place, does not fit what waits; otherwise exactly that is written. |
| `EventStream.ClientConnection.Handshake` | packages/core/src/ipc/core-server.ts:1060-1062 | The cursor becomes the number asked for, or the latest one for the live-only value. |
| `EventStream.TerminalMarkerFits` | packages/core/src/ipc/core-server.ts:305-312 | The marker fits the smallest allowed limit for every exact sequence number. |
| `ClientPipeline.EventQueue.Push` | packages/cli/src/client.ts:46-65 | Gives the event to the first waiter, or queues it within 256 events and 4 MiB, or refuses. |
| `ClientPipeline.EventQueue.Close` | packages/cli/src/client.ts:67-77 | Empties the queue and settles every waiter, once. |
| `ClientPipeline.AgentTownClient.Consume` | packages/cli/src/client.ts:357-401 | Handles the buffered lines as the specification function says, of which the rows below say when the client closes, when it pauses and which events it delivers. |
| `ClientPipeline.AgentTownClient.Next` | packages/cli/src/client.ts:79-95 | Takes the first event and resumes reading at the watermark, or waits, or reports the end. |
| `ClientPipeline.AgentTownClient.ResumeInputIfPossible` | packages/cli/src/client.ts:403-414 | Reads on at 128 events or fewer, and resumes the socket only if that did not pause again. |
| `ClientPipeline.ClientClosesExactly` | packages/cli/src/client.ts:357-424 | Over every chunking and interleaving: the client is closed only over a faulty text (an overlong line or unfinished tail, or a malformed line), a failed connection or a finished one; over a faulty text it is open only while it is paused before the fault; and later calls are rejected unless the connection finished. |
| `ClientPipeline.ReadingPausesForRoom` | packages/cli/src/client.ts:376-383 | Arriving text pauses an open client only before an event the queue has no room for, at 256 events or 4 MiB, with the socket paused. |
| `ClientPipeline.FullQueuePauses` | packages/cli/src/client.ts:376-383 | An event that finds no room is put back; the client stays open and paused and keeps every queued event. |
| `ClientPipeline.ReadingResumesAtTheWatermark` | packages/cli/src/client.ts:403-414 | Taking an event from a paused client reads nothing while more than 128 events stay queued; at 128 it reads on until the text is handled, a fault, or the next event without room. |
| `ClientPipeline.KthCallGetsKthEvent` | packages/cli/src/client.ts:46-95 | For every chunking of the text and every interleaving of calls, the k-th call of `next` gets the k-th event of the received text, waits while open, or finds the queue closed. |
| `ClientPipeline.NextEventIsReturnedAtOnce` | packages/cli/src/client.ts:79-95 | On an open client with an event not yet delivered, a call returns the next one at once: reading never stalls. |
| `ClientPipeline.CallsWaitOnlyForText` | packages/cli/src/client.ts:79-95 | A call waits only when every event received so far was delivered and the socket is being read. |
| `ClientPipeline.PausedInputLeavesEvents` | packages/cli/src/client.ts:376-414 | The byte counter is exact and both limits hold; reading is paused only over a non-empty queue that is above the watermark or has no room for the next line. |
| `ClientPipeline.OpenInputIsHandled` | packages/cli/src/client.ts:357-401 | While reading is not paused, delivered and queued events are exactly the events received. |
| `ClientPipeline.PutBackSaysTheSame` | packages/cli/src/client.ts:371-383 | A line put back trimmed stands for the same events as the line it came from. |
| `ClientPipeline.TrimIsIdempotent` | packages/cli/src/client.ts:371-371 | Trimming twice is trimming once and never adds bytes or newlines. |
| `OrchestratorState.CompanyOrchestrator.StartReadyTask` | packages/core/src/company/orchestrator.ts:520-528 | With capacity the task is set running and its driver starts; without it an approval is asked for and nothing starts. |
| `OrchestratorState.CompanyOrchestrator.HasRunningCapacity` | packages/core/src/company/orchestrator.ts:530-534 | True exactly if fewer tasks run than the company allows. |
| `OrchestratorState.CompanyOrchestrator.SendTail` | packages/core/src/company/orchestrator.ts:179-212 | After the event stream: nothing if the epoch is over or the task no longer runs, otherwise failed, retried, and blocked, held back or resumed. |
| `OrchestratorState.CompanyOrchestrator.RestartTask` | packages/core/src/company/orchestrator.ts:213-246 | After an awaited replacement the epoch and the capacity are checked again before the task is set running. |
| `OrchestratorState.CompanyOrchestrator.RecoverWork` | packages/core/src/company/orchestrator.ts:319-352 | Recovers running tasks and reviews as the specification function says; `Drivers.RecoveryDrivesExactly` and `Drivers.RecoveryReviewsExactly` say which. |
| `OrchestratorState.CompanyOrchestrator.StopDispatching` | packages/core/src/company/orchestrator.ts:308-312 | Refuses actions and begins a new epoch. |
| `Orchestrator.ContinuationsWriteInTheirEpoch` | packages/core/src/company/orchestrator.ts:135-306 | Whatever stops and resumes happen at its awaits, every command issued by a driver or a review is issued while the epoch it captured is current. |
| `Orchestrator.StoppedWorkNeverWrites` | packages/core/src/company/orchestrator.ts:308-317 | After a stop, no driver or review that was started before it issues any command. |
| `Orchestrator.RunningTasksStayWithinLimit` | packages/core/src/company/orchestrator.ts:202-245 | Under every interleaving of dispatches, starts, rejections, retries after awaited replacements, recovery and outside commands, at most `maxParallelTasks` tasks run, and the tables keep all invariants of the task service. |
| `Drivers.StartedTasksHaveDrivers` | packages/core/src/company/orchestrator.ts:135-247 | For every interleaving, with event ids that are never reused: a task that runs and was set running since the last stop has a driver of the current epoch that will look at it again. |
| `Drivers.DriverStaysWithItsTask` | packages/core/src/company/orchestrator.ts:135-247 | In every reachable state, a process that drives a task in the current epoch goes on driving it over any stretch, unless the task does not run afterwards or a stop outdates the driver. |
| `Drivers.RecoveryDrivesExactly` | packages/core/src/company/orchestrator.ts:319-326 | After any run, recovery leaves a running task with a driver of the current epoch exactly if it had one or nothing is in flight for it; the cut at `maxParallelTasks` never drops a task. |
| `Drivers.RecoveryReviewsExactly` | packages/core/src/company/orchestrator.ts:326-351 | After any run, recovery has every listed task in review in flight; exactly one new continuation waits to review it in the current epoch if nothing was in flight for it before, and otherwise, or for any other task, none is added; whatever was under way stays. |
| `Drivers.RecoveryLeavesATaskBehind` | packages/core/src/company/orchestrator.ts:308-326 | A run from the start (propose, assign, start, stop, resume) after which recovery leaves a running task without a driver of the current epoch. |
| `UnderWay.InFlightIsUnderWay` | packages/core/src/company/orchestrator.ts:319-352 | Over every run: a task that is in flight has a process that is under way for it, so what has ended never keeps a task from being recovered. |
| `UnderWay.UnattendedTasksAreTakenUp` | packages/core/src/company/orchestrator.ts:319-352 | After any run, recovery gives a driver to a running task and a waiting review to a task in review whenever no process is under way for it. |
| `UnderWay.StoppedCompanyWritesNothing` | packages/core/src/company/orchestrator.ts:94-96 | From a stop until it resumes or recovers, the company writes no event and changes no task, whatever its continuations hear and whoever asks for an action. |
| `Orchestrator.ActionsIssueTheirCommand` | packages/core/src/company/orchestrator.ts:94-127 | An action that stands for a task operation is carried out exactly if the policy allows it, actions are accepted and the operation succeeds; then its command is the first one issued, and otherwise nothing changes. |
| `Orchestrator.SubmissionsAreReviewed` | packages/core/src/company/orchestrator.ts:399-409 | A submission that is carried out awaits a review of that task by the reviewer at once, and fails only without a reviewer. |
| `Orchestrator.ContinuationsCarryOutActions` | packages/core/src/company/orchestrator.ts:146-165 | What a driver's employee or the reviewer proposes for the task at hand in the current epoch is issued, if its operation succeeds. |
| `Orchestrator.ReviewsEndDecidedOrAsked` | packages/core/src/company/orchestrator.ts:258-306 | A current review that ends without an error has a decision, or the user was asked, or the task is no longer in review. |
| `Retries.EndedStreamsAreRetried` | packages/core/src/company/orchestrator.ts:175-246 | In every reachable state: when the stream of a current driver ends while its task runs, the task is ready with one more retry, or blocked if none is left; no other task changes; and the driver waits for a new session exactly if there is one to replace and a retry left, and asks the user if none is left. |
| `Retries.FaultsEndTheStream` | packages/core/src/company/orchestrator.ts:151-171 | A session fault, an action for another task and an action that failed make a current driver stop listening, so that the task is failed and retried next. |
| `Retries.ReplacedSessionsGoOn` | packages/core/src/company/orchestrator.ts:240-246 | With capacity and a legal start, the replaced session runs the task again under the driver that waited. |
| `SessionLock.MutualExclusion` | packages/core/src/agents/session-manager.ts:610-624 | At most one caller holds the session of an employee. |
| `SessionLock.GrantedInOrderOfArrival` | packages/core/src/agents/session-manager.ts:610-624 | Nobody is granted before everyone who came earlier has left. |
| `SessionLock.EntryIsDroppedWhenNobodyIsLeft` | packages/core/src/agents/session-manager.ts:617-623 | The map entry is absent exactly if every caller has left, so no one gets ahead of a waiter. |
| `SessionLock.FirstInLineCanGoOn` | packages/core/src/agents/session-manager.ts:610-616 | The first caller that has not left holds the lock or can go on. |
| `SessionLock.SessionLocks.Acquire` | packages/core/src/agents/session-manager.ts:610-616 | Waits for the promise left by the caller before, and leaves its own. |
| `SessionLock.SessionLocks.Leave` | packages/core/src/agents/session-manager.ts:618-623 | Resolves the own promise and drops the entry only if it is still the own one. |
| `SessionOwnership.LiveHandlesAreOwned` | packages/core/src/agents/session-manager.ts:384-466 | For every run: a handle an adapter returned is a session or kept for cleanup until it was stopped or superseded, even when stops and persistence fail. |
| `SessionOwnership.CancelledReplacementsAreNeverInstalled` | packages/core/src/agents/session-manager.ts:493-511 | A replacement cancelled while pending never becomes a session. |
| `SessionOwnership.StopsCancelWhatIsPending` | packages/core/src/agents/session-manager.ts:239-251 | A stop of all sessions cancels every pending replacement. |
| `SessionOwnership.EqualVersionsMeanNoChange` | packages/core/src/agents/session-manager.ts:297-319 | Equal snapshot versions imply the same sessions, cleanup handles and pending replacements at every moment in between. |
| `SessionOwnership.WithoutOwnersOnlyLeftLive` | packages/core/src/agents/session-manager.ts:430-466 | When nothing is owned, the handles still alive (returned by an adapter and not stopped since) are exactly those that a replacement superseded. |
| `SessionOwnership.StopReleasesExactly` | packages/core/src/agents/session-manager.ts:268-289 | A successful stop releases its handle and no other, exactly unless it ended a session and the store could not note that. |
| `SessionOwnership.StoppingAllReleasesAll` | packages/core/src/agents/session-manager.ts:239-295 | After any run without a pending replacement in which employees have different sessions: stopping all that is collected, each stop successful and noted, leaves nothing owned, and alive only what was superseded. |
| `SessionOwnership.LeftAliveExactly` | packages/core/src/agents/session-manager.ts:666-673 | After any run, a handle is left alive exactly since a replacement superseded it while it was alive, with no stop of it and no return of it by an adapter since. |
| `SessionOwnership.ReplacedSessionIsLeftAlive` | packages/core/src/agents/session-manager.ts:430-466 | A run (start, rebuild, stop all) for every employee and any two handles in which no step stops the first session: nothing is owned in the end, and it is alive. |
| `SessionManagement.SessionManager.CollectStopCandidates` | packages/core/src/agents/session-manager.ts:513-546 | The candidates are exactly the owned handles, with distinct orders, strictly descending. |
| `SessionManagement.SessionManager.BeginStops` | packages/core/src/agents/session-manager.ts:239-275 | Cancels what is pending, and begins stops for a first part of the candidates only; every begun stop had a clock reading before the deadline, and none begins once aborted. |
| `SessionManagement.SessionManager.InstallReplacement` | packages/core/src/agents/session-manager.ts:666-673 | A persisted replacement becomes the session, leaves the cleanup handles, and the handle it supersedes is forgotten. |
| `SessionManagement.SessionManager.FinishStop` | packages/core/src/agents/session-manager.ts:268-289 | A stopped handle leaves sessions and cleanup unless the store could not note it; a newer session of the employee stays. |
| `SessionManagement.SessionManager.RetainForCleanup` | packages/core/src/agents/session-manager.ts:685-692 | Keeps a handle with its order and raises the version. |
| `SessionManagement.SessionManager.CancelPendingReplacements` | packages/core/src/agents/session-manager.ts:321-330 | Marks every pending replacement and changes nothing else. |
| `SessionManagement.SessionManager.CleanupOwnershipSnapshot` | packages/core/src/agents/session-manager.ts:297-319 | Shows every session, every other handle kept for cleanup and every pending replacement as what it is, and nothing else; no owner exactly if nothing is owned. |
| `Suspension.CleanupWithinDeadline` | packages/core/src/lifecycle/checkpoint-service.ts:751-836 | Ends because the clock passes the deadline, and is a sequence of turns each of which does what it must by what it reads (the rows below say what follows). An empty list of failures comes only with a last snapshot without owners, before the deadline only if ownership was stable; failures come only after the deadline or from a forced stop that failed. Where nothing is owned and nothing changes, the list is empty. |
| `Suspension.CleanupStopsWhatIsOwned` | packages/core/src/lifecycle/checkpoint-service.ts:760-792 | Every turn but the last begins a stop, and the first one does if it finds owners and its first two clock readings are before the deadline. |
| `Suspension.WhatIsLeftIsForced` | packages/core/src/lifecycle/checkpoint-service.ts:784-834 | In any turn, a graceful stop that left something in time is followed by a forced one; if that leaves something in time too, the cleanup ends and its result is exactly the failures of that stop. |
| `Suspension.StableCleanupSucceeds` | packages/core/src/lifecycle/checkpoint-service.ts:795-831 | In any turn, if the last stop left nothing in time and the next two looks find no owner and one version, the cleanup ends without failures. |
| `Suspension.StuckCleanupStopsTwice` | packages/core/src/lifecycle/checkpoint-service.ts:784-834 | Owners that two stops leave in time: exactly one graceful and one forced stop are begun, and the result is what the forced one left. |
| `Suspension.StoppedCleanupStopsOnce` | packages/core/src/lifecycle/checkpoint-service.ts:784-812 | Owners that one stop ends in time, found stably gone: exactly one stop is begun, and nothing has failed. |
| `Suspension.OwnershipIsStablyEmpty` | packages/core/src/lifecycle/checkpoint-service.ts:838-844 | True exactly if two snapshots in a row had no owners and the same version; the second is taken only if the first had none. |
| `Suspension.Suspend` | packages/core/src/lifecycle/checkpoint-service.ts:260-351 | One call: how it ends follows from which store writes succeed and from what its cleanups return, and each cleanup that ran is honest about what it saw. |
| `Suspension.SuspensionEndsWellExactly` | packages/core/src/lifecycle/checkpoint-service.ts:260-351 | For every call over every history of the session manager: it ends blocked, or in its terminal status with nothing owned at its last look, exactly unless it fell back, could not block the company, was not already blocked, and either another status was stored or something was owned at the last look. |
| `Suspension.SuspensionReportsWellExactly` | packages/core/src/lifecycle/checkpoint-service.ts:260-351 | The same judged by what the cleanup that ran last reports; a report without failures means that nothing is owned and that the handles alive are exactly the superseded ones. |
| `Suspension.SuspensionAlwaysEndsWellExactly` | packages/core/src/lifecycle/checkpoint-service.ts:260-351 | If stops settle, a suspension ends well whatever the sessions do exactly if the last blocking write succeeds, or all writes up to the first blocking one do, or the first write fails on a company that was blocked before. |
| `Suspension.PausedOverLiveSessions` | packages/core/src/lifecycle/checkpoint-service.ts:260-351 | A run of the suspension over a session that cannot be stopped: it ends paused, with the handle alive at its last look. |
| `Suspension.OnlyLeftLivesAfterCleanup` | packages/core/src/lifecycle/checkpoint-service.ts:751-844 | When the cleanup reports no failure, the handles alive at its last look are exactly the superseded ones; nothing is alive if and only if none was left. |
| `Suspension.PausedOverReplacedSession` | packages/core/src/lifecycle/checkpoint-service.ts:260-351 | A run of the suspension that succeeds over a replaced session that is alive and owned by nobody. |
| `Suspension.StablyEmptyStaysEmpty` | packages/core/src/lifecycle/checkpoint-service.ts:838-844 | An ownership found stably empty was empty at every moment between the two looks. |
| `LeaseRegistry.OneCallbackAtATime` | packages/core/src/ipc/lease-registry.ts:46-69 | At most one last-client callback is in flight. |
| `LeaseRegistry.CallbackIsDecidedExactly` | packages/core/src/ipc/lease-registry.ts:36-69 | Any step decides on a callback exactly when it looks (a disconnect, a sweep, or a call that goes on after a success it waited for), nothing is in flight, there was a lease, none remains, and every callback since the last heartbeat failed; so failures are retried. |
| `LeaseRegistry.LastClientIsNotForgotten` | packages/core/src/ipc/lease-registry.ts:36-69 | When there was a lease, none remains and nobody waits to look again, a callback was decided since the last heartbeat, or the last one has failed, so that the next look retries it. |
| `LeaseRegistry.CallsWaitOnce` | packages/core/src/ipc/lease-registry.ts:46-50 | Every disconnect or sweep waits for a callback in flight in one place at most. |
| `LeaseRegistry.OneSuccessBetweenHeartbeats` | packages/core/src/ipc/lease-registry.ts:46-69 | Between two heartbeats at most one callback is decided that does not fail. |
| `LeaseRegistry.LeaseIsHeldExactly` | packages/core/src/ipc/lease-registry.ts:27-44 | A client has a lease exactly from its last heartbeat until it is disconnected or swept after the lease ran out. |
| `LeaseRegistry.CallbackFindsALeaseExactly` | packages/core/src/ipc/lease-registry.ts:46-69 | At any time after its decision, in particular when its turn comes, a callback finds a lease exactly if some client beat since the decision and was neither disconnected nor swept since. |
| `LeaseRegistry.CallbackRunsWithoutLeases` | packages/core/src/ipc/lease-registry.ts:57-67 | A callback whose turn comes before any new heartbeat finds no lease. |
| `LeaseRegistry.CallbackCanRunOverALease` | packages/core/src/ipc/lease-registry.ts:57-67 | A client that comes back between decision and call: the callback runs although a lease is there. |
| `LeaseRegistry.SecondCallNeedsAReturn` | packages/core/src/ipc/lease-registry.ts:46-69 | If two callbacks, the first of which does not fail, are called between the same heartbeats, the second is decided between them too, and a heartbeat came between the decision and the call of the first. |
| `LeaseRegistry.SecondCallCanFollowExactly` | packages/core/src/ipc/lease-registry.ts:46-69 | When a callback has just been called, a continuation without heartbeats in which it succeeds and another one is called exists exactly if a client beat between its decision and its call. |
| `LeaseRegistry.TwoCallsCanSucceedBetweenHeartbeats` | packages/core/src/ipc/lease-registry.ts:46-69 | A run in which that happens. |
| `LeaseRegistry.Leases.TriggerIfEmpty` | packages/core/src/ipc/lease-registry.ts:46-69 | Waits for the callback in flight, or decides on one, or does nothing. |
| `LeaseRegistry.Leases.Sweep` | packages/core/src/ipc/lease-registry.ts:41-44 | Deletes exactly the leases that are due and looks again. |

## Left out

- Company ids: the tables hold one company, and the foreign key on `companies` is not part of the model.
- SQLite, SQL text, files, timestamps and the listeners of the store: a transaction is all or nothing, and the event log is a sequence.
- SHA-256: fingerprints and keys are compared as the bytes that are hashed. The request protocol and the cache take a key to be the pair of ids, and a fingerprint to be the method and the canonical parameters; `RequestHashes.RequestKeyIsUnsharedExactly` and `RequestHashes.FingerprintBytesIdentify` say when that is so, and what other ids share is not part of the protocol model.
- `Array.prototype.sort` and object property order: sorting is insertion by code units, and an object is its list of own properties.
- Parsing and shape checks of requests, checkpoints and YAML, the action policy (its verdict is an input), approval wording and handoff texts.
- Limits that change between restarts: the company definition is fixed over a run.
- TaskRuns.EventLogIsTheRecord: assumes that tasks are created as the orchestrator does, with zero counters and no artifacts; a creation with other counters writes an event that does not tell them.
- RequestProtocol.MutationsRunAtMostOnce: the store's claim and the start of the execution are one stretch, with a crash possible between them; an adapter that repeats an effect on its own is not modelled.
- The id a cycle refusal names is one on a cycle; which one depends on the order in which ids are visited, and the model visits them in any order.
- EventStream.StreamIsAsExpected: speaks of the first handshake of a connection; a repeated handshake on a subscribed connection can move the cursor before the replay. What is written after the socket was ended, and inbound limits, are not part of the model.
- The client's pending requests, its write queue and its heartbeat: only their share in the line loop is modelled, and what a line says is a function of its text.
- Orchestrator: `dispatch`, `requestReview` and the routing of messages are functions on values here; update in place is shown for capacity, starts, the end of `sendTask`, stops and recovery in `OrchestratorState`. Recovered reviews run in any order here, while the source runs them one after the other; the abort signals and the company status are left out; a session manager that does not know the owner's session is an input.
- Employee messages: commands issued by actions that come in through the routing of messages are not fenced by the epoch, in the source as in the model.
- SessionOwnership.LiveHandlesAreOwned: `startAll` is one block, so that its own awaits, during which started handles are not yet registered, are not observed; two starts at once are not modelled; employee ids are distinct. A stop that succeeds after it was given up, and a process that ends by itself, count as not stopped.
- SessionOwnership.StartAll: a function on values, and the order in which started handles are stopped again decides nothing that is claimed.
- Handles are their own keys; the JSON text of the key is injective like every quoted text.
- Suspension.CleanupWithinDeadline: assumes that the clock never goes back and reaches the deadline; how stops end is an input, as `SessionManagement.SessionManager.BeginStops` and `FinishStop` tell what they do. Recovery, the single running lifecycle operation, interrupts and phase signals would only add easy members and are left out.
- Suspension.SuspensionAlwaysEndsWellExactly: speaks of stops that settle; `stopAllBounded` rejects only for a handle whose adapter is not configured.
- Status rendering, CLI commands, path validation, templates, the desktop spike, adapters, the probe runner and the scripts.
