# Work distribution: a verified model

The repository hands staged tasks to workers over interchangeable transports. A manager persists a
task, dispatches it, receives the events its worker emits, persists the terminal status and
publishes every event to the subscribers of the task's owner. This project models that lifecycle
and its transports and proves what they guarantee.

## How it is built

- **Objects.** The in-memory store, the SQL table, the channel transport, the event bridge, the
  hub, the manager, the WebSocket dispatcher and the gRPC server are classes. Each method is
  proved against a function of the old state, and the theorems are about those functions.
- **Interleavings.** Patterns 1, 3 and 4 and the bridge are step machines: one step for each channel operation,
  locked section or store call, enabled by a guard, and a run is any sequence of enabled steps.
  The machines use the same functions that the classes are proved against (`TaskStore.Apply`,
  `Transport.Offer`, `Transport.EmitOutcomeOf`, `Pattern3.Dispatched`). A blocking operation is a
  step that is not enabled, and in a class an outcome `None` or `Blocks`. The Pattern 1 machine
  holds the pump's bridge channel and each hub subscriber as values, with the capacity and the
  `Offer` of the bridge and hub classes. The `Undisturbed...` lemmas connect a machine's steps to
  the method they belong to.
- **Pinned by the steps.** What a machine's state holds is also stated in terms of the steps taken
  so far (`FirstDispatchedFirstTaken`, `RegisteredIff`, `StreamIff`, `LiveIff` and others), and the
  functions that methods are proved against have a statement of what they mean (`...Exactly`).
- **History.** Some state fields record what happened (`received`, `rejected`, `log`, `published`,
  `delivered`, `accepted`, `sent`). No step reads them; the theorems speak about them.
- **Inputs.** Clock readings, generated ids, the dispatcher's answer, which select branch sees a
  cancelled context, request durations and JSON/HMAC are parameters.

| file | content |
|---|---|
| Models.dfy, Executor.dfy, Subsequences.dfy | tasks and events, the trace of one execution, in-order subsequences |
| TaskStore.dfy | the store specification, both stores and their agreement |
| Transport.dfy, EventBus.dfy, BridgeProtocol.dfy | channels, the in-process transport, the bridge and the hub, and the bridge as a step machine |
| Manager.dfy | the manager, its lifecycle, and the timing of the deadline loop |
| Pattern1.dfy | the whole Pattern 1 system as a step machine |
| Pattern1Conservation, -Queue, -Store, -Order, -Publish, -Delivery, -Liveness, -Stranding | its theorems: one place per task, order of the channels, stored lifecycle, event order, what is published and to whom, complete delivery, termination and completion, what cancellation strands |
| Pattern1Runs.dfy | runs that show what Pattern 1 does not promise |
| Pattern3.dfy, Pattern3Protocol.dfy, Pattern3History.dfy | the round-robin scheduler, the connection protocol, and what the steps so far say about members and tasks |
| Pattern4.dfy, Pattern4History.dfy | the gRPC dispatch loop, and what the steps so far say about streams, tasks and tokens |
| Sse.dfy, Converter.dfy, Token.dfy, Renewal.dfy | framing, protobuf, tokens and their renewal |

## Where the code promises less than one might read into it

Each of these has a run or an input that shows it, and the exact condition under which it does not
happen.

- Subscribers may miss any event, also terminal ones. In `SlowSubscriberMissesTheEnd` four ordinary
  tasks complete, nothing is cancelled, and a subscriber that does not read misses the end of the
  last one. A subscriber has everything exactly when no step lost an event about the task
  (`CompleteDelivery`, `EveryEventArrives`).
- A cancelled context can leave a task pending for ever: the event loop stops, or all workers leave
  while the task is queued (`Pattern1Runs.StoppedLoopStrands`, `ExitedWorkersStrand`). In every state
  of every run an unsettled task can never settle exactly when Submit has let go of it and one of
  the two has happened (`StrandedIff`). Termination is stated for all states, completion of
  everything for uncancelled ones.
- A completed task can become failed: the deadline loop may dispatch it twice
  (`CompletedCanBecomeFailed`). It stays completed exactly when the last terminal event about it
  says completed (`CompletedStaysIff`, and `LastStatusWins` for any use of the store). In Pattern 1,
  which has no deadline, a terminal status never changes (`SettledForever`).
- `Submit` stamps the dispatch time after dispatching, so it can be later than the completion time
  (`StampedAfterCompletion`), exactly when the event loop persists the end first
  (`DispatchTimeFirstIff`).
- The two stores disagree after a non-terminal status is put on a task that has a completion time
  (`UndisciplinedDisagree`), and only then (`AgreeStepIff`). Setting a missing task's status is an error in memory and not in SQL.
- The gRPC loop can block for ever when it re-queues into a full channel (`StuckReachable`,
  `RequeueIntoFullChannelNeverEnds`), and that is the only way it gets stuck (`LoopMovesIff`).
- In Pattern 3 a terminal event that arrives on another connection than its task did can free a
  worker that has a task outstanding, which is then given a second one (`ForeignReportDoublesTasks`).
  The protocol holds exactly when no foreign report finds a task outstanding (`ProtocolHoldsIff`).

## Model

| member | source | states |
|---|---|---|
| Models.NewTask | shared/models/task.go:17-41 | clamps the stage count to 1..8, numbers and names the stages from the table, all names different, pending and without times |
| Executor.Run | shared/executor/executor.go:24-70 | the loop emits exactly the completed trace, or the trace cancelled in the stage whose select saw the context done |
| Executor.TraceShape | shared/executor/executor.go:24-70 | every execution starts with running and ends with its only terminal event; 2n+2 events when completed, 2k+3 when cancelled in stage k, whose start is then the last event but one |
| Executor.CompletedEvents | shared/executor/executor.go:24-70 | every field of every event of a completed execution: running, for each stage k of n its name and the percentage p with p\*n <= 100\*k < (p+1)\*n at its start and the same for k+1 at its end, completed |
| Executor.CancelledEvents | shared/executor/executor.go:46-53 | a cancelled execution agrees with the completed one up to the start of its stage and then fails |
| Executor.StageBoundaries | shared/executor/executor.go:33-62 | progress is 0 at the start, agrees where one stage ends and the next starts, and ends at exactly 100 |
| Executor.CompletedTraceOrder | shared/executor/executor.go:24-70 | progress stays in 0..100 and never decreases, nothing follows a terminal event, every event names the task and no user |
| Executor.TracePrefixOrder | shared/executor/executor.go:24-70 | the same order for every unfinished or cancelled execution |
| Executor.SignaturesDistinctIff | shared/testutil/helpers.go:269-275 | event signatures are pairwise distinct if and only if there are at most 100 stages and neighbouring stages have different names |
| Executor.PrefixSignaturesDistinct | shared/testutil/helpers.go:269-275 | unfinished and cancelled executions keep the signatures distinct |
| Executor.NewTaskSignaturesDistinct | shared/models/task.go:17-41 | every execution of a task made by NewTask has pairwise distinct signatures |
| TaskStore.MemoryStore.Create | shared/store/memory.go:23-32 | adds the task, or refuses an existing id and changes nothing |
| TaskStore.MemoryStore.Get | shared/store/memory.go:34-42 | the stored task, or none |
| TaskStore.MemoryStore.List | shared/store/memory.go:44-52 | every stored task exactly once, in some order |
| TaskStore.MemoryStore.SetStatus | shared/store/memory.go:54-67 | sets the status, and the completion time when the status is terminal; an error for a missing id |
| TaskStore.MemoryStore.SetDispatchedAt | shared/store/memory.go:69-78 | sets the dispatch time; an error for a missing id |
| TaskStore.CallExactly | shared/store/memory.go:23-78 | a call fails if and only if it creates a stored id or updates a missing one, and then changes nothing; otherwise it changes its own task, in the fields it names, and no other |
| TaskStore.LifecycleInvariant | shared/manager/manager.go:44-65 | for every call sequence a manager can issue: stored status is pending, completed or failed, terminal is absorbing, the completion time is set exactly when terminal, owner, name and stages never change |
| TaskStore.LastStatusWins | shared/store/memory.go:54-67 | for every call sequence a stored task has the status that was set last, or the one it had when none was set |
| PgStore.Store.Create | patterns/p05/internal/postgres/store.go:39-51 | inserts the row, or fails on the primary key and changes nothing |
| PgStore.Store.Get | patterns/p05/internal/postgres/store.go:53-62 | the row with that id, or none |
| PgStore.Store.List | patterns/p05/internal/postgres/store.go:64-82 | a permutation of the rows in order of submission |
| PgStore.Store.SetStatus | patterns/p05/internal/postgres/store.go:84-95 | updates status and completion time of the matching rows, storing an absent time too |
| PgStore.Store.SetDispatchedAt | patterns/p05/internal/postgres/store.go:97-101 | updates the dispatch time of the matching rows |
| PgStore.StoresAgree | patterns/p05/internal/postgres/store.go:39-101 | after every disciplined call sequence both stores hold the same tasks, answer every Get alike and refuse the same creates |
| PgStore.AgreeStepIff | patterns/p05/internal/postgres/store.go:84-95 | one call keeps agreeing stores in agreement if and only if it does not put a non-terminal status on a task with a completion time |
| PgStore.UndisciplinedDisagree | patterns/p05/internal/postgres/store.go:84-95 | for every task the stores agree after it is completed and disagree after it is then set to running |
| PgStore.AgreeList | shared/store/memory.go:44-52 | listings of agreeing stores are equal up to order |
| Transport.ChannelTransport.Dispatch | patterns/p01/internal/goroutine/dispatcher.go:34-41 | queues the task exactly when there is room, else refuses at once |
| Transport.ChannelTransport.ReceiveTask | patterns/p01/internal/goroutine/consumer.go:24-31 | takes the oldest queued task; blocks exactly when there is none |
| Transport.ChannelTransport.ReceiveEvent | patterns/p01/internal/goroutine/dispatcher.go:44-51 | takes the oldest event; blocks exactly when there is none |
| Transport.ChannelTransport.Emit | patterns/p01/internal/goroutine/consumer.go:36-48 | a terminal event is never dropped and waits for room, any other event is dropped exactly when the channel is full |
| EventBus.MemoryBridge.Publish | shared/events/memory.go:22-34 | offers the event to every live channel, each of them open, dropping where full |
| EventBus.MemoryBridge.Subscribe | shared/events/memory.go:36-40 | adds a fresh open empty channel |
| EventBus.MemoryBridge.Remove | shared/events/memory.go:43-46 | takes the channel out of the live set before it is closed |
| EventBus.MemoryBridge.Close | shared/events/memory.go:47-47 | closes a channel that is no longer live, keeping every live channel open |
| EventBus.Hub.Subscribe | shared/sse/hub.go:26-33 | adds a fresh channel for that user only |
| EventBus.Hub.Unsubscribe | shared/sse/hub.go:35-42 | removes the channel and an emptied user, and nothing else |
| EventBus.Hub.Publish | shared/sse/hub.go:47-60 | exactly the subscribers of the event's user are offered it; every other channel is unchanged |
| EventBus.UnsubscribeUndoes | shared/sse/hub.go:26-43 | unsubscribing restores the subscriptions that were there before subscribing |
| EventBus.SubscribersExactly | shared/sse/hub.go:26-43 | who is subscribed for each user after subscribing and after unsubscribing |
| Manager.Manager.Submit | shared/manager/manager.go:44-65 | a duplicate changes nothing; an accepted task stays pending and stamped; a refused one is failed, with 429, 503 or 500 by cause; all store calls are disciplined |
| Manager.SubmittedExactly | shared/manager/manager.go:44-65 | only the new task is added, stamped when accepted, failed with its time otherwise |
| Manager.Manager.HandleEvent | shared/manager/manager.go:101-111 | publishes the event with the stored owner, persists status and completion time of a terminal event, and changes nothing else, for any event |
| Manager.HandledExactly | shared/manager/manager.go:101-111 | completed and failed set status and time of their task, any other event changes nothing, and the owner is added when the task is stored |
| Manager.Manager.RunEventLoop | shared/manager/manager.go:95-113 | over any delivered events each is published with the stored owner, every task ends with the status and the time of its last terminal event and is otherwise unchanged, and keeps its lifecycle |
| Manager.CompletedStaysIff | shared/manager/manager.go:95-113 | over any delivered events a completed task stays completed if and only if the last terminal event about it, if any, says completed |
| Manager.CompletedCanBecomeFailed | shared/manager/manager.go:117-139 | an accepted task found overdue and dispatched again runs twice: completed after the first execution, failed after the second one was cancelled |
| Manager.Manager.DeadlineTick | shared/manager/manager.go:128-137 | re-dispatches exactly the overdue tasks, each once, and stamps exactly those |
| Manager.TickedExactly | shared/manager/manager.go:128-137 | overdue means neither completed nor failed, and stamped more than the deadline ago; a tick stamps those and changes nothing else |
| Manager.TickedLifecycle | shared/manager/manager.go:128-137 | a tick keeps every task's lifecycle, owner and stages |
| Deadline.Spacing | shared/manager/manager.go:117-139 | two re-dispatches of a task are more than a deadline apart |
| Deadline.AttemptTimes | shared/manager/manager.go:117-139 | after k re-dispatches the stamp is more than k deadlines past the first stamp |
| Deadline.Freshness | shared/manager/manager.go:117-139 | after every tick the stamp of an unsettled task is at most a deadline old, and before it at most D + floor(D/2) |
| Deadline.RedispatchedInTime | shared/manager/manager.go:117-139 | a stamp older than the deadline was replaced, more than D and at most D + floor(D/2) after it was made |
| Pattern1Conservation.ConservedStep | shared/manager/manager.go:44-65 | every step of every component keeps each created task in exactly one place and gives it exactly one fate |
| Pattern1Conservation.ExactlyOnePlace | patterns/p01/internal/goroutine/consumer.go:36-48 | in every run a created task is in exactly one of: with Submit, queued, held by one worker, its one terminal event in the channel, in the event loop's hands, final; no task is taken twice, no rejected task is taken, no taken task is lost |
| Pattern1Conservation.SettledForever | shared/store/memory.go:54-67 | in every run a terminal status never changes, nor do owner and stages |
| Pattern1Queue.FirstDispatchedFirstTaken | patterns/p01/internal/goroutine/consumer.go:24-31 | in every run the ids taken by workers followed by the ids queued are the ids whose dispatch succeeded, in order, and the queue keeps to its size |
| Pattern1Queue.TakesTheOldest | patterns/p01/internal/goroutine/dispatcher.go:34-41 | a worker that receives starts the task dispatched first among those not taken, and Submit is refused only at a full queue |
| Pattern1Queue.EmitWaitsIff | patterns/p01/internal/goroutine/consumer.go:36-48 | a running worker is held up if and only if the event channel is full and its event the last one; any other event goes out, or is lost when the channel is full |
| Pattern1Queue.SubscriberSteps | shared/sse/hub.go:26-60 | in every run a subscriber is there with its user from its subscription on, active until it unsubscribes, and has read the oldest of its events, one for each read |
| Pattern1Store.RunLifecycle | shared/manager/manager.go:95-113 | in every run every stored task is pending, completed or failed, with a completion time exactly when terminal |
| Pattern1Store.SubmitOutcome | shared/manager/manager.go:49-64 | in every run, once Submit has returned a task is either rejected, failed and never taken, or stamped and queued or taken exactly once |
| Pattern1Store.DispatchTimeFirstIff | shared/manager/manager.go:49-64 | with a monotone clock the dispatch time of an accepted and settled task is not after its completion time if and only if the stamp came before the persist or the clock stood still between them |
| Pattern1Runs.StampedAfterCompletion | shared/manager/manager.go:49-64 | for every task a run in which it is stamped after it completed |
| Pattern1Runs.CancelledInStage | shared/executor/executor.go:46-53 | for every task and stage a run in which the worker emits exactly the trace cancelled there and the task fails |
| Pattern1Runs.HandedOver | patterns/p01/internal/goroutine/dispatcher.go:34-41 | for every task, worker and size of the queue, zero included, a run in which the task goes straight to that worker |
| Pattern1Runs.PumpCanEnd | patterns/p01/internal/app/app.go:41-49 | from every cancelled state in which the pump runs a continuation in which its channel is closed, what is left passed on, and the pump ended |
| Pattern1Order.OrderedStep | shared/manager/manager.go:91-113 | every step keeps what was delivered and what is under way an in-order subsequence of what workers emitted |
| Pattern1Order.LogIsTrace | shared/executor/executor.go:24-70 | what was emitted about a task is a prefix of one execution of it, of the completed one unless cancelled |
| Pattern1Order.EndToEndOrder | patterns/p01/internal/app/app.go:41-49 | in every run what any subscriber received about a task is an in-order subsequence of one execution; progress never decreases, nothing follows a terminal event, no signature repeats |
| Pattern1Publish.PersistBeforePublish | shared/manager/manager.go:101-111 | a published event names the stored owner of its task, and a terminal status is in the store then and in every later state |
| Pattern1Publish.SubscribersScoped | shared/sse/hub.go:26-60 | whatever a subscriber ever received is about tasks of its own user, with the status the store has, and what waits in its channel is the latest part of what it accepted |
| Pattern1Delivery.MissingCountsLosses | shared/events/memory.go:26-33 | in every run exactly as many events about a task of its user go missing for a subscriber as steps lost one: at a full event channel, at a bridge channel full or removed, or at the subscriber, full or gone |
| Pattern1Delivery.CompleteDelivery | shared/sse/hub.go:47-60 | everything emitted about a task of the subscriber's user is delivered to it or under way, in order, if and only if it was so before and no step since lost an event about the task |
| Pattern1Delivery.EveryEventArrives | patterns/p01/internal/app/app.go:41-49 | in a quiescent state a subscriber present before its user's task started has received the whole completed trace if and only if no step lost an event about it |
| Pattern1Runs.SlowSubscriberMissesTheEnd | shared/sse/hub.go:47-60 | an uncancelled run at rest, the task completed, in which a subscriber that is still there has lost the terminal event |
| Pattern1Queue.UnsubscribedStaysQuiet | shared/sse/hub.go:35-42 | after unsubscribing nothing more is delivered |
| Pattern1Runs.ReadsAndLeaves | shared/sse/hub.go:26-43 | from every state a subscriber can read all that waits in its channel, and leave |
| Pattern1Publish.NoSendOnClosedBridge | shared/events/memory.go:22-48 | in every interleaving with the cancellation goroutine, a publish only sends to an open channel and within its capacity |
| BridgeProtocol.NoSendOnClosedChannel | shared/events/memory.go:22-48 | in every interleaving of any number of subscriptions, with one send, removal, closing or read at a time: every send is to a live and open channel, no channel is closed twice or overfilled |
| BridgeProtocol.AcceptedInOrder | shared/events/memory.go:22-34 | what any channel accepted is an in-order subsequence of what was published |
| BridgeProtocol.LiveIff | shared/events/memory.go:36-48 | in every run a channel is live exactly from its subscription to its removal, closed exactly from its closing on, and its reader has read the oldest of its events, one for each read |
| BridgeProtocol.EveryLiveChannelIsOffered | shared/events/memory.go:22-34 | a channel that stays live misses exactly as many of the published events as found it full |
| BridgeProtocol.WholeLife | shared/events/memory.go:22-48 | for every channel and event a run through subscription, publishing, reading, removal and closing |
| Pattern1Liveness.MeasureStep | patterns/p01/internal/worker/worker.go:13-21 | every step of Submit (after creation), workers, event loop and pump strictly decreases an explicit measure; subscriber steps leave it alone |
| Pattern1Liveness.Terminates | patterns/p01/internal/worker/worker.go:13-21 | without new submissions any run, cancelled or not, makes at most that many system steps |
| Pattern1Liveness.StuckMeansDone | shared/manager/manager.go:95-113 | in every reachable uncancelled state with a worker some step is enabled until nothing is left, and then every task is completed, or rejected and failed |
| Pattern1Liveness.EveryAcceptedTaskCompletes | shared/executor/executor.go:24-70 | from every such state a run within the measure ends with every accepted task completed in the store |
| Pattern1Stranding.DoomedForever | shared/manager/manager.go:95-100 | a dispatched task keeps its status in every continuation once the event loop has stopped, or once it is queued and all workers have left |
| Pattern1Stranding.StrandedIff | shared/manager/manager.go:95-113 | in every state of every run an unsettled task is pending in every state of every continuation if and only if Submit has let go of it and the loop has stopped or it is queued with all workers gone |
| Pattern1Runs.LoopMayStop | shared/manager/manager.go:95-100 | from every cancelled state of every run the loop may stop at the end of its turn, whatever waits in its channel, and no unsettled dispatched task settles any more |
| Pattern1Runs.StoppedLoopStrands | shared/manager/manager.go:95-100 | for every task, queue and number of workers a run that stops the loop with the task queued, and it is pending for ever |
| Pattern1Runs.ExitedWorkersStrand | patterns/p01/internal/worker/worker.go:13-21 | for every task, queue and number of workers a run in which all workers leave first, and the task is pending for ever although the loop runs |
| Pattern3.WebSocketDispatcher.Register | patterns/p03/internal/websocket/dispatcher.go:58-67 | appends a fresh idle open connection |
| Pattern3.WebSocketDispatcher.Dispatch | patterns/p03/internal/websocket/dispatcher.go:75-106 | the loop does what the specification of the scan and the send says, which the next two state |
| Pattern3.RefusalChangesNothing | patterns/p03/internal/websocket/dispatcher.go:80-105 | without an idle worker a call refuses and leaves the whole state as it was |
| Pattern3.PicksTheNearest | patterns/p03/internal/websocket/dispatcher.go:84-104 | otherwise it picks the idle worker nearest to the index in cyclic order and moves the index past it, and only a message that was encoded and found room changes anything else |
| Pattern3.WebSocketDispatcher.Remove | patterns/p03/internal/websocket/dispatcher.go:118-127 | removes the connection and leaves the index alone |
| Pattern3.VisitsOnce | patterns/p03/internal/websocket/dispatcher.go:84-86 | whatever the index, iteration i looks at worker k if and only if i is its cyclic distance |
| Pattern3.ScanFailsIff | patterns/p03/internal/websocket/dispatcher.go:84-105 | the scan finds nobody if and only if all registered workers are busy |
| Pattern3.DistanceFalls | patterns/p03/internal/websocket/dispatcher.go:84-89 | a call picks an idle worker or strictly reduces its cyclic distance |
| Pattern3.NoStarvation | patterns/p03/internal/websocket/dispatcher.go:75-106 | with fixed membership a worker that stays idle is picked within n calls |
| Pattern3History.RegisteredIff | patterns/p03/internal/websocket/dispatcher.go:58-163 | in every execution a connection is registered if and only if its Register has happened and its removal has not, its channel is closed exactly from its close on, its writer runs until a write or ping fails |
| Pattern3History.WorkersInOrder | patterns/p03/internal/websocket/dispatcher.go:65-67 | in every execution the worker list is in the order of registration |
| Pattern3History.RefusedOrOther | patterns/p03/internal/websocket/dispatcher.go:75-127 | in every execution a Dispatch that finds nobody idle leaves the whole state as it was, and no other step moves the index |
| Pattern3History.TasksInOrder | patterns/p03/internal/websocket/dispatcher.go:130-155 | in every execution the tasks given to a connection are, in order, those started, those on the wire, the one whose write failed, and those in its channel |
| Pattern3History.ReportsCounted | patterns/p03/internal/websocket/dispatcher.go:159-208 | in every execution every task a worker started is held or reported, every report waits or was forwarded, and every forwarded one has freed the connection or is about to |
| Pattern3History.LeavesWithItsTask | patterns/p03/internal/websocket/dispatcher.go:130-163 | an execution in which a connection with a task loses its writer and is removed and closed, the task lost or left in its channel |
| Pattern3Protocol.InvStep | patterns/p03/internal/websocket/dispatcher.go:159-208 | every step keeps members distinct and open and at most one task outstanding per connection, a foreign report if it finds nothing outstanding |
| Pattern3Protocol.NoSendOnClosedChannel | patterns/p03/internal/websocket/dispatcher.go:58-127 | in every execution, harmful foreign reports included: members are distinct and open, a sent message goes to exactly one member and its channel is open, any other Dispatch sends nothing, and no channel is closed twice |
| Pattern3Protocol.OneTaskPerConnection | patterns/p03/internal/websocket/dispatcher.go:159-208 | in every run: at most one outstanding task per connection, and idle connections have an empty buffer |
| Pattern3Protocol.BusyCanMove | patterns/p03/internal/websocket/dispatcher.go:130-208 | in every run a busy registered connection whose writer runs has an enabled step of its own: it is never busy without a task |
| Pattern3Protocol.FreedInFiveSteps | patterns/p03/internal/websocket/dispatcher.go:130-208 | each such step brings the connection nearer to idle, at most five of them, and the last one frees it |
| Pattern3Protocol.DispatchRefusesIff | patterns/p03/internal/websocket/dispatcher.go:84-105 | in every reachable state Dispatch refuses if and only if no registered worker is idle, and otherwise one idle worker with an open channel gets the task; the full-buffer branch is never taken |
| Pattern3Protocol.ForeignReportKeepsIff | patterns/p03/internal/websocket/dispatcher.go:192-196 | a terminal event on the wrong connection leaves the protocol intact if and only if nothing is outstanding there |
| Pattern3Protocol.ProtocolHoldsIff | patterns/p03/internal/websocket/dispatcher.go:159-208 | with foreign reports allowed, the protocol holds in all states of an execution if and only if each of them finds nothing outstanding |
| Pattern3Protocol.SecondTaskGiven | patterns/p03/internal/websocket/dispatcher.go:84-106 | after a harmful one, when the others are busy, the next Dispatch makes two tasks outstanding on that connection |
| Pattern3Protocol.ForeignReportDoublesTasks | patterns/p03/internal/websocket/dispatcher.go:192-196 | an execution from the start in which that happens |
| Pattern4.ConservationAndCapacity | patterns/p04/internal/grpc/server.go:64-98 | in every run accepted tasks are pending, in hand or sent, each as often as accepted, and no more are sent than workers connected plus terminal events |
| Pattern4History.CountsAreOfSteps | patterns/p04/internal/grpc/server.go:64-98 | the accepted and sent tasks, connects and terminal events that theorem speaks of are those of the steps taken |
| Pattern4History.OneTokenPerConnect | patterns/p04/internal/grpc/server.go:135-147 | each connect of a worker gives it one first token, pushed or still to be pushed |
| Pattern4History.StreamIff | patterns/p04/internal/grpc/server.go:127-142 | in every run the server knows a stream as a worker's if and only if the last connect, disconnect or removal of that worker was its connect with it |
| Pattern4History.TasksInOrder | patterns/p04/internal/grpc/server.go:64-98 | in every run the tasks accepted or put back are those the loop took followed by those that wait, in order |
| Pattern4History.TokensInOrder | patterns/p04/internal/grpc/server.go:169-178 | in every run the tokens of connects, and of terminal events that found room, are those the loop took followed by those that wait, in order |
| Pattern4History.SentToTheKnownStream | patterns/p04/internal/grpc/server.go:75-92 | a task is sent on the stream its worker had last connected with when the loop looked it up |
| Pattern4History.TaskCanBeSent | patterns/p04/internal/grpc/server.go:64-98 | from every state whose next token is a connected worker's the next task can be sent, to that worker on its stream |
| Pattern4History.TerminalReturnsToken | patterns/p04/internal/grpc/server.go:169-178 | a terminal event can come at any time, returns its worker's token last in line if there is room, and changes nothing else |
| Pattern4.TokensBoundTheLoop | patterns/p04/internal/grpc/server.go:64-98 | without new tokens the loop makes a bounded number of steps, however often it meets stale tokens and re-queues |
| Pattern4.RequeueIntoFullChannelNeverEnds | patterns/p04/internal/grpc/server.go:79-92 | a re-queue that finds the channel full blocks in every later state, with nothing sent or accepted |
| Pattern4.StuckReachable | patterns/p04/internal/grpc/server.go:64-98 | for every worker and task a run from the start that ends so |
| Pattern4.LoopMovesIff | patterns/p04/internal/grpc/server.go:64-98 | in every state of every run the loop can move if and only if it does not wait for a task or a token and is not re-queueing into a full channel |
| Pattern4.Server.Dispatch | patterns/p04/internal/grpc/server.go:283-292 | queues the task, or refuses: as full exactly when there is no room and the context is not done, as done only when it is |
| Pattern4.Server.RegisterWorker | patterns/p04/internal/grpc/server.go:139-142 | the stream is stored under the worker's id, in place of an earlier one |
| Pattern4.Server.RemoveWorker | patterns/p04/internal/grpc/server.go:127-132 | forgets that worker's stream only |
| Pattern4.Server.WorkerFinished | patterns/p04/internal/grpc/server.go:169-178 | returns the worker's token unless the queue is full |
| Pattern4.Server.DispatchTurn | patterns/p04/internal/grpc/server.go:64-98 | one undisturbed turn sends the oldest task or puts it back last, and forgets a worker whose stream failed |
| Sse.BridgeStream | shared/api/handlers.go:178-201 | the write loop produces the printed form of the frames |
| Sse.StreamEvents | shared/sse/client.go:87-107 | the scan loop extracts the payloads of the data lines up to the first over-long line |
| Sse.ScannedExactly | shared/sse/client.go:87-107 | of any stream, line by line: a line that begins with the prefix yields what follows, less a trailing carriage return, any other nothing, and one of 65536 characters or more ends it |
| Sse.RoundTripIff | shared/sse/client.go:87-107 | with comments and heartbeats anywhere, the client reads back exactly the printed payloads if and only if each is free of newlines, does not end in a carriage return and fits the line limit (compare section 9.2.5 of the WHATWG HTML Standard) |
| Sse.StandardReader | shared/api/handlers.go:178-201 | a reader of sections 9.2.5 and 9.2.6 of the WHATWG HTML Standard dispatches exactly the printed payloads, for all payloads without line breaks |
| Converter.TaskToProto | patterns/p04/internal/grpc/converter.go:11-36 | each field under its name, stage names in order, creation in the second of submission and update in that of completion, else dispatch, else submission |
| Converter.ProtoToTask | patterns/p04/internal/grpc/converter.go:39-69 | each field back, stages numbered by position, and a differing update time as completion or dispatch time by status |
| Converter.RoundTripKeeps | patterns/p04/internal/grpc/converter.go:11-69 | id, name, status, owner and stage names survive, stages are renumbered by position, the submit time is cut to seconds |
| Converter.RoundTripIdempotent | patterns/p04/internal/grpc/converter.go:11-69 | a second round trip changes nothing |
| Converter.RoundTripExactIff | patterns/p04/internal/grpc/converter.go:11-69 | a task survives unchanged if and only if its stages are numbered by position, its times are whole seconds, and it carries no time but the one its status goes with, different from the submit time |
| Converter.EventOnTheWire | patterns/p04/internal/grpc/converter.go:72-94 | each field under its name, empty ones left out, progress cut to 32 bits |
| Converter.EventRoundTripIff | patterns/p04/internal/grpc/converter.go:72-113 | an event survives if and only if its progress fits in 32 bits |
| Converter.ExecutorEventsSurvive | patterns/p04/internal/grpc/converter.go:72-113 | every event of every execution survives |
| Token.DecodeOfEncode | patterns/p07/internal/bootstrap/token.go:45-46 | base64url without padding (section 5 of RFC 4648) decodes to the bytes it encoded |
| Token.LettersOfTable | patterns/p07/internal/bootstrap/token.go:45-46 | the letters are those of table 2 of RFC 4648 |
| Token.SameBits | patterns/p07/internal/bootstrap/token.go:45-46 | the bits of the bytes are those of the values spelled, in order, filled up with zeros |
| Token.EncodedLetters | patterns/p07/internal/bootstrap/token.go:45-46 | the text spells those values, one letter each |
| Token.DecodesIff | patterns/p07/internal/bootstrap/token.go:62-65 | a text can be decoded if and only if it has only such letters and line breaks, and the letters are not one more than a multiple of four |
| Token.BreaksIgnored | patterns/p07/internal/bootstrap/token.go:62-65 | line breaks make no difference to what is decoded |
| Token.MalformedIff | patterns/p07/internal/bootstrap/token.go:52-55 | for every text: malformed if and only if it has no dot |
| Token.BadSignatureIff | patterns/p07/internal/bootstrap/token.go:56-60 | for every text: refused for its signature if and only if what follows the first dot is not the encoded HMAC of what precedes it |
| Token.ValidIff | patterns/p07/internal/bootstrap/token.go:51-77 | for every text: accepted for a device if and only if it is a payload and its signature under the secret, and the payload's claims name the device and an expiry not past |
| Token.IssuedTokenValidIff | patterns/p07/internal/bootstrap/token.go:36-77 | an issued token yields its device name if and only if the current second is not past the expiry second, and is reported expired otherwise |
| Token.IssuedTokenLifetime | patterns/p07/internal/bootstrap/token.go:36-77 | accepted at every time up to the returned expiry, refused from one second after |
| Renewal.DoBootstrapWithRetry | patterns/p07/internal/app/worker.go:106-132 | the retry loop takes the time and has the outcome of its specification |
| Renewal.RetryOutcome | patterns/p07/internal/app/worker.go:106-132 | the first try that does not fail decides, with its token or by finding the context done, else all five have failed; and the exact end, as the sum of the pauses and requests made |
| Renewal.RetryBounds | patterns/p07/internal/app/worker.go:106-132 | a retry loop takes at most its worst case and a token it brings has lost at most one request's time |
| Renewal.FloatingPointWait | patterns/p07/internal/app/worker.go:67-67 | for lifetimes below thirteen days the truncated floating-point product with 0.8 is the exact 80% rounded down |
| Renewal.WaitExactly | patterns/p07/internal/app/worker.go:67-67 | the wait is never below a second, and below thirteen days the longer of a second and the exact 80% |
| Renewal.RoomForRetryIff | patterns/p07/internal/app/worker.go:67-73 | for every lifetime, whatever the floating-point product rounds to, the wait leaves room for the worst retry if and only if at least 275 seconds (less four nanoseconds) were left |
| Renewal.TurnExists | patterns/p07/internal/app/worker.go:64-91 | from every state of the goroutine there is a turn as the next theorem assumes it |
| Renewal.TokenContinuity | patterns/p07/internal/app/worker.go:64-91 | with a TTL of at least 285 seconds and successful renewals, a token with 275 seconds left is replaced before it expires, in this and every later turn |

## Left out

- HTTP routing, request binding, cookies, templates and the browser page: no property beyond plumbing.
- Patterns 2, 5, 6 and 7 transports (REST polling, NATS, Kafka, AWS): brokers whose semantics are not part of this model, with the event filter of Pattern 1.
- Worker-side reconnect loops of Patterns 3 and 4: events are legitimately lost across reconnects.
- The subscriber streams of the gRPC server and its event broadcast loop: the same lossy fan-out as the bridge.
- TLS, certificates and the revocation set.
- Pattern1Liveness.EveryAcceptedTaskCompletes: is about uncancelled runs; `Pattern1Stranding.StrandedIff` says which tasks can settle in the others.
- Pattern1Order.EndToEndOrder: the hub's JSON bytes are modelled as the event they encode.
- Deadline.RedispatchedInTime: assumes ideal ticks and treats one tick as atomic; a deadline of one nanosecond, for which the ticker cannot be created, is not excluded.
- Pattern3Protocol.OneTaskPerConnection: is about executions whose foreign reports find nothing outstanding (`ProtocolHoldsIff` says why); the capacity of the manager's event channel only delays steps and is not modelled.
- Pattern4.ConservationAndCapacity: cancellation of the dispatch loop is not modelled, nor the worker events queue, whose losses do not affect tasks and tokens.
- PgStore.StoresAgree: connection failures, rounding of timestamps by the database and encoding of stages as JSON are not modelled; both stores get the same clock readings.
- Sse.RoundTripIff: reading a payload as JSON, and skipping one that is not, happens after what is modelled.
- Token.IssuedTokenValidIff: assumes that the JSON reader undoes the JSON writer on the claims; that a token cannot be forged is a property of HMAC and not claimed.
- Renewal.TokenContinuity: timers are ideal, and the products are any reals that rounding to nearest permits.
- Pattern1Publish.NoSendOnClosedBridge: is about the one bridge channel that Pattern 1 subscribes; `BridgeProtocol.NoSendOnClosedChannel` is about any number of them.
- Pattern1Store.DispatchTimeFirstIff: a clock reading and the store call it goes into are one step.
- Pattern3Protocol.ForeignReportKeepsIff: a foreign report is one step, when it clears the flag; until then it only keeps the reader from its own reports.
- Sse.StandardReader: is about payloads without line breaks, which JSON never contains; what the standard makes of others is not stated.
