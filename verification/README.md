# PyStream: a verified model

PyStream is a small distributed stream processor. This project models its three layers in Dafny and proves what
they promise together.

**Dataflow.** `TopologicalSort`, `JobGraph` and `KeyedRuns` model the planner: validation, the priority-ordered
sort, the keyed-stream analysis and its soundness at run time. `TaskIds`, `Execution` and `OutputRoutes` expand a
graph into physical tasks and channels and choose one channel per record and edge; `Routing` is the router.
`Emission` follows a task's whole output through its routes. `Window` and `WindowRuns` are the keyed, windowed
reduce; `Parallel` proves that running it on any number of reducers means the same as one sequential fold per group,
for user functions that are lawful on that group's payloads; `WordCount` applies it to the example job's reduce.

**Data plane.** `Protocol` is the framing, with its incremental decoder and stream reader. `Channel` is the bounded
channel as a state machine whose steps are the stretches between two awaits, with the order in which the event loop
runs its puts; `Closing` says when closing it loses a record, `InTurn` that a task which awaits its sends is safe
from that, and `Drains` what failed drains do and what the channel counts; `DataChannel` is the object that takes
those steps. `Server` is the receiving end, `FanIn` the merge of several inputs at a task. `Delivery` and `EndToEnd`
join them: a cut stream is never taken for a finished one, and a stage of reducers that all finish normally has
computed the sequential result.

**Control plane.** `Models`, `Planning` and `Scheduler` are Workers, slots and the greedy all-or-nothing scheduler;
`Lifecycle` and `Manager` drive jobs through deployment, cancellation, failure and heartbeat timeout with each
operation as one step and arbitrary answers from Workers; `Deployment` ties a planned graph to a submission.
`Interleaving` cuts the same handlers at their awaits and proves slot safety over every interleaving; `Closure`
proves over every interleaving when a job comes to rest as it should, and `Orphans` that it may fail to otherwise.

`Wrappers`, `Sequences`, `Text` and `Records` hold shared notions: options and results, logs, the order of strings,
the record envelope. Operators, in graphs, go by their declaration position; instants are whole microseconds. What
the code calls but the model cannot see is a parameter: the JSON codec (assumed only to round-trip and to give
nonempty bodies), canonical JSON, SHA-256, user functions (which may fail), and the answers of Workers. Workers,
slots, task instances and runs are values held in fields of the registry and the manager.

Three results say where the code does less than one might hope, each with its exact condition. A `send` that
overlaps `close` may return normally and its record be lost: that can happen iff, as close begins, more puts are
outstanding than the queue has room for (`Closing.CloseCanLoseIffCrowded`). A failure that begins while another task
of the job is being deployed may leave that task running in a FAILED job, though never with a slot: that can happen
iff nothing else is bound to stop the submission and it is at its last task or some other task has to be stopped
first (`Orphans.OrphansIffRisky`; `Closure.HarmlessRunsSettle` is the guarantee in all other runs). And scheduling a
graph whose tasks are not new leaks one slot (`Scheduler.Schedule`), which no path of the manager does.

`dafny verify dfyconfig.toml` checks everything.

## Model

| member | source | states |
|---|---|---|
| TopologicalSort.SortTopologically | src/pystream/api/graph.py:158-195 | each operator placed was the earliest declared one whose inputs were all placed, until none was left; the reported operators are exactly those still waiting for an input |
| TopologicalSort.SucceedsIffAcyclic | src/pystream/api/graph.py:158-195 | the sort places every operator iff no operator reaches itself along edges; the result is then a permutation with every edge pointing forward |
| TopologicalSort.LeftOutIffBehindCycle | src/pystream/api/graph.py:158-195 | an operator is left out, and so named in the cycle error, iff it lies on a cycle or downstream of one |
| TopologicalSort.OrderIsLeast | src/pystream/api/graph.py:158-195 | among all topological orders the result is the lexicographically least by declaration position |
| JobGraph.IndexOperators | src/pystream/api/graph.py:49-67 | succeeds iff all ids differ, and then maps each id to its declaration; otherwise it reports exactly the declarations that repeat an earlier id |
| JobGraph.ValidateEdges | src/pystream/api/graph.py:69-156 | reports exactly the unknown ends, repeated edges and loops, and, if all ends are known, exactly the sources with an input, sinks with an output, others without either, and a missing source or sink |
| JobGraph.PropagateStreamProperties | src/pystream/api/graph.py:197-234 | one pass in topological order reaches the fixed point of the keyed rule at every operator; it reports exactly the reduces that are not keyed |
| JobGraph.KeyedIffEveryPathPassesKeyBy | src/pystream/api/graph.py:207-225 | a stream is keyed iff every path from a source to its operator, inclusive, contains a key_by |
| JobGraph.ReducesKeyedIffNoUnkeyedPath | src/pystream/api/graph.py:226-233 | the reduce check rejects exactly the graphs in which some source reaches some reduce along a path without key_by |
| JobGraph.Analyse | src/pystream/api/graph.py:158-250 | past the relation checks, succeeds iff the graph is acyclic and no reduce lies on an unkeyed path; a cycle is reported with exactly the operators on or behind it, else exactly the reduces on unkeyed paths are reported |
| JobGraph.BuildStreamGraph | src/pystream/api/graph.py:40-47 | succeeds iff the definition is acceptable, which is stated without reference to how it is checked; the result has its order, keyed marks and edge partitionings |
| JobGraph.PartitioningsAre | src/pystream/api/graph.py:236-250 | in a built graph an edge is HASH iff its stream is keyed, otherwise FORWARD iff both ends have the same parallelism; every edge into a reduce is HASH |
| JobGraph.HashIffKeyedPaths | src/pystream/api/graph.py:236-250 | an edge is HASH iff every path from a source to its tail passes a key_by |
| KeyedRuns.RunsKeepInvariant | src/pystream/api/graph.py:207-225 | over all runs of sources, map, key_by, reduce and timers, what a keyed operator has emitted and what reduce tables hold has a key |
| KeyedRuns.KeyErrorsAreUnreachable | src/pystream/runtime/routing.py:33-34 | in an accepted graph no run can raise the null-key error of HASH routing or the unkeyed-record error of reduce |
| Routing.ShuffleRouter.Route | src/pystream/runtime/routing.py:74-84 | the choice and the next cursor are those of the pure routing function |
| Routing.RebalanceIsRoundRobin | src/pystream/runtime/routing.py:78-81 | the i-th REBALANCE record of upstream subtask u goes to (u + i) mod p |
| Routing.HitsCountCycles | src/pystream/runtime/routing.py:78-81 | how often a target is hit: once per completed cycle, and once more if the current cycle has passed it |
| Routing.RebalanceIsFair | src/pystream/runtime/routing.py:78-81 | over any run any two targets' counts differ by at most one |
| TaskIds.DecimalRoundTrip | src/pystream/control/execution.py:67-68 | printing a subtask number and reading it back is the identity |
| TaskIds.DecimalIs | src/pystream/control/execution.py:67-68 | the printed number has the value of the number, in decimal digits without a leading zero |
| TaskIds.CoordinatesRoundTrip | src/pystream/runtime/task.py:530-538 | taking a printed task id apart gives back its operator and subtask, whatever the job id is, colons included |
| TaskIds.TaskIdInjective | src/pystream/control/execution.py:67-68 | ids of different (job, operator, subtask) differ, so jobs never collide in a slot table |
| Execution.BuildExecutionGraph | src/pystream/control/execution.py:75-125 | expands every graph that graph building accepts; tasks, deployment order and channels are the expansion of operators and edges |
| Execution.ExpandTasks | src/pystream/control/execution.py:79-93 | the tasks of some operators, in order, each with its subtasks ascending |
| Execution.ExpandAscends | src/pystream/control/execution.py:34-40 | of two tasks the earlier is of an operator that comes earlier in the order, or a lower subtask of the same operator |
| Execution.ConnectEdge | src/pystream/control/execution.py:96-117 | refused iff FORWARD joins different parallelisms; else FORWARD pairs equal subtasks and other partitionings pair every source with every target |
| Execution.DeploymentOrderIsComplete | src/pystream/control/execution.py:34-40 | the deployment order lists every physical task exactly once, and the same tasks as the graph |
| Execution.DownstreamComesFirst | src/pystream/control/execution.py:34-40 | every task of an operator's targets comes before each of its own tasks |
| Deployment.PlanIsSubmittable | src/pystream/control/execution.py:75-125 | ids and deployment order of a planned graph are distinct, list the same tasks, and carry the job id |
| Deployment.ChannelEnds | src/pystream/control/execution.py:96-117 | both ends of every channel are tasks of the graph at the ends of one edge |
| Deployment.TargetsAreRunning | src/pystream/control/manager.py:165-173 | when a task is deployed, the tasks at the end of all its outgoing channels are already running |
| Deployment.BindEndpoints | src/pystream/control/execution.py:50-64 | every channel gets its target's task id with the data host and port of the Worker that holds the target, and is otherwise as before; else the first channel that cannot be bound decides the error: target unknown, not placed, or on a Worker that is not in the table |
| Deployment.BindingCannotFail | src/pystream/control/execution.py:50-64 | once all tasks of a planned graph are placed on Workers of the table no channel can fail to bind |
| OutputRoutes.GroupChannels | src/pystream/runtime/task.py:377-382 | channels are grouped by target operator and partitioning, unless one starts elsewhere or has a malformed target; the first such decides the error |
| OutputRoutes.ConnectOutputs | src/pystream/runtime/task.py:374-433 | one route per group, in sorted order, with fresh separate routers; fails iff grouping fails or some channel has no address or cannot be connected and started; the first such channel decides the error, and exactly the channels opened before it are aborted, last first |
| OutputRoutes.OneRoutePerEdge | src/pystream/runtime/task.py:374-433 | for any task of a planned graph the routes are exactly one per logical edge out of its operator |
| OutputRoutes.RoutesAreSorted | src/pystream/runtime/task.py:387-390 | the routes are in the order of operator ids, and of partitioning names under one operator |
| OutputRoutes.OpenedAreSorted | src/pystream/runtime/task.py:391-395 | the channels of a route are in the order of their target subtasks |
| OutputRoutes.EdgeGroupOpens | src/pystream/runtime/task.py:391-412 | an edge's route holds the twin alone under FORWARD, else all target subtasks from 0 up |
| OutputRoutes.OutputRoute.Select | src/pystream/runtime/task.py:106-115 | selects by partitioning and router, or reports that the chosen subtask has no channel |
| OutputRoutes.Emit | src/pystream/runtime/task.py:369-372 | sends to one channel per route in turn, up to the first route that has no channel for the record or whose channel refuses it; exactly the routers asked move on, the refusing one included |
| OutputRoutes.EdgeSelectsItsTarget | src/pystream/runtime/task.py:106-115 | after n records along an edge the next goes to the twin, to (a + n) mod p, or to the key's hash; the missing-subtask error cannot occur |
| OutputRoutes.EmitMany | src/pystream/runtime/task.py:365-372 | every record goes to exactly one channel of every route, the one that the route selects for its n-th record counted over the task's whole life; an error ends it within the row of one record |
| Emission.EdgeKeepsPartitioning | src/pystream/runtime/task.py:365-372 | over any run of any planned task and along any edge, a target's channel takes, in order of emission, everything if it is the twin (FORWARD), exactly the records whose key hashes to it (HASH), or as many as it has turns in the cycle (REBALANCE) |
| Emission.EachRecordTakesOneChannel | src/pystream/runtime/task.py:369-372 | each record takes one of the edge's channels and no other |
| Emission.ChannelsAreLevel | src/pystream/runtime/task.py:365-372 | the counts of any two channels of a REBALANCE edge differ by at most one at all times |
| Emission.HashedAreKeyed | src/pystream/runtime/routing.py:31-42 | what has gone along a HASH edge has keys |
| Emission.TaskKeepsPartitioning | src/pystream/runtime/task.py:365-440 | from connecting on, every edge out of a planned task has one column of what was sent, and in it each channel took what its partitioning gives it |
| Emission.ConnectAndEmit | src/pystream/runtime/task.py:365-440 | connecting the channels of a planned task and emitting records with them satisfies what the theorem before asks |
| Window.AssignedWindowIsUnique | src/pystream/operators/window.py:70-79 | of all windows of the size aligned to it the assigned one alone contains the instant, before the epoch too |
| Window.ReduceWindowOperator.ProcessRecord | src/pystream/operators/window.py:128-153 | opens or folds the entry of (window, key); a refused record or failing UDF changes nothing |
| Window.ReduceWindowOperator.OnTimer | src/pystream/operators/window.py:155-186 | emits every due entry once, in order, and removes exactly those |
| Window.ReduceWindowOperator.Close | src/pystream/operators/window.py:188-191 | discards what is open without emitting it |
| WindowRuns.OutputsAreSegmentFolds | src/pystream/operators/window.py:128-186 | on every run and for every group the emitted payloads, then the live accumulator, are left folds of consecutive segments that laid end to end are exactly the group's arrivals |
| WindowRuns.OutputsAreTimely | src/pystream/operators/window.py:155-186 | nothing is emitted before its window ends, nothing due survives a timer call, and outputs come in the order of window ends and, under the same end, of key texts |
| WindowRuns.RepresentativeIsFirst | src/pystream/operators/window.py:136-153 | an entry exists iff a record arrived since its group was last emitted, and stands for the first of them, which lies in its window |
| WindowRuns.OutputsStandForFirst | src/pystream/operators/window.py:160-182 | on every run an output has the id, type, key and all other headers of the first record since its group was last emitted, the window's bounds as headers, and the time of the timer call |
| WindowRuns.RefusedIff | src/pystream/operators/window.py:128-153 | a record is refused iff it has no key or the UDF fails on what its group has so far, each with its own error |
| Parallel.ResultsFoldArrivals | src/pystream/operators/window.py:128-186 | however timers cut it, one reducer's results for a group fold to its arrivals in order, if these lie in a domain on which the UDF succeeds and associates |
| Parallel.ShareOfGroup | src/pystream/runtime/routing.py:31-42 | a reducer's share of some records holds all of a group's records in order if the group hashes to it, else none |
| Parallel.MergeKeepsRecords | src/pystream/runtime/task.py:338-363 | a merge of channels holds exactly the records of its channels |
| Parallel.ReducerFoldsItsGroups | src/pystream/operators/window.py:128-186 | a reducer's results are the fold of the whole group if the group hashes to it, otherwise there are none; the UDF need be lawful only on a domain that holds the group's payloads |
| Parallel.CombineIgnoresOrder | src/pystream/operators/window.py:141-152 | on a domain on which the UDF commutes and associates a fold depends only on the multiset of payloads |
| Parallel.ParallelIsSequential | src/pystream/operators/window.py:128-186 | for any reducers, split, merge and timers, all reducers' results for a group fold to what one operator makes of the same records in any order; the UDF may fail and break its laws outside the group's own payload domain; only the hashed reducer has any results |
| Parallel.OneUpstreamKeepsOrder | src/pystream/runtime/task.py:338-363 | with one upstream subtask the sequential fold is reached without commutativity |
| WordCount.AddCountsIsLawful | examples/wordcount/wordcount_udfs.py:39-54 | on the payloads of one word the example's reduce succeeds, stays among them, associates and commutes |
| WordCount.AddCountsIsPartial | examples/wordcount/wordcount_udfs.py:39-54 | elsewhere it raises: on values that are no counts, and across words |
| WordCount.WordCountsAddUp | examples/wordcount/wordcount_udfs.py:39-54 | so whatever the number of reducers, the split, the merge and the timers: the results for a word in a window add up to the sum of its counts |
| Protocol.LengthRoundTrip | src/pystream/runtime/protocol.py:156-169 | the 4-byte big-endian prefix is inverted for every length below 2^32 |
| Protocol.EncodeFrame | src/pystream/runtime/protocol.py:156-169 | succeeds iff the body fits the size limit and the prefix, and then returns the length of the body in four bytes, most significant first, followed by the body; otherwise the error names the limit that was hit |
| Protocol.DecodeEncoded | src/pystream/runtime/protocol.py:199-221 | an encoded frame in front of any bytes decodes to that frame and leaves those bytes |
| Protocol.IncrementalFrameDecoder.FeedData | src/pystream/runtime/protocol.py:199-221 | returns and keeps what draining the old buffer with the new bytes gives; on a malformed frame the frames decoded before it are dropped |
| Protocol.RoundsAre | src/pystream/runtime/protocol.py:199-221 | one round in terms of the bytes: what it waits for, what is malformed, what is too large, and which bytes it keeps |
| Protocol.ChunkingIndependence | src/pystream/runtime/protocol.py:199-221 | on a well-formed stream every way of cutting it into feeds gives the same frames and buffer |
| Protocol.ChunkedRoundTrip | src/pystream/runtime/protocol.py:199-221 | any cutting of encoded frames and an unfinished one returns exactly those frames and leaves exactly the tail |
| Protocol.DrainRoundTrip | src/pystream/runtime/protocol.py:199-221 | draining encoded frames and an unfinished one gives back the frames and the tail |
| Protocol.ReadFrame | src/pystream/runtime/protocol.py:224-245 | one read consumes one frame, or fails as the source does on each malformation or early end |
| Protocol.ReaderAgreesWithDecoder | src/pystream/runtime/protocol.py:224-245 | on every byte stream repeated reads give the decoder's frames and its error, or a closed connection where it would wait |
| Protocol.PrefixOfEncoded | src/pystream/runtime/protocol.py:156-169 | every prefix of encoded frames is some whole frames and one unfinished one |
| DataChannel.TakeBatch | src/pystream/runtime/channel.py:225-250 | takes the records at the head of the queue up to the batch size, and the close marker if it comes right behind; each item taken wakes the put that has been blocked longest |
| DataChannel.BoundedDataChannel.Start | src/pystream/runtime/channel.py:105-125 | writes HELLO and starts the sender, or fails |
| DataChannel.BoundedDataChannel.BeginSend | src/pystream/runtime/channel.py:127-133 | refused unless running; otherwise the put begins |
| DataChannel.BoundedDataChannel.RunPut | src/pystream/runtime/channel.py:195-223 | the put that is due first goes into the queue if there is room, and blocks behind the others if not |
| DataChannel.BoundedDataChannel.ReturnSend | src/pystream/runtime/channel.py:195-223 | returns once its put went through |
| DataChannel.BoundedDataChannel.RefuseSend | src/pystream/runtime/channel.py:195-223 | when the sender has ended first the put is withdrawn, with the error that tells a finished sender from a failed one |
| DataChannel.BoundedDataChannel.IterateSender | src/pystream/runtime/channel.py:225-265 | one iteration of the sender up to its drain |
| DataChannel.BoundedDataChannel.FinishDrain | src/pystream/runtime/channel.py:225-265 | the sender goes on, ends at the marker, or fails |
| DataChannel.BoundedDataChannel.BeginClose | src/pystream/runtime/channel.py:140-171 | what close does at once in each lifecycle state: a new channel is closed, a closed or closing one is left, a failed one refuses, a running one begins to put its marker |
| DataChannel.BoundedDataChannel.JoinSender | src/pystream/runtime/channel.py:140-171 | close waits for the sender once its own put has returned |
| DataChannel.BoundedDataChannel.FinishClose | src/pystream/runtime/channel.py:140-171 | the channel is CLOSED after the last drain, or FAILED without it |
| DataChannel.BoundedDataChannel.WriteEnd | src/pystream/runtime/channel.py:140-171 | END_OF_STREAM is written only after the sender has ended at the marker |
| DataChannel.BoundedDataChannel.Abort | src/pystream/runtime/channel.py:173-180 | from any state: cancels the sender if it is at work, closes the channel and writes nothing |
| Channel.RunsKeepInvariant | src/pystream/runtime/channel.py:105-265 | every interleaving of sends, sender, close, abort and drain failures keeps the channel's invariant |
| Channel.WireIsShaped | src/pystream/runtime/channel.py:225-265 | the wire is HELLO, nonempty batches of at most the batch size, at most one END_OF_STREAM at the end |
| Channel.SentIsPrefixOfEnqueued | src/pystream/runtime/channel.py:225-265 | the batches end to end are a prefix of what was put, in order; the queue never exceeds its capacity |
| Channel.EndOfStreamIsComplete | src/pystream/runtime/channel.py:140-171 | before END_OF_STREAM come exactly the records put before close's marker, each call's once, and among them those of every send that returned before close began |
| Channel.CallsKeepTheirRecord | src/pystream/runtime/channel.py:127-133 | what stands at a call's place in the log is the record that it was called with |
| Drains.FailedDrainIsFinal | src/pystream/runtime/channel.py:140-171 | after a failed drain of a batch or of END_OF_STREAM the channel is FAILED, and no send and no close begins any more |
| Drains.LifecycleMoves | src/pystream/runtime/channel.py:105-265 | how each step moves the channel through its states |
| Drains.CountersAreTrue | src/pystream/runtime/channel.py:240-265 | over every run the counts of records and batches are those on the wire, but for a batch whose drain is awaited or never came |
| Drains.DepthIsHighest | src/pystream/runtime/channel.py:195-223 | the depth on record is the greatest that the queue had when a put returned |
| Closing.QuietCloseLosesNothing | src/pystream/runtime/channel.py:140-171 | if the queue has room for all outstanding puts as close begins, then in every continuation whose wire ends with END_OF_STREAM everything that was ever put has been written |
| Closing.CrowdedCloseCanLose | src/pystream/runtime/channel.py:140-223 | from every reachable running channel with more outstanding puts than room, close may end cleanly while one of those sends returns normally and its record is never written |
| Closing.CloseCanLoseIffCrowded | src/pystream/runtime/channel.py:140-223 | so a close can lose a record iff more puts are outstanding as it begins than the queue has room for |
| Closing.OverlappingSendCanBeLost | src/pystream/runtime/channel.py:140-223 | every valid channel whose frames encode can be brought there: fill the queue while the peer is slow, begin one more send, close |
| InTurn.UsedInTurnClosesQuietly | src/pystream/runtime/task.py:323-372 | a task that awaits each send before the next one and before closing has no put outstanding when it closes |
| InTurn.UsedInTurnIsWhole | src/pystream/runtime/task.py:323-372 | and once END_OF_STREAM is on the wire, the wire holds exactly the records that send was called with, in order |
| Server.DataPlaneServer.Register | src/pystream/runtime/server.py:139-154 | registers all channels or none; refused, in this order, by a server that is not running, for a repeated channel, for a taken one |
| Server.DataPlaneServer.Unregister | src/pystream/runtime/server.py:156-173 | removes exactly those of the channels that still belong to the consumer, and closes exactly their writers |
| Server.DataPlaneServer.HandleConnection | src/pystream/runtime/server.py:175-234 | handshake, dispatch and read loop as specified on the bytes; a peer that names no registered channel is written an ERROR frame, any other failure is told to the consumer; the registrations are as before afterwards |
| Server.DataPlaneServer.ReadStream | src/pystream/runtime/server.py:236-271 | delivers batches in order, checks heartbeats, and ends at a clean end, an error or a closed connection |
| Server.ReceiveIs | src/pystream/runtime/server.py:236-271 | the loop delivers the records of all frames up to the first that is no proper batch and no heartbeat above all before it; that one decides how it ends |
| Server.HandshakeIs | src/pystream/runtime/server.py:307-321 | exactly a HELLO with three nonempty names is accepted |
| Server.OnlyStrangersAreAnswered | src/pystream/runtime/server.py:175-234 | an ERROR frame is written iff the connection was not dispatched, and then nothing was delivered; a channel with a writer refuses a second connection |
| Delivery.ReceiveBody | src/pystream/runtime/server.py:236-271 | on batches and an optional end, the loop delivers all records and closes the input just when the end is there |
| Delivery.NoSilentGap | src/pystream/runtime/server.py:175-271 | whatever prefix of a channel's bytes arrives, the consumer gets a prefix of the records, and a clean end once iff everything up to END_OF_STREAM arrived |
| FanIn.TaskRuntime.AcceptRecord | src/pystream/runtime/task.py:295-305 | an unknown channel or, as a batch begins, a task that is not running is an error; else the connection's next record is put, in order, once there is room |
| FanIn.TaskRuntime.InputClosed | src/pystream/runtime/task.py:307-312 | an unknown channel or one whose end was dequeued already is an error; else the end, also a second one, goes into the same queue once there is room |
| FanIn.TaskRuntime.ProcessNext | src/pystream/runtime/task.py:338-363 | takes the head of the queue: closes a channel, processes a record, or fails the task |
| FanIn.OnlyDataIsProcessed | src/pystream/runtime/task.py:347-358 | over every run only DATA has reached the operator, and all of it is counted |
| FanIn.TurnFailsIff | src/pystream/runtime/task.py:347-358 | a record fails the task iff it is not DATA or the operator raises |
| FanIn.RunsKeepInvariant | src/pystream/runtime/task.py:295-363 | per channel, what was processed and what is queued is what was put, in every interleaving |
| FanIn.ProcessedArePrefixes | src/pystream/runtime/task.py:338-363 | at all times the operator has processed, of each channel, a prefix in order; the queue keeps its bound |
| FanIn.LeavingIsComplete | src/pystream/runtime/task.py:341-363 | the loop leaves normally only when every channel's end was dequeued, with every record of every channel processed exactly once |
| EndToEnd.ClosedLinkIsWhole | src/pystream/runtime/server.py:236-271 | if the receiver saw a clean end it has exactly what the task sent along the channel, in order |
| EndToEnd.PutsAreShare | src/pystream/runtime/task.py:365-372 | what an upstream task sent along its channel to a reducer is that reducer's share of what it emitted, and is keyed |
| EndToEnd.FinishedTaskHasItsShare | src/pystream/runtime/task.py:338-363 | a task that left its loop normally has processed the whole share of every channel |
| EndToEnd.FinishedStageIsSequentialFold | src/pystream/operators/window.py:128-186 | over planned edges, routes, channels, framing, byte cuts, receivers, merges and timers: if every reducer's task left normally, the stage's results fold to the sequential ones, for any UDF that is lawful on the group's payloads |
| Models.ReservingUsesOne | src/pystream/control/models.py:163-169 | reserving a free slot uses one more |
| Models.FreeIffAvailable | src/pystream/control/models.py:141-155 | reserve finds a slot exactly if the Worker counts one as available |
| Models.LedgerDetermines | src/pystream/control/models.py:86-110 | who holds which slot determines every slot table |
| Scheduler.WorkerRegistry.Register | src/pystream/control/scheduler.py:26-55 | new, refreshed or replaced by the source's rules; refused otherwise, without change |
| Scheduler.RegistrationIs | src/pystream/control/scheduler.py:26-55 | invalid arguments and a changed slot count of a Worker in use are refused; else the Worker has the given addresses, heartbeat and number of slots, its slots as before if some was in use and free otherwise, and no other Worker changes |
| Scheduler.RegisterKeepsLedger | src/pystream/control/scheduler.py:44-55 | re-registration disturbs nobody's slot and removes no Worker |
| Scheduler.WorkerRegistry.Heartbeat | src/pystream/control/scheduler.py:57-64 | updates a known Worker, refuses an unknown one |
| Scheduler.WorkerRegistry.Healthy | src/pystream/control/scheduler.py:77-84 | the ids that have not timed out, filtered from the sorted ids |
| Scheduler.HealthyIdsAre | src/pystream/control/scheduler.py:73-84 | they are ascending, each once, and exactly the Workers whose last heartbeat is no longer ago than the timeout |
| Text.LessIsLexicographic | src/pystream/control/scheduler.py:73-84 | one id precedes another iff they agree up to a place where it ends or has the lower code point |
| Planning.SelectLeast | src/pystream/control/scheduler.py:127-142 | the choice is the candidate that comes before all others |
| Planning.ChoiceIsLeast | src/pystream/control/scheduler.py:121-145 | of all Workers with a free slot, but for the first pick when the second task is placed, none has a lower load per slot, then a lower load, then an earlier id |
| Planning.CandidateExists | src/pystream/control/scheduler.py:121-145 | while slots suffice the loop never runs out of candidates |
| Planning.PlanTasks | src/pystream/control/scheduler.py:121-145 | every pick is the least candidate of its moment, and each Worker's list is its picks in order |
| Planning.PlanIsDetermined | src/pystream/control/scheduler.py:132-142 | scheduling is deterministic: loads and ids leave no choice |
| Planning.PlanFits | src/pystream/control/scheduler.py:121-145 | no Worker is planned beyond its slots |
| Planning.BalanceBound | src/pystream/control/scheduler.py:121-145 | (load(w) - 1) * total(v) <= load(v) * total(w) for each w whose last task was not the forced second placement and each v with a free slot |
| Planning.IdleWorkersStayLevel | src/pystream/control/scheduler.py:121-145 | from idle equal Workers loads differ by at most one |
| Planning.FirstTwoSpread | src/pystream/control/scheduler.py:125-131 | two tasks and two usable Workers: two Workers are used |
| Scheduler.ReserveBatch | src/pystream/control/scheduler.py:147-153 | one Worker's tasks each get its lowest free slot, in ascending order |
| Scheduler.Schedule | src/pystream/control/scheduler.py:108-160 | too few free slots: nothing changes, with both numbers reported; otherwise, for new tasks, each gets its own previously free slot on a healthy Worker by the plan, the lowest in the order of the tasks, nothing else changes, and the Workers' used slots are the loads of the plan; a task that is not new makes it fail, put back what it assigned and leak one slot |
| Scheduler.SlotsAreFreePlaces | src/pystream/control/scheduler.py:115-119 | the number compared with the tasks is that of the free slots of the healthy Workers |
| Scheduler.PlacedKeepsLedger | src/pystream/control/scheduler.py:147-153 | a placement adds exactly its tasks' slots to who holds what |
| Scheduler.ReleaseAll | src/pystream/control/scheduler.py:162-167 | frees the tasks' own slots and no other; a second time nothing changes |
| Scheduler.ReleaseFreesAll | src/pystream/control/scheduler.py:162-167 | the release of tasks that hold what they say never meets a missing Worker |
| Scheduler.ReleaseIsIdempotent | src/pystream/control/scheduler.py:162-167 | releasing unassigned tasks changes nothing |
| Scheduler.ReleaseUndoesSchedule | src/pystream/control/scheduler.py:162-167 | release after schedule restores every slot table exactly, whatever other jobs did in between |
| Lifecycle.JobsShareNoTask | src/pystream/control/execution.py:67-68 | a task id belongs to one job only |
| Lifecycle.FailingClosesTasks | src/pystream/control/manager.py:261-285 | after a failure's stops and cancellations every task is CANCELLED or FAILED |
| Lifecycle.LiveStopCalls | src/pystream/control/manager.py:276-281 | each deployed task but the failed one gets one stop call, last deployed first |
| Lifecycle.StopsAreBackwards | src/pystream/control/manager.py:276-281 | the stop calls name each deployed task but the failed one once, with the Worker that holds it, and of two the earlier names the task deployed later |
| Lifecycle.FailingAgainIsIdle | src/pystream/control/manager.py:261-285 | failing a job that is over stops, cancels and releases nothing |
| Manager.JobManager.StopTasks | src/pystream/control/manager.py:287-303 | each stoppable task ends CANCELLED iff its Worker is registered and the answer at the position of its stop call is good, else FAILED; the calls are exactly those, in order |
| Manager.JobManager.FailRun | src/pystream/control/manager.py:261-285 | a live run ends FAILED with every slot free; its calls stop each deployed task but the failed one, last deployed first; the failed task ends FAILED, each deployed one by the answer to its own stop call, each never deployed one CANCELLED; on a finished job the last transition raises |
| Manager.JobManager.DeployTasks | src/pystream/control/manager.py:165-173 | all tasks are deployed iff every deploy call is answered well; otherwise deployment stops at the first refused one, after good answers only; each call is made with all earlier tasks running |
| Manager.JobManager.DeployOrRollBack | src/pystream/control/manager.py:163-179 | all running iff every deploy call is answered well; otherwise what was deployed is stopped, last first, each task ends as the answers say, and every slot table is as before |
| Manager.JobManager.SubmitJob | src/pystream/control/manager.py:133-179 | which of the four outcomes a submission has, from the artifact, the free slots and the answers to its deploy calls, each with its job state, tasks, slot tables and calls; other jobs untouched |
| Manager.JobManager.CancelJob | src/pystream/control/manager.py:191-203 | only a running job; it ends CANCELLED iff every stop call is answered well, else FAILED, each task as its own call was answered, with nothing held |
| Manager.JobManager.ReportFailed | src/pystream/control/manager.py:205-219 | a failed task brings a running job down, each other task as its stop call is answered; on a job that is over the report raises and changes no slot or call |
| Manager.JobManager.ReconcileWorkerHealth | src/pystream/control/manager.py:228-251 | exactly the running jobs with a task on a timed-out Worker fail, in order of submission, each with the stop calls of its tasks but the first stranded one, last deployed first, and each task as its own call is answered; afterwards no running job has one |
| Manager.JobManager.RegisterWorker | src/pystream/control/manager.py:65-82 | registering disturbs no job |
| Manager.UpdateKeepsAllOk | src/pystream/control/manager.py:47-63 | changing one job and its own holdings keeps every other job as it should be |
| Interleaving.StepKeepsSafe | src/pystream/control/manager.py:133-303 | every segment between two awaits keeps slot safety |
| Interleaving.After | src/pystream/control/manager.py:133-303 | every run from an empty manager ends in a safe state |
| Interleaving.SlotsAreSafe | src/pystream/control/manager.py:133-303 | under every interleaving a task is assigned a slot iff that slot names it, on a registered Worker; no slot is shared; REJECTED, CANCELLED and FAILED jobs hold none |
| Interleaving.FinalStatusIs | src/pystream/control/manager.py:191-203 | which status a handler leaves the job in, from how it came and whether a stop failed |
| Closure.StepKeepsCalm | src/pystream/control/manager.py:133-303 | every segment keeps what a job and its handlers owe each other, unless a failure of the job begins at a risky moment or somebody else moves its tasks; other jobs' segments do not matter |
| Closure.HarmlessRunsSettle | src/pystream/control/manager.py:133-303 | over every interleaving of all jobs: a job of which no failure began at a risky moment is, whenever no handler works on it, running in full, or rejected, or over with every task terminal and no slot |
| Closure.RiskNeedsDeployer | src/pystream/control/manager.py:165-173 | no moment is risky at which nobody waits for a deploy call of the job |
| Closure.StopAnswerDecides | src/pystream/control/manager.py:287-303 | the answer to a stop call decides whether the task ends CANCELLED or FAILED |
| Closure.FailureFailsTask | src/pystream/control/manager.py:266-270 | a task that is failed ends FAILED unless it was over already |
| Closure.CancelStopsBackwards | src/pystream/control/manager.py:191-195 | a cancel that waits for a stop call has exactly the tasks deployed earlier before it, last deployed first |
| Closure.ReportIs | src/pystream/control/manager.py:221-226 | a report moves the one task, and makes a deploying job RUNNING once all its tasks are |
| Orphans.OrphansIffRisky | src/pystream/control/manager.py:163-178 | in a job whose run was harmless so far, the failure of a task can leave another one running in the FAILED job, with no handler left, iff it begins while another task is being deployed, none of those yet to be deployed is over or the failed one, and that one is the last or some other deployed task has to be stopped first |
| Orphans.RiskyFailureOrphans | src/pystream/control/manager.py:163-178 | from every such state the failure has a continuation that gets there with nothing but answers to the calls under way |
| Orphans.SubmissionsCanBeOrphaned | src/pystream/control/manager.py:163-178 | every submission of two or more tasks comes to such a moment when all its deploy calls but the last are answered well |
| Orphans.OrphansAreReal | src/pystream/control/manager.py:163-178 | there are such submissions for any job id, so runs of the manager that leave an orphan exist |
| Orphans.ReportsUnsettle | src/pystream/control/manager.py:205-226 | a report other than FAILED, where it is possible, unsettles a settled job; that is why the theorems leave such reports out |

## Left out

- HTTP layers, command line, client, service entry point, logging, metrics views, artifact storage and packaging, Kafka source, CSV sink and UDF loading.
- JSON text, UTF-8, SHA-256, ISO timestamps: uninterpreted parameters; the key's canonical JSON is one function for routing and for windows, as the two definitions in the code agree.
- Record fields event_time, change_kind and checkpoint_id; key and payload validation of records; datetime range overflow; fractional window sizes; JSON numbers that are no integers.
- Fairness, timing and liveness: everything here is safety. Waiting for room, for an item or for a lock is a step that is not enabled yet.
- Python object identity: Workers, slots, tasks and runs are values in maps and sequences, so that aliasing between them is not captured; updates appear as updates of the field that holds them.
- Job ids are given to a submission; the random id that the code makes up when none is given is not part of the model. Error texts are not modelled; error kinds are.
- TaskIds.CoordinatesRoundTrip: the parser accepts plain decimal digits only; the code's int() also accepts signs, blanks, underscores and other digits, none of which the printer writes.
- Protocol.ChunkingIndependence: stated for well-formed streams; on a malformed frame a feed drops the frames it decoded earlier in the same call, as FeedData states.
- Protocol.EncodeFrame: the payload of a frame is told apart only as far as a receiver inspects it; version and field checks of the JSON document belong to the uninterpreted codec.
- DataChannel.BoundedDataChannel.Start: start is taken to finish before any other call on the channel begins, as the runtime awaits it.
- DataChannel.BoundedDataChannel.Abort: abort and close may overlap, so no terminal state is claimed to be final.
- Server.DataPlaneServer.HandleConnection: one connection at a time per channel, and a consumer that does not raise while it accepts records; the consumer learns of a refused second connection as of any failure.
- FanIn.LeavingIsComplete: one connection per channel; a second one after the first has ended is not modelled.
- FanIn.TaskRuntime.ProcessNext: whether the operator raises is a parameter; which timer calls come between records is left open in the window runs instead.
- OutputRoutes.ConnectOutputs: whether a channel can be connected and started is a parameter; a channel whose start fails is not aborted by the code, and is not in the model's list.
- OutputRoutes.Emit: whether a channel's send returns normally is a parameter here; what it does with the record is Channel's business.
- Parallel.ParallelIsSequential: nothing is claimed for a group whose payloads leave every domain of the UDF, for a failing UDF fails the job; segments, not single outputs, are what a group emits, since a late record re-opens its group.
- Window.ReduceWindowOperator.Close: open windows are discarded by the code, so results count what is still held.
- EndToEnd.FinishedStageIsSequentialFold: an upstream task that is stopped while it waits in a send closes its channels without awaiting that send; such a task did not finish normally and is not covered.
- Closing.CloseCanLoseIffCrowded: the sender's own wake-up is not ordered against the puts that are due, so that the runs range over a few more schedules than the event loop has.
- Scheduler.Schedule: binding of endpoints at its end is Deployment.BindEndpoints, which cannot fail for what it has just placed.
- Manager.JobManager.FailRun: on its own it is stated for live and finished runs; runs in CANCELLING or mixed states come from overlap and are covered by the interleaved model.
- Manager.JobManager.ReportFailed: reports other than FAILED, which no Worker sends, are part of the interleaved model only.
- Manager.JobManager.SubmitJob: binding of endpoints, which runs at the end of scheduling, is Deployment.BindEndpoints, and that it cannot fail there is proved beside it; the random id made up when none is given is left out.
- Closure.HarmlessRunsSettle: reports other than FAILED of the job itself are excluded (Orphans.ReportsUnsettle says why); the tasks of a REJECTED job keep the status CREATED, so that they are not terminal.
- Interleaving.SlotsAreSafe: a failure may start at any moment for any task of any job, which covers reports and every step of a health check; the health check's own list of failed jobs is not kept there.
