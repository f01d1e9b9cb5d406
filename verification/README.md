# aprot: verified model

A Dafny model of the parts of aprot, a Go RPC library with live subscriptions, whose correctness rests on
an argument rather than on reading one function. `dafny verify dfyconfig.toml` checks all of it.

The concurrent parts are step systems. One step is one critical section of the Go code, what a goroutine
still has to do after an unlock is explicit state, and steps interleave in any order; the theorems hold in
every state of every run. Beside the step systems stand the objects the code updates in place, as classes
whose methods compute the functions the steps apply and keep what the proofs rest on. The sequential parts
are methods with loops, proved against specifications that know nothing of the loop.

| file | what it models |
|---|---|
| `ClientSubscriptions.dfy`, `ClientProtocol.dfy`, `ClientProtocolProofs.dfy`, `ClientDelivery.dfy` | the client's subscriptions: slots, queue, re-sending after a reconnect, order of frames, patches, and that none is lost |
| `ClientCalls.dfy` | pending calls and the seven parties that may complete them |
| `ClientAuth.dfy` | pairing auth verdicts, which carry no ID, with callers who may have given up, among timeouts and frames that went astray |
| `ClientReconnect.dfy` | the reconnect loop, its counters, changing settings, and its delays in int64 arithmetic |
| `ServerRegistry.dfy` | the in-flight registry of a connection: reused IDs, shadowing, deferred refreshes, close |
| `SubscriptionIndex.dfy` | the two-way trigger index, its fan-out, and composite keys |
| `ZodOrder.dfy` | order and laziness of generated schemas, on cyclic graphs |
| `TransformTags.dfy`, `TransformExact.dfy` | the static tag check against the runtime walker, and exactly when the walker fails |
| `GoNames.dfy` | name allocation in the Go generator |
| `StreamChunks.dfy`, `ClientStreams.dfy`, `StreamsEndToEnd.dfy` | streaming, from the handler's iteration to the consumer's |
| `TaskTree.dfy`, `TaskCascade.dfy`, `TaskWakeup.dfy` | cascading failure over a tree, the same while the tree is in use, and the wake-up of a task's middleware |
| `Naming.dfy` | acronym-aware names |

In the step systems the server, the network, timers, contexts and the scheduler are arbitrary. The client's
subscription protocol assumes two things of the server: it sends results and patches only for a subscription
whose frame it got on that connection, and patches only if that frame asked for them. Auth assumes one verdict
per frame, in order, besides the timeout's. Fields marked as history record what happened and are read by no step.

## Where code and comments differ

- `topoSortSchemas` says it is iterative, leaves cyclic schemas in source order, and that cycles only arise through
  `z.unknown()`. It is recursive and puts a cycle in post-order: `CyclicPairIsReversed` is two schemas that come out
  swapped, and by `TopoSortSchemas` source order is kept exactly where every dependency already precedes its user.
  Cyclic references are real and emitted lazily.
- `ApplyTransforms` says every type mismatch is an error. `FieldRulesFailExactly` says which are, over every field type:
  rules on a pointer to anything but a string do nothing (`PointerRulesAreIgnored`), and an unknown operation on a slice
  that is empty by then goes unnoticed (`UnknownOpMayGoUnnoticed`). The static check refuses both.
- `backoff.delay` is meant to be the linear delay capped at the maximum. A product that wraps around int64 may come out
  below the cap: `DelayIsCappedLinear` gives the exact condition and `WrappedDelayExists` an instance. And the loop
  waits before every attempt exactly if the cap in force is positive (`WaitsArePositive`), which a config frame with a
  very large cap undoes (`ConfiguredCapMayBeNegative`).
- `compositeKey` is one-to-one exactly on parts without NUL: `ClashesExactlyWithNul`, with `NulInAPartClashes` an
  instance; among those lists only no part and one empty part clash (`CompositeKeyClashes`).
- `register` allows a known ID, as a caller's update path, but does not unfile what it replaces. The index stays
  coherent exactly if that was filed under no key: `SubscriptionManager.Register`.
- The server's auth timeout is not the verdict on an auth frame, as the read loop notes, and a client with a token
  passes it over (`VerdictAnswersOwnFrame`). One without a token that calls RefreshAuth may be given it
  (`TimeoutTakenForVerdict`). A frame written to the connection before a reconnect, and counted on the one after, puts
  the count of abandoned frames out by one for good: from then on every caller on that connection that still waits
  loses its verdict, and until then none does (`WaitingCallerLosesVerdictExactly`, with `StrayFrameCostsAVerdict` an
  instance).
- `failChildren` says it marks all running or created children, recursively. A child added once its parent's children
  were copied is passed over (`CascadeReachesAllInTime`, `LateChildSurvives`). And a task that has ended takes nothing
  down with it (`CascadeIsComplete`, `EndedTaskTakesNothingDown`).

## Model

| member | source | states |
|---|---|---|
| ClientSubscriptions.SlotTable.SendSubscribe | client/subscription.go:210-232 | dropped, queued or given a slot; nobody is left waiting beside a free slot, and a newcomer that gets a slot overtakes nobody |
| ClientSubscriptions.SlotTable.ReleaseSubSlot | client/subscription.go:281-309 | a slot of the current connection is given back and passed to the first queued subscriptions still open; one of an older connection changes nothing |
| ClientSubscriptions.SlotTable.End | client/subscription.go:327-363 | the subscription leaves the table and the first occurrence of it leaves the queue, all else in order |
| ClientProtocolProofs.StepKeeps | client/subscription.go:173-491 | every critical section of the protocol, from any state satisfying the invariant, keeps it |
| ClientSubscriptions.DrainIs | client/subscription.go:285-309 | with only open subscriptions queued, the popping loop moves the first min(free slots, queue length) of them, in order |
| ClientSubscriptions.ReleaseIs | client/subscription.go:281-309 | a released slot goes to at most one waiting subscription, the first, and stays free only if none waits |
| ClientProtocolProofs.SlotsAreAccountedFor | client/subscription.go:201-309 | in every reachable state the count of slots is the number of holders, at most 64; the queue has no duplicates and is non-empty only when all are taken |
| ClientDelivery.EveryOpenSubscriptionHasOnePlace | client/subscription.go:210-309 | on the current connection an open subscription is with exactly one of: a designated sender, the queue, the goroutine about to mark it, awaiting its first answer, answered; in the last two its frame is on the wire or being written, unless the write failed or it was too large |
| ClientDelivery.NothingIsLost | client/subscription.go:210-309 | with no goroutine in transit and no failed write, an open subscription's frame is on the wire and its answer awaited or come, or it waits behind 64 unanswered ones, or it is about to be closed as too large |
| ClientDelivery.WhatMustCloseCloses | client/subscription.go:265-280 | a subscription whose frame was too large, and after shutdown every one, is closed or has a pending call that will close it |
| ClientProtocolProofs.FramesAreOrdered | client/subscription.go:201-232 | on every connection each ID has at most one first frame and one unsubscribe, and no subscribe follows the unsubscribe |
| ClientProtocolProofs.EndedSubscriptionsAreUnsubscribed | client/subscription.go:327-363 | a closed subscription whose frame was written has its unsubscribe written or about to be, unless a write failed |
| ClientProtocolProofs.PatchesMeetFreshValues | client/subscription.go:457-491 | a patch meets a value of its own connection, or a subscription that still awaits its first answer there |
| ClientDelivery.PatchWithoutValueAsksAgain | client/subscription.go:234-245 | a patch for an open subscription without a value ends, as the read goroutine moves on, in a re-send being asked for |
| ClientDelivery.RequestedResendIsKept | client/subscription.go:234-263 | while the connection lives, a re-send asked for waits on the first answer, or the reader has just taken that answer or an error that closes the subscription |
| ClientDelivery.RequestedResendIsServed | client/subscription.go:247-263 | it is forgotten only with its connection; taken, it becomes a frame of its own on the same slot, or frees the slot if the subscription or connection is gone |
| ClientDelivery.StepDelivers | client/subscription.go:210-363 | every section keeps all this |
| ClientCalls.Router.DeliverResult | client/client.go:1071-1095 | a result leaves no call or stream under its ID and takes exactly one entry if it is for a call or a stream, none otherwise; the tables stay disjoint |
| ClientCalls.Router.HandleBadBinary | client/client.go:1097-1118 | an unusable binary frame takes exactly the pending call of its ID if there is one, and never a stream or subscription |
| ClientCalls.Router.HandleStreamEnd | client/client.go:981-996 | a stream's end leaves no call or stream under its ID, having taken exactly the one it is for; the tables stay disjoint |
| ClientCalls.Router.TakePending | client/call.go:108-117 | whoever finds the entry removes it, so only one party does |
| ClientCalls.StepKeeps | client/call.go:48-117 | every section of callers, read loop, drops and shutdown keeps the invariant |
| ClientCalls.CompletionNeverBlocks | client/call.go:32-117 | a call's channel gets at most one send over any run, and the send finds it empty |
| ClientCalls.CallerIsNeverStranded | client/call.go:57-104 | a caller that has not returned has exactly one of: its pending entry, a party about to send, the message |
| ClientCalls.OutcomeIsFinal | client/call.go:57-104 | the outcome a caller returns with is its only one, and a received one arrived under its own ID |
| ClientCalls.FrameReachesOneThing | client/client.go:1005-1118 | a frame's ID is in at most one table, the frame takes at most one entry of all tables, and a message is owed anew only to the call whose entry it took: at most one, and to no other call |
| ClientCalls.DropCompletesEveryCall | client/client.go:646-678 | after a drop no call is pending and each is owed exactly the loss |
| ClientAuth.StepKeeps | client/client.go:808-847 | every section of authenticate and of the read loop keeps the invariant, with timeouts and frames written to an older connection among the steps |
| ClientAuth.VerdictAnswersOwnFrame | client/client.go:893-941 | with a token, and without one until a timeout is taken for a verdict, a verdict handed to a caller is the server's answer to that caller's own frame |
| ClientAuth.OutstandingIsAbandonedThenLive | client/client.go:433-445 | if no frame went astray, the unanswered frames are the abandoned ones, oldest first, and then the live waiter's |
| ClientAuth.EveryVerdictIsPlaced | client/client.go:893-941 | no verdict is taken for an unsolicited one; one that is not dropped goes to its own caller, and one that is dropped has a caller that gave up, or else the waiting caller, after a frame went astray |
| ClientAuth.WaitingCallerLosesVerdictExactly | client/client.go:893-941 | a caller still waiting when its verdict is matched loses it exactly if some frame went astray on the connection, and is handed it exactly if none did; once one has, this holds for every later caller |
| ClientAuth.TakenVerdictArrives | client/client.go:808-847 | a caller whose context ended after its verdict was taken still receives it |
| ClientAuth.TimeoutTakenForVerdict | client/client.go:893-941 | without a token a run exists in which RefreshAuth returns the server's timeout as its verdict |
| ClientAuth.StrayFrameCostsAVerdict | client/client.go:853-865 | a run in which a frame goes astray and the next caller's verdict is dropped |
| ClientReconnect.Wrap64 | client/client.go:226-232 | int64 wrap-around: in range, and the identity on values in range |
| ClientReconnect.DelayIsCappedLinear | client/client.go:226-232 | the delay is positive and at most the maximum always, and the capped linear one exactly unless a wrapped product lands below the cap |
| ClientReconnect.WrappedDelayExists | client/client.go:226-232 | such a wrapped product exists |
| ClientReconnect.Run | client/client.go:451-539 | whatever the settings at each event and wherever the context ends, the nested loop stops at the first event the history alone calls for, for the reason it gives, having waited what the history alone says |
| ClientReconnect.StopsRightAfterTheLimit | client/client.go:451-539 | the client closes by rejection exactly on the (MaxAttempts+1)th of a run of rejections |
| ClientReconnect.WaitsArePositive | client/client.go:451-539 | every wait is positive exactly if no back-off happens under a cap that is not |
| ServerRegistry.Conn.RegisterRequest | connection.go:586-640 | a token no other entry holds, every other ID's entry left alone, and the shadowed execution handed out to be cancelled; tokens in the table stay distinct |
| ServerRegistry.Conn.UnregisterRequest | connection.go:641-651 | only an entry under the caller's own token can go, every other stays as it was, and a refresh deferred to it is reported |
| ServerRegistry.Conn.RegisterRefreshOf | connection.go:669-701 | no entry but a refresh of this ID is replaced, what is shadowed is that refresh, and a deferral is marked on a client frame's entry |
| ServerRegistry.Conn.Close | connection.go:1477-1496 | the first close marks the connection and cancels every registered execution |
| ServerRegistry.StepKeeps | connection.go:586-710 | every section of frames, refreshes, finishing handlers and close keeps the invariant |
| ServerRegistry.NoExecutionIsOrphaned | connection.go:586-649 | an unfinished execution is its ID's entry under its own token, or cancelled or about to be; after close all are |
| ServerRegistry.FinishTakesOnlyItsOwn | connection.go:641-652 | a finishing execution leaves every other execution's entry in place |
| ServerRegistry.RefreshCancelsOnlyRefreshes | connection.go:669-701 | starting a refresh cancels no client request or subscribe |
| ServerRegistry.DueRefreshIsComing | connection.go:1356-1390 | a refresh that came due is launched, running, or deferred to the request that runs, until answered or superseded |
| ServerRegistry.DueRefreshEndsByAnswer | connection.go:651-701 | it stops being due only by a refresh begun later that finishes uncancelled, a later client frame for the ID, or close |
| ServerRegistry.NoSubscriptionOutlivesClose | connection.go:1477-1496 | once the sweep of a closed connection has run, no later state holds a subscription of it, though close may come between register's check that the connection is open and its insertion |
| ServerRegistry.SubscriptionsStayCapped | subscription.go:56-93 | a connection never holds more than MaxSubscriptions |
| SubscriptionIndex.CompositeKeyInjective | subscription.go:322-325 | on non-empty lists of NUL-free parts, equal keys mean equal lists |
| SubscriptionIndex.CompositeKeyClashes | subscription.go:322-325 | with the empty list too, the only clash is no part against one empty part |
| SubscriptionIndex.ClashesExactlyWithNul | subscription.go:322-325 | a list's key is its own among lists of NUL-free parts exactly if its parts hold no NUL |
| SubscriptionIndex.SubscriptionManager.Register | subscription.go:56-93 | refuses for close, or at the cap for a new ID, and changes nothing; else adds exactly the subscription in place of any under its ID, and the maps stay coherent exactly if none was replaced or it was filed under no key |
| SubscriptionIndex.SubscriptionManager.Unregister | subscription.go:95-129 | keeps the maps coherent and removes exactly the one subscription |
| SubscriptionIndex.SubscriptionManager.UnregisterConn | subscription.go:143-172 | keeps the maps coherent and removes exactly the connection's subscriptions |
| SubscriptionIndex.SubscriptionManager.UpdateKeys | subscription.go:174-207 | keeps the maps coherent, replaces the one subscription's keys and no other's |
| SubscriptionIndex.SubscriptionManager.GetSubscriptionsForKey | subscription.go:256-270 | returns exactly what a scan of all subscriptions for the key finds, each once |
| SubscriptionIndex.SubscriptionManager.ToRefresh | subscription.go:291-320 | over an index that stays as it is, the queued keys refresh exactly the subscriptions a scan would select, each once however many keys match |
| SubscriptionIndex.FanOut | subscription.go:291-320 | over an index that changes between its lookups, what is refreshed is what some lookup found, each once |
| SubscriptionIndex.AgreesWithout | subscription.go:108-118 | unfiling a subscription under its keys leaves the index equal to a scan of the others |
| SubscriptionIndex.AgreesWith | subscription.go:84-91 | filing it makes the index equal to a scan of the others and it |
| SubscriptionIndex.AgreesReplacing | subscription.go:84-91 | filing it over another leaves the index right exactly if that one was filed under no key |
| ZodOrder.DepReaches | zod.go:429-449 | terminates on any graph, and is true exactly when a non-empty path leads from one schema to the other |
| ZodOrder.PushDeps | zod.go:437-446 | the inner loop stops on the target exactly if it is a dependency, else stacks exactly the unvisited ones |
| ZodOrder.TopoSorter.VisitDeps | zod.go:475-486 | each dependency is placed before the node, or reaches it; nodes on the way down stay gray |
| ZodOrder.TopoSorter.Visit | zod.go:470-489 | the node is placed once, after every dependency that does not reach it, and what was placed stays where it was |
| ZodOrder.TopoSortSchemas | zod.go:451-496 | each name once, each dependency before its user except around a cycle; distinct schemas stay in source order exactly if every dependency already precedes its user |
| ZodOrder.CyclicPairIsReversed | zod.go:451-496 | two schemas that name each other come out swapped |
| ZodOrder.BuildZodSchemas | zod.go:356-427 | with distinct names, a permutation of the input's schemas in which every eager reference is to an earlier schema and every lazy one to some schema, lazy exactly where the target reaches back |
| ZodOrder.KnownSchemas | zod.go:370-378 | the schemas are the interfaces with a validated field |
| ZodOrder.Dependencies | zod.go:383-398 | each schema's dependencies, each once, in field order |
| ZodOrder.Schemas | zod.go:405-421 | each reference is lazy exactly where its target reaches back to the schema |
| ZodOrder.DepListHolds | zod.go:388-397 | the list holds exactly the schemas the fields name |
| ZodOrder.OrderedLoadsSafely | zod.go:356-427 | an order that respects dependencies outside cycles never evaluates a schema before it is defined |
| ZodOrder.CyclesHaveNoOrder | zod.go:400-416 | around any cycle every order puts some dependency after its user, so lazy references are needed there |
| TransformTags.CheckTag | transform.go:78-101 | passes exactly the tags whose operations the field's type takes |
| TransformTags.Checker.CheckType | transform.go:34-56 | on success all types newly seen are good and lead to seen types; on failure no closed set of good types holds the type |
| TransformTags.Checker.CheckChildren | transform.go:58-76 | goes on to the struct a field's type leads to, through one pointer, slice or array |
| TransformTags.ValidateTransformTags | transform.go:21-32 | accepts exactly the types from which only good tags are met, recursive types included |
| TransformTags.SafeIsReachability | transform.go:34-76 | that is, exactly when every struct type reachable through exported fields has good tags |
| TransformTags.ApplyFieldRules | transform.go:201-236 | a value rules succeed on keeps its type |
| TransformTags.ApplyStruct | transform.go:140-165 | a value walked successfully keeps its type |
| TransformTags.RecurseInto | transform.go:167-199 | likewise through pointers, slices and arrays |
| TransformTags.ApplyTransforms | transform.go:121-138 | likewise at the top |
| TransformTags.AcceptedNeverFails | transform.go:21-269 | a type the check accepts never makes the walker fail, on any value of it |
| TransformTags.FieldRulesFailExactly | transform.go:201-236 | the rules of a field fail on a value exactly as FailsOn says, over every field type: bad rules on a string or on a string behind a pointer, an unknown operation reached while elements are left, any rule on another type that is not a pointer |
| TransformTags.SliceFailsExactly | transform.go:271-317 | a slice fails exactly if an element is left when the first unknown operation comes |
| TransformTags.PointerRulesAreIgnored | transform.go:201-236 | a tag on a pointer to something else than a string is refused by the check and ignored by the walker |
| TransformTags.UnknownOpMayGoUnnoticed | transform.go:271-317 | a tag with an unknown operation is refused by the check and may pass the walker |
| TransformTags.TagCheckIsExact | transform.go:78-101 | the check passes a tag exactly if it can fail with no string operations and the field is a string, a pointer to one or a slice of them |
| TransformExact.WalkerFailsExactly | transform.go:121-269 | whatever the string operations do, some value of a type makes the walker fail exactly if a struct type with a field that can fail is met from it, not counting through arrays of length 0; a string slice can fail exactly if its tag has an unknown operation and some string is left when that comes |
| TransformExact.FailingValue | transform.go:140-199 | such a value for the operations given, built along the path to the field |
| TransformTags.StringOpsFailOnBadRulesOnly | transform.go:238-269 | whether the operations fail does not depend on the string |
| TransformTags.ApplySliceStringOps | transform.go:271-317 | the buffer rewritten and filtered in place gives what running the rules on a fresh list would |
| TransformTags.FilterInPlace | transform.go:283-291 | reading and writing one buffer loses no element that is not empty |
| TransformTags.SliceIsElementwise | transform.go:271-305 | rule by rule over the whole slice, each element fares as it would alone, and the slice fails exactly if some element does |
| TransformTags.StructTreated | transform.go:140-199 | at every path of a value, strings are rewritten by the rules of their own field, string slices filtered by theirs, and everything the tags do not reach is untouched |
| TransformTags.FieldTreated | transform.go:147-163 | the same for one field, where unexported ones are left alone |
| GoNames.FreeName | generate_go.go:733-742 | the search ends, with the first of base, base2, base3, ... that is not blocked |
| GoNames.SuffixedInjective | generate_go.go:737-742 | the names tried never repeat |
| GoNames.Generator.AssignLevels | generate_go.go:695-717 | the levels are a function of the types and fixed names, whatever order the map of groups gives |
| GoNames.Generator.GroupByName | generate_go.go:699-703 | each type is in the group of its name and no other |
| GoNames.Generator.BumpGroups | generate_go.go:704-716 | exactly the colliding types move up, by one, and not past level 2 |
| GoNames.Generator.AssignSuffixes | generate_go.go:732-746 | in sorted order, each type gets the first name of its base free by then |
| GoNames.Generator.ClaimConstants | generate_go.go:749-791 | there is no error exactly if all constants have names of their own, and the top-level names are all those given |
| GoNames.Generator.AssignNames | generate_go.go:689-792 | all of this together, for any map order and any sorted order |
| GoNames.AllottedIsDistinct | generate_go.go:732-746 | the names are pairwise distinct and none is fixed |
| GoNames.AllottedIsUnique | generate_go.go:719-746 | the names follow from the order and the bases alone |
| GoNames.FreeBaseIsKept | generate_go.go:682-746 | a type keeps its base name exactly if nothing before it took it |
| GoNames.Generator.AssignImportNames | generate_go.go:1411-1429 | every import gets the first name of its base that is no keyword, not reserved and not taken |
| GoNames.FreeParamName | generate_go.go:583-585 | the search ends, with the fewest underscores that free the name |
| GoNames.Generator.BuildParams | generate_go.go:570-590 | parameters have distinct names that shadow no reserved, import or top-level name |
| StreamChunks.Normalized | server.go:261-275 | the settings in use are always positive, and sensible ones are kept |
| StreamChunks.StreamChunker.AddItem | stream_chunk.go:40-65 | an item accepted is buffered and nothing lost with it; frames sent and items lost only grow, and after an error nothing is accepted |
| StreamChunks.StreamChunker.OnDelay | stream_chunk.go:69-75 | a timer, late or not, keeps items conserved, chunks bounded and a flush pending, and leaves an empty buffer unless an error came first |
| StreamChunks.StreamChunker.FlushLocked | stream_chunk.go:79-97 | the whole buffer goes out in one frame or, refused, is lost with the error set |
| StreamChunks.StreamChunker.Close | stream_chunk.go:102-106 | afterwards every item taken is in a sent frame or was in a refused one |
| StreamChunks.AddKeeps | stream_chunk.go:40-65 | no item lost or reordered, chunks within limits, and a flush pending for a non-empty buffer |
| StreamChunks.DelayFlushKeeps | stream_chunk.go:69-75 | the same for a timer, stale or not |
| ClientStreams.RawStream.PushItem | client/stream.go:41-48 | an item is accepted unless the stream is over or stopped; what was accepted is what was taken and what is buffered, in order |
| ClientStreams.RawStream.EndStream | client/stream.go:52-62 | ending loses nothing: all that was accepted can still be taken |
| ClientStreams.RawStream.NextItem | client/stream.go:66-79 | items are taken in the order accepted, and the stream is called over only once all are taken or it was stopped |
| ClientStreams.RawStream.StopStream | client/stream.go:84-110 | what is buffered is dropped, no later call waits, and the server is to be cancelled exactly if it had not ended the stream and this is the first stop |
| StreamsEndToEnd.StepKeeps | connection.go:1088-1170 | every section of startStream, iteration, timers, read loop, consumer, drop and shutdown keeps the invariant, with refused and unsendable requests among the steps |
| StreamsEndToEnd.ReadsAPrefix | client/client.go:960-996 | whatever stops, drops or fails, the consumer has read a prefix of what was yielded, in order |
| StreamsEndToEnd.DrainedReadsEverything | client/stream.go:66-79 | a consumer whose loop ends without stop, cut or unsendable request has read everything the connection took, and sees an error exactly if the server sent one |
| StreamsEndToEnd.ChunksAreBounded | stream_chunk.go:40-65 | for any settings, each chunk has 1 to MaxItems items and is below MaxBytes but for its last |
| StreamsEndToEnd.NothingFollowsTheEnd | connection.go:1134-1170 | no frame follows the terminal one, and no timer still armed can add one |
| StreamsEndToEnd.FlushIsPending | stream_chunk.go:57-60 | an item in the buffer has a live timer that will send it |
| StreamsEndToEnd.WaitingConsumerIsServed | client/stream.go:66-79 | a waiting consumer's stream is in the table, or someone is about to end it |
| TaskTree.TaskNode.SetStatus | tasks/task_tree.go:244-255 | the middleware has been told exactly if the task has ended, once and of the outcome shown; an outcome stays |
| TaskTree.TaskNode.SetFailed | tasks/task_tree.go:257-267 | the task has ended afterwards, its first outcome kept and told once |
| TaskTree.TaskNode.CompleteTop | tasks/task_tree.go:325-344 | likewise for a top-level task |
| TaskTree.TaskNode.SignalMiddlewareEnd | tasks/task_tree.go:195-208 | only the first signal counts |
| TaskTree.AddChild | tasks/task_tree.go:238-242 | a new leaf keeps the tree a tree, below n and all that n is below |
| TaskTree.FailChildren | tasks/task_tree.go:372-392 | over a tree at rest, exactly the live nodes below n fail, with the message; no other node changes |
| TaskTree.FailTop | tasks/task_tree.go:348-369 | over a tree at rest, if n was live then n and all below it have ended, the live ones failed with the message and each told so exactly once, earlier outcomes and all other nodes as they were; if n had ended nothing changes |
| TaskTree.CollectIDs | tasks/task_tree.go:403-415 | appends the depth-first sequence of what is below n: each child, all below it, the next child |
| TaskTree.PreOrderLists | tasks/task_tree.go:403-415 | that sequence holds exactly the IDs of the nodes below n |
| TaskTree.SubtreeIDs | tasks/shared_task.go:96-100 | on a tree, the IDs a removed task takes with it are exactly its own and those of all below it |
| TaskTree.FailAllCascades | tasks/task_tree.go:346-392 | all nodes reached have ended, earlier outcomes are kept, and each newly failed one is told exactly once |
| TaskTree.CascadeIsComplete | tasks/task_tree.go:346-369 | failTop leaves all below ended exactly if the task was live or all below had ended |
| TaskTree.EndedTaskTakesNothingDown | tasks/task_tree.go:346-369 | a completed task with a live child, which outlives failTop |
| TaskCascade.StepKeeps | tasks/task_tree.go:238-392 | every section of addChild, the terminators and any number of cascades keeps the invariant |
| TaskCascade.CascadeReachesAllInTime | tasks/task_tree.go:346-392 | whatever goes on meanwhile, a cascade that is through has come to exactly the nodes that were there, all the way down, when their parents' children were copied, and all of these have ended |
| TaskCascade.UndisturbedCascadeIsComplete | tasks/task_tree.go:346-392 | if no child came too late, everything below the top has ended |
| TaskCascade.CascadeTouchesOnlyItsOwn | tasks/task_tree.go:372-392 | a section of a cascade ends at most one task: a live one it came to, with its own message |
| TaskCascade.OutcomeStays | tasks/task_tree.go:244-392 | an outcome stays, whatever cascades pass |
| TaskCascade.LateChildSurvives | tasks/task_tree.go:238-392 | a child that comes too late stays alive under a failed parent |
| TaskTree.OutcomeIsAbsorbing | tasks/task_tree.go:244-392 | whatever operations follow in whatever order, an outcome stays and was signalled once |
| TaskWakeup.StepKeeps | tasks/task_tree.go:99-208 | every section of runManaged, of any number of calls of next(), and of the terminators keeps the invariant |
| TaskWakeup.NextReturnsTheOutcome | tasks/task_tree.go:134-152 | next() returns the error of the outcome the task shows, even if it ended before next() began |
| TaskWakeup.SendNeverBlocks | tasks/task_tree.go:187-208 | the one send on the capacity-1 channel has room |
| TaskWakeup.NoSignalIsLost | tasks/task_tree.go:187-208 | once the task has ended, a waiting next() can receive or a terminator that cannot block is on its way, exactly if no other call of next() has received the one signal |
| TaskWakeup.SignalsLeadToReturn | tasks/task_tree.go:187-208 | that terminator's remaining steps let next() return |
| TaskWakeup.OutcomeStays | tasks/task_tree.go:244-369 | in any race of terminators the first outcome stays |
| Naming.ToKebabAcronyms | naming.go:133-177 | the loop that steps its index back ends, with a dash exactly before a capital that follows something else or precedes a small letter |
| Naming.ErasingGivesLowered | naming.go:133-177 | on input without dashes, erasing dashes gives the input with its capitals lowered |
| Naming.DashesAreSeparators | naming.go:133-177 | dashes never lead, trail or double |
| Naming.ToLowerCamelAcronyms | naming.go:187-225 | lowers exactly the leading acronym, by a rule on positions |
| Naming.StylesAgreeOnAcronym | naming.go:133-225 | both styles end a leading acronym at the same place |

## Left out

- Sockets, HTTP, REST, MCP, JSON, reflection, struct-tag parsing, template text, observers, logging and panics: I/O or
  string assembly; payloads, types, tags and string operations are abstract values.
- Time: a timer or a context may fire at any point, or never. Nothing is claimed about how soon.
- ClientAuth.StepKeeps: models the verdicts of one connection; the shutdown that an unsolicited auth_error causes is the end of the read loop.
- ClientCalls.StepKeeps: rejectStreamForCall's lookup of the stream and of the call are one step; the code does them in two, and
  only the read loop routes frames. A caller's retry after a lost race with a reconnect is a new call.
- ClientProtocolProofs.EndedSubscriptionsAreUnsubscribed: says nothing of a connection on which a write failed, which the read loop ends.
- ServerRegistry.DueRefreshIsComing: a trigger that fires before the first subscribe has registered its keys is not due, and runSubscribe's
  existence check and registration (connection.go:1320-1332) are one step; the code lets two first subscribes of one ID race between them.
- ServerRegistry.StepKeeps: handlers are only their registering and finishing, and of those that hold the index lock only this
  connection's are modelled; the order of response frames from two executions is not fixed by the code
  (connection.go:1443-1457) and not claimed.
- SubscriptionIndex.SubscriptionManager.ToRefresh: is processRefreshQueue over one state of the index; FanOut says what holds when the index changes in between.
- TransformTags.ApplyStruct: computes on values that are trees, as decoding makes them; the code sets fields in place, and two pointers
  to one struct would have it transformed twice.
- TransformTags.ValidateTransformTags: requires that pointers lead somewhere; on `type P *P` the code's loop does not end.
- TransformExact.WalkerFailsExactly: is of types that do not contain themselves by value, as Go requires.
- GoNames.Generator.AssignNames: takes the sorted order as given, any permutation; the comparison it is sorted by and the spelling of candidates are abstract.
- StreamsEndToEnd.StepKeeps: a stream's cancel frame is only the end of the handler's context; the error close returns is not modelled, only what it sends.
- ClientStreams.RawStream.NextItem: is called where the wait is over; the condition variable itself is not modelled.
- TaskTree.FailTop: and FailChildren, on the heap, run on a tree that nobody else changes meanwhile; TaskCascade has the same walk with everything interleaved, on values and without the signals, which TaskWakeup has.
- The request-slot semaphores, the user index, snapshots of tasks, the tasks' progress and output, and Server.run's channel loop are not modelled.
