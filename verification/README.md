# A verified model of repics

repics binds EPICS client and server libraries to Python. Between the network libraries and
Python's callbacks it keeps a good deal of state of its own: trees of changed-field marks,
bounded queues that merge updates, wake-up tokens, batches, and several small protocols of
tasks that overlap. This project models that state in Dafny and proves what the code relies on.

Run `dafny verify dfyconfig.toml` to check everything.

## What is modelled

**The change-mark tree** (`src/pva/value.rs`). `DottedPath`, `PvDesc` and `PvValue` hold the
three readings of a field (a dotted string, a node of the type tree, a bit of the depth-first
numbering of the pvAccess changed set) and connect them. `ChangeMarks` and `ValueView` prove
that `changed`, `changedSet`, `mark`, `select` and item assignment do on bits and strings
what they should mean on trees; `Assign` and `AssignExact` do so for `assign`, including the state it
leaves when it fails half-way, and `AssignMeaning` says what a leaf then holds without following
the code; `TypeSpec` for printing and parsing type specs.

**The delivery path of a monitor** (`src/pva/server.rs`, `src/pva/hub.rs`,
`python/repics/_monitor.py`). `PvValue` shows that the recursive fill and delta functions are one
pointwise overlay on leaves. On that rest the laws of merging (`Updates`, `MonitorQueue`), the server's
side (`SharedPv`) and the whole path as one system (`Delivery`): posts, rings, frames, decoder,
queue, consumer. `Wakeup` is the token protocol that tells Python there is something to take,
`QueueGist` and `WakeupLoss` show that it loses nothing, `MonitorHub` is the hub object,
`DispatcherPlan` the last collapse before the callbacks.
`Attachments` is the bookkeeping of channels per PV.

**The Channel Access side and the batch put.** `Subscription` is the task behind a monitor
(`src/hub.rs`), `SubscriptionLog` what it must have sent, `Stream` and `Drain` the pull side of a
subscription (`src/ca.rs`), `CaPv` the served PV (`src/ca_server.rs`), `PutMany` the two-phase batch put
(`python/repics/pva/__init__.py`).

Code that works step by step is imperative here too: each class carries the fields the code
updates, and its methods are proved against functions of the old state. Where several
callers overlap, the steps between which another may get in form a state machine, and the theorems
quantify over every run of it.

## Where the code and its documentation differ

- docs/values.md says that a dict given to a union picks a structure member, and that a variant takes a
  dict. Neither is so: no type is inferred from a dict, so the assignment raises first (`Assign.DictNeverSelects`).
- docs/pva-client.md calls `limit` the number of updates queued per monitor. A lifecycle item in the
  queue lets one more value in, without bound (`MonitorQueue.LimitIsExceeded`); the bound that
  holds is `MonitorQueue.MemoryBound`.
- docs/values.md and docs/migration.md say `Type(('S', id, members))` is not accepted; the code
  accepts it. The comment at src/pva/value.rs:313 says `Type(t.aspy())` round-trips; it does so
  exactly for compound types (`TypeSpec.TypeRoundTripIff`).
- The put documentation says that with `throw=False` an entry that fails is its exception. The whole
  call raises instead when the options, a name or a request of any entry are refused, and when a value
  cannot be put: it cannot be assigned, is a view of a sub-structure, or has nothing marked
  (`PutMany.OneValueStopsTheBatch`; `PutMany.NeverRaisesIff` has the exact condition).
- A hub's batch may be empty although a token woke it: when each of its monitors was closed before its
  queue was taken, or had its opening complete on a queue already emptied (`Wakeup.EmptyBatchIff`).
- A PV's channel count is exact at every moment if every open finds a PV and no name is given to
  another PV while one is in use under it (`Attachments.OrderlyCounts`). Without either condition it
  can pass below zero (`Attachments.OneMissIsEnough`, `Attachments.OneRebindIsEnough`).

## Model

| member | source | states |
|---|---|---|
| `DottedPath.SegmentsOfJoin` | src/pva/value.rs:34-40 | joining a path and a dot-free name with `.` appends one piece to the path's pieces |
| `DottedPath.SegmentsOfExtend` | src/pva/value.rs:34-52 | a dotted string built name by name splits back into exactly those names |
| `DottedPath.WalkVisitsPrefixes` | src/pva/value.rs:727-733 | whatever the string, the `rfind('.')` walk only ever visits prefixes of the path |
| `DottedPath.WalkReachesEvery` | src/pva/value.rs:727-733 | the walk terminates and reaches every proper non-root ancestor of the path |
| `DottedPath.WalkOfCanonical` | src/pva/value.rs:727-733 | for a path without empty names the walk is exactly its proper non-root ancestors, innermost first |
| `PvDesc.FindDesc` | src/pva/value.rs:43-52 | the cursor loop finds the node that the path's pieces name, or nothing |
| `PvDesc.NodeSpan` | src/pva/value.rs:78-89 | a path has a bit if and only if it names a node, and its span lies inside the root's |
| `PvDesc.SpanTheorem` | src/pva/value.rs:78-89 | node q's bit lies in [bit(p), bit(p) + total_bits(p)) exactly when p is a path prefix of q |
| `PvDesc.BitHasNode` | src/pva/value.rs:78-89 | every bit below the root's total is some node's |
| `PvDesc.BitDeterminesNode` | src/pva/value.rs:78-89 | no two nodes share a bit |
| `PvDesc.DescAtConcat` | src/pva/value.rs:43-52 | looking a path up in two legs gives the same node, and the bits of the legs add up |
| `PvDesc.DottedPathFinds` | src/pva/value.rs:34-52 | the dotted string made from a node's path finds that node again |
| `PvValue.DefaultValue` | src/pva/value.rs:467-478 | a fresh value has its descriptor's type at every node |
| `PvValue.DefaultIsEmpty` | src/pva/value.rs:467-478 | a fresh value is zero, empty, unselected or null at every leaf, however deep |
| `PvValue.CoveredMeansMarkedPrefix` | src/pva/value.rs:555-580 | a leaf counts as marked exactly when its own bit or an ancestor's is set |
| `PvValue.PostDeltaIsFill` | src/pva/server.rs:374-380 | writing marked leaves into the stored value and completing a partial value from a prior are the same function |
| `PvValue.FillAtLeaf` | src/pva/hub.rs:157-165 | completion is pointwise: a leaf is the newer one's if it or an ancestor is marked, else the prior's |
| `PvValue.LeavesDetermine` | src/pva/value.rs:54-63 | two values of one type with equal leaves are equal |
| `PvValue.OverlayUsesCoveredOnly` | src/pva/hub.rs:157-165 | the unmarked leaves of a frame do not matter |
| `PvValue.OverlayAbsorbs` | src/pva/hub.rs:157-165 | overlaying a completed update is the same as overlaying the partial one it came from |
| `PvValue.SquashLaw` | src/pva/hub.rs:93-116 | newest value with united marks means the two updates in turn, if the newer one moved only inside its own marks |
| `PvValue.DisjointDeltasCommute` | src/pva/server.rs:374-380 | updates that share no marked leaf commute |
| `ChangeMarks.ChangedMeansRelated` | src/pva/value.rs:707-739 | `changed(f)` is true exactly when f, an ancestor or a descendant is marked |
| `ChangeMarks.ClearingSpan` | src/pva/value.rs:429-449 | clearing (setting) a field's span clears (sets) exactly its subtree, node by node |
| `ChangeMarks.CollectMarked` | src/pva/value.rs:555-580 | the recursion with its output list appends exactly the collected paths, in order |
| `ChangeMarks.CollectChildren` | src/pva/value.rs:570-578 | the loop over a structure's children with the bit that moves along |
| `ChangeMarks.CoveredLeafCollected` | src/pva/value.rs:555-580 | with `expand`, every leaf with a marked self or ancestor is collected |
| `ChangeMarks.CollectedIsCoveredLeaf` | src/pva/value.rs:555-580 | with `expand`, nothing else is collected |
| `ChangeMarks.OutermostMeans` | src/pva/value.rs:555-580 | outermost means marked itself and nothing above it marked |
| `ChangeMarks.OutermostCollected` | src/pva/value.rs:555-580 | without `expand`, every outermost marked node is collected |
| `ChangeMarks.CollectedIsOutermost` | src/pva/value.rs:555-580 | without `expand`, nothing else is collected |
| `ChangeMarks.OutermostCoverTheCovered` | src/pva/value.rs:555-580 | a leaf is marked exactly when an outermost marked node is on its path, and then exactly one is: an antichain with the same leaves |
| `ChangeMarks.ExpandedSetIsExact` | src/pva/value.rs:744-773 | a view's expanded changed set is exactly its marked leaves, relative to the view, both directions |
| `ChangeMarks.SubViewIsStrippedRoot` | src/pva/value.rs:744-773 | a sub-view's expanded set is the root's with the view's prefix stripped |
| `ChangeMarks.PlainSetIsOutermost` | src/pva/value.rs:744-773 | the plain changed set of any view is exactly the outermost marked nodes below it, relative to the view; empty if the view or anything above it is marked |
| `ChangeMarks.OutermostThroughView` | src/pva/value.rs:555-580 | below a node that is not covered, outermost is a matter of the subtree; below a covered one nothing is outermost |
| `ChangeMarks.MarkedRootIsInvisible` | src/pva/value.rs:555-580 | a marked root is changed, yet its plain changed set is empty |
| `ChangeMarks.ParentsIsLeastClosed` | src/pva/value.rs:761-770 | `parents` gives the least superset closed under dotted ancestors |
| `ValueView.KeptAtRoot` | src/pva/value.rs:603-615 | what an assignment keeps of a field it keeps of the whole root |
| `ValueView.ReplaceTouchesOnly` | src/pva/value.rs:65-76 | replacing a field leaves every field that is neither above nor below it alone |
| `ValueView.ReplacedField` | src/pva/value.rs:603-615 | the root holds the new value, at any depth, where the old one was |
| `ValueView.SetItemMeans` | src/pva/value.rs:603-615 | after item assignment each leaf the object names holds, at its place in the root, what its member stands for, and is marked |
| `ValueView.Selection` | src/pva/value.rs:808-845 | a name selects the member of that name with its default, no name clears, an unknown name gives nothing |
| `ValueView.Root.MarkSpan` | src/pva/value.rs:429-449 | sets or clears the named subtree's bits in place; an unknown path changes nothing |
| `ValueView.Value.Changed` | src/pva/value.rs:707-739 | the loop over names: KeyError at the first unknown name before a changed one, else whether any is changed |
| `ValueView.Value.WalkUp` | src/pva/value.rs:727-733 | the shrinking-path loop meets a mark exactly if a walked ancestor is marked |
| `ValueView.Value.ChangedSet` | src/pva/value.rs:744-773 | `changedSet` of a view computes the specified set for both flags |
| `ValueView.Value.Mark` | src/pva/value.rs:777-799 | a named field sets one bit but clears a subtree; with no name the whole view is set or cleared; nothing else moves |
| `ValueView.Value.SetItem` | src/pva/value.rs:603-615 | the assignment through a view, with everything `assign` keeps of the root, also when it fails part-way |
| `ValueView.Value.Select` | src/pva/value.rs:808-845 | selects (or clears) the union member and marks the field; an unknown field or member changes nothing |
| `ValueView.ChangedMeansOneRelated` | src/pva/value.rs:707-739 | with all names known, `changed` is true exactly when one of them is, is below, or is above a marked node |
| `ValueView.ChangedRaisesIff` | src/pva/value.rs:707-739 | `changed` raises exactly if some name is unknown and none before it is unknown or changed |
| `ValueView.PutSendsCoveredLeaves` | src/pva/value.rs:502-510 | a put sends a leaf with its value if and only if the leaf or an enclosing structure is marked |
| `ValueView.NothingToPutIff` | src/pva/client.rs:559-571 | there is nothing to put exactly when no leaf below the root is marked |
| `Assign.AssignKeeps` | src/pva/value.rs:1456-1568 | on success and on failure part-way: the target keeps its type, every leaf that differs is marked, marks only grow, and only by leaf bits of the target |
| `AssignExact.AssignWrites` | src/pva/value.rs:1456-1568 | a successful assignment converts exactly the leaves the object names and marks exactly those; every other leaf keeps value and mark |
| `AssignExact.EntriesWrite` | src/pva/value.rs:1473-1503 | the same for the loop over a dict, leaf by leaf |
| `AssignExact.FailureStopsThere` | src/pva/value.rs:1491-1502 | a dict that fails fails at one pair: those before it stay assigned, those behind it are not looked at |
| `AssignExact.UnionHoldsThePayload` | src/pva/value.rs:1402-1436 | a built union holds a fresh value of one member with the payload's leaves written and defaults elsewhere; a pair selects the member it names |
| `AssignMeaning.AssignMeans` | src/pva/value.rs:1456-1568 | after a successful assignment every leaf the object names holds what its member stands for (a converted scalar or array, a selected member, a carried type, the items in order) and is marked |
| `AssignMeaning.LeafHolds` | src/pva/value.rs:1504-1565 | what a leaf gets is what the object stands for, whatever the leaf's type |
| `AssignMeaning.ItemsHold` | src/pva/value.rs:1504-1565 | an assigned array has one element per item, in order: null exactly for a None (or an unselected union), else the item's leaves over a fresh default |
| `AssignMeaning.SucceedsIff` | src/pva/value.rs:1456-1568 | an assignment succeeds exactly on objects that can be assigned, a condition on type and object alone |
| `AssignMeaning.PickedIff` | src/pva/value.rs:1345-1400 | the member picked for a bare object, characterised by position among the members |
| `Assign.EntriesKeep` | src/pva/value.rs:1473-1503 | the same for a dict's pairs in turn, the first failure stopping the loop with the earlier pairs in place |
| `Assign.AssignPairs` | src/pva/value.rs:1491-1502 | the loop over a dict's pairs computes the recursive specification |
| `Assign.LeafBitsInSpan` | src/pva/value.rs:1456-1568 | the bits an assignment may set are leaves inside the target's span, never a structure's own bit |
| `Assign.UnionConforms` | src/pva/value.rs:1402-1436 | a built union is unselected or holds a value of the selected member's type |
| `Assign.VariantBuilt` | src/pva/value.rs:1438-1452 | a built variant carries a value of the type it names |
| `Assign.ItemsConform` | src/pva/value.rs:1504-1565 | every element of a built array is null or of the element type |
| `Assign.PickSucceedsIff` | src/pva/value.rs:1345-1400 | a bare object selects a member exactly when a type is inferred from it and some member of the union takes that type, strictly or loosely |
| `Assign.PickedIsFirst` | src/pva/value.rs:1345-1400 | the member picked is the first that takes the type strictly, and only if none does the first that takes it loosely |
| `Assign.PickedKind` | src/pva/value.rs:1345-1400 | a string, a bool, an int, a float, a sequence and a Value each pick a member of their kind; a float prefers a floating-point member where there is one |
| `Assign.VariantCarries` | src/pva/value.rs:1438-1452 | the type a variant carries for each kind of object; None leaves it empty |
| `Assign.FirstAcceptingIsFirst` | src/pva/value.rs:1345-1400 | no accepting member stands before the one that is picked |
| `Assign.DictNeverSelects` | src/pva/value.rs:1271-1335 | a dict given to a union or a variant raises, also when the union has a structure member |
| `TypeSpec.CodeRoundTrip` | src/pva/value.rs:91-124 | every scalar code reads back, alone and as an array code |
| `TypeSpec.SpecRoundTrip` | src/pva/value.rs:145-290 | parsing the printed spec of any descriptor gives that descriptor back |
| `TypeSpec.PrintingIsInjective` | src/pva/value.rs:145-183 | different descriptors print differently |
| `TypeSpec.ParsedIffPrinted` | src/pva/value.rs:145-290 | a spec in printed form parses to a descriptor exactly if that descriptor prints as it |
| `TypeSpec.TypeRoundTripIff` | src/pva/value.rs:317-337 | `Type(t.aspy())` gives t back exactly when t is a compound; otherwise it raises |
| `TypeSpec.IdOverrides` | src/pva/value.rs:317-337 | `id` replaces a structure's own id, in all spec forms, and leaves the members; without `id` a member list has the empty one and a type keeps its own |
| `Updates.ReplaySquash` | src/pva/server.rs:269-273 | squashing into a ring's tail changes nothing for whoever replays it |
| `Updates.MergeAllLast` | src/pva/hub.rs:102-116 | a merged run has the last value and exactly the united marks |
| `Updates.ReplayMergeAll` | src/pva/hub.rs:102-116 | merging a whole run of decoded updates loses no meaning |
| `MonitorQueue.Monitor.Signal` | src/pva/hub.rs:77-85 | a token is sent on the unsignalled-to-signalled edge only |
| `MonitorQueue.Monitor.Push` | src/pva/hub.rs:87-89 | a lifecycle item is queued whatever the limit |
| `MonitorQueue.Monitor.PushValue` | src/pva/hub.rs:95-123 | the queue becomes the specified one: squashed into the tail only when full and the tail is a value |
| `MonitorQueue.Monitor.Take` | src/pva/hub.rs:126-130 | hands out the whole queue and clears the signal |
| `MonitorQueue.QueueLimit` | src/pva/client.rs:535-552 | an explicit limit, else the request's queueSize, else 4; 0 becomes 1, a negative queueSize a limit no queue reaches, an unusable one counts as none |
| `MonitorQueue.Decoder.Decode` | src/pva/hub.rs:142-166 | the decoder object takes the specified step, a type change forgetting the prior |
| `MonitorQueue.DecodedMoves` | src/pva/hub.rs:142-166 | a decoded value conforms and differs from the one before inside its marks only |
| `MonitorQueue.DecoderChains` | src/pva/hub.rs:142-166 | whatever frames come, undecodable ones included, successive outputs differ inside their marks only |
| `MonitorQueue.PushedDeltas` | src/pva/hub.rs:95-123 | a push either appends the update or merges it into the last one |
| `QueueGist.GistOfPushed` | src/pva/hub.rs:93-123 | squashed or not, a pushed value stands in the queue as if put behind the others: last of its run, with the marks of the run |
| `MonitorQueue.RoomFills` | src/pva/hub.rs:95-123 | pushed values stay one by one until the room behind the last lifecycle item is used up |
| `MonitorQueue.SquashShape` | src/pva/hub.rs:95-123 | v1..vn end up as v1..v(k-1) unchanged and one merge of vk..vn |
| `MonitorQueue.SquashPreservesMeaning` | src/pva/hub.rs:95-166 | replaying what a full queue kept equals replaying everything the decoder produced, from any start |
| `MonitorQueue.MemoryBound` | src/pva/hub.rs:56-123 | in every run queued values number at most limit plus queued lifecycle items, fewer if such an item is last |
| `MonitorQueue.LimitIsExceeded` | src/pva/hub.rs:95-123 | runs exist with limit + k queued values for every k: `limit` itself is not a bound |
| `MonitorQueue.ExceedsLimitIff` | src/pva/hub.rs:95-123 | a push exceeds the limit exactly when the queue is full and its tail is not a value |
| `SharedPv.PostsAddUp` | src/pva/server.rs:360-388 | over any posts the stored value is the opened one overlaid with every post's marked leaves, and the marks are exactly the opening's and the posts' |
| `SharedPv.MarksAccountForChanges` | src/pva/server.rs:805-811 | a leaf the marks do not cover still holds what it was opened with |
| `SharedPv.PvEntry.Open` | src/pva/server.rs:333-341 | opens a closed PV with value and marks, keeping its subscribers; an open PV is refused unchanged |
| `SharedPv.PvEntry.Post` | src/pva/server.rs:360-388 | a marked post leaves exactly the live subscribers, in order and each with its limit; a marked one's ring that led to the old stored value leads to the new one by an update with exactly the posted marks, a plain one's ends in the whole new value; nothing else in a ring with room changes; errors and empty marks change nothing |
| `SharedPv.PostReachesSubscribers` | src/pva/server.rs:381-385 | whom a post reaches and what their rings then hold, for any list of subscribers |
| `SharedPv.PvEntry.Close` | src/pva/server.rs:390-400 | all state is dropped, subscribers included |
| `SharedPv.PvEntry.Subscribe` | src/pva/server.rs:404-414 | seed and ring are taken under one lock; a closed PV takes no subscriber |
| `SharedPv.PvEntry.Current` | src/pva/server.rs:805-811 | the stored value with the marks since the open |
| `SharedPv.PostReachesRing` | src/pva/server.rs:360-388 | after a post, what a client has read overlaid with its ring is the new stored value, squashed or not |
| `SharedPv.ServerOperation.Finish` | src/pva/server.rs:99-110 | an operation is answered at most once; later answers are refused |
| `SharedPv.MergesAgree` | src/pva/server.rs:536-573 | a merged PUT agrees with the client's delta on the leaves the client marked |
| `SharedPv.StaleMergesDoNotClobber` | src/pva/server.rs:536-573 | for every interleaving of arrivals and posts the stored value is the start overlaid with the clients' marked leaves in posting order |
| `SharedPv.LeafAfterDisjointPuts` | src/pva/server.rs:536-573 | with disjoint PUTs a leaf ends as its one writer left it, or as it started |
| `SharedPv.DisjointPutsCommute` | src/pva/server.rs:536-573 | disjoint PUTs give the same stored value in any two interleavings that post the same operations |
| `Delivery.StepKeepsInv` | src/pva/server.rs:360-414 | every step of server, wire, decoder, queue and consumer keeps seed plus updates equal to the stored value |
| `Delivery.Convergence` | src/pva/server.rs:360-414 | in every run, circuits lost and made again included, the seeds of an online subscriber (told from the actions) overlaid with all its delivered, queued, sent and ringed updates are the opened value overlaid with everything posted |
| `Delivery.LifecycleIsKept` | src/pva/hub.rs:87-131 | no client step loses, doubles or reorders a lifecycle item |
| `Delivery.CaughtUpHoldsStored` | src/pva/hub.rs:136-167 | an online consumer with nothing outstanding was last handed exactly the stored value, which is the opened one overlaid with everything posted |
| `Delivery.CatchingUpIsPossible` | src/pva/hub.rs:95-167 | from every reachable state a client, online or not, can catch up by its own steps, and then holds everything posted |
| `Wakeup.StepKeepsInv` | src/pva/hub.rs:76-131 | every step keeps one token per signalled registered monitor and nothing waiting unsignalled once opened |
| `Wakeup.NoLostWakeup` | src/pva/hub.rs:227-280 | in every interleaving a monitor that was opened and not closed (told from the run) and has items queued is signalled, and signalled holds exactly when one token is under way |
| `Wakeup.WakeupArrives` | src/pva/hub.rs:227-280 | a token under way is turned into a take by the hub's own steps |
| `Wakeup.QueuedIsDeliverable` | src/pva/hub.rs:227-280 | whatever happened before, what an opened monitor has queued can be handed out, in order, without any further push |
| `WakeupLoss.NothingPushedIsLost` | src/pva/hub.rs:87-131 | in every run what a monitor has handed out and holds is, up to merging of neighbouring values, all that was pushed to it, in order |
| `Wakeup.NothingHandedIff` | src/pva/hub.rs:248-255 | in every interleaving a drained token hands nothing over exactly when its monitor was closed before, or its opening completed on an emptied queue and nothing was pushed since |
| `Wakeup.EmptyBatchIff` | src/pva/hub.rs:248-280 | a batch, other steps mixed in, is empty exactly when each of its tokens is of one of these kinds |
| `Wakeup.EmptyWakeup` | src/pva/hub.rs:329-349 | a run in which a token is raised for an emptied queue |
| `Wakeup.ClosedWakeup` | src/pva/hub.rs:353-362 | a run in which a monitor is closed while its token is under way |
| `Wakeup.EmptyWakeupOnlyAtOpen` | src/pva/hub.rs:329-349 | a step signals a monitor with nothing queued exactly when it completes an opening on an unsignalled, emptied queue |
| `MonitorHub.PvaMonitorHub.Subscribe` | src/pva/hub.rs:309-349 | a new id with a queued Disconnected and one token, other monitors untouched; an open that fails leaves the table and the channel as they were |
| `MonitorHub.PvaMonitorHub.Push` | src/pva/hub.rs:87-91 | a lifecycle item joins one monitor's queue; the token discipline of the whole hub is kept |
| `MonitorHub.PvaMonitorHub.PushValue` | src/pva/hub.rs:95-123 | a value joins one monitor's queue, squashed or not; the token discipline of the whole hub is kept |
| `MonitorHub.PvaMonitorHub.CloseSubscription` | src/pva/hub.rs:353-362 | forgets one monitor and nothing else |
| `MonitorHub.PvaMonitorHub.RecvBatch` | src/pva/hub.rs:227-280 | drains all tokens into one batch, empties and unsignals those monitors, skips unknown ids |
| `MonitorHub.BatchProjection` | src/pva/hub.rs:241-280 | one monitor's part of a batch is its whole queue in order |
| `MonitorHub.BatchInOrder` | src/pva/hub.rs:248-280 | a batch comes monitor by monitor, in the order of the tokens |
| `DispatcherPlan.Dispatcher.Plan` | python/repics/_monitor.py:114-136 | each subscription gets its items with value runs collapsed (or all of them), other items keep their global order; what is missing is counted per subscription, and output plus newly dropped is the number of items of registered subscriptions |
| `DispatcherPlan.PlacesAreKept` | python/repics/_monitor.py:114-136 | overwriting in place moves nothing: whose item of which kind stands where is the order in which the runs began |
| `DispatcherPlan.Dispatcher.Add` | python/repics/_monitor.py:89-95 | registers a subscription |
| `DispatcherPlan.Dispatcher.Remove` | python/repics/_monitor.py:97-100 | forgets one; its items are skipped from then on |
| `DispatcherPlan.RunBecomesLast` | python/repics/_monitor.py:114-136 | a maximal run of values becomes its last value |
| `DispatcherPlan.NonValueIsKept` | python/repics/_monitor.py:114-136 | an item that is not a value splits the batch: it stays, and what is before and behind it collapses independently, so runs are maximal |
| `DispatcherPlan.NoneUnaccounted` | python/repics/_monitor.py:120-136 | output length plus everything newly dropped equals the number of items of registered subscriptions |
| `DispatcherPlan.PassKeepsOk` | python/repics/_monitor.py:120-136 | every prefix of the one-pass overwrite loop refines the projection-wise specification |
| `Attachments.AttachmentsConserved` | src/pva/server.rs:693-721 | for every interleaving: count plus channels about to attach equals queued attachments plus channels about to detach; edges alternate; no empty queue is kept |
| `Attachments.OrderlyCounts` | src/pva/server.rs:693-721 | if every open finds a PV and no name goes to another PV while one is in use under it, every count is in every interleaving the number of channels holding the PV, so never negative; an open channel holds the PV of its name and a close detaches that one |
| `Attachments.QuietCountIsExact` | src/pva/server.rs:693-721 | when no call is half-way, the count is exactly the attachments |
| `Attachments.OneMissIsEnough` | src/pva/server.rs:693-721 | without the first condition: one open that finds no PV takes a count to -1, nothing being rebound |
| `Attachments.OneRebindIsEnough` | src/pva/server.rs:693-721 | without the second: one name rebound while in use takes a count to -1, every open finding its PV |
| `Attachments.PySource.Add` | src/pva/server.rs:847-862 | a name is added unless this table or the library's has it |
| `Attachments.PySource.Remove` | src/pva/server.rs:864-874 | the name leaves both tables, attachments stay |
| `Attachments.PySource.NotifyChannelOpen` | src/pva/server.rs:693-703 | looks up, queues, attaches; an unknown name changes nothing |
| `Attachments.PySource.NotifyChannelClose` | src/pva/server.rs:705-721 | takes the oldest attachment of the name and detaches it, dropping an emptied queue |
| `Subscription.SubscriptionTask.ForwardEvent` | src/hub.rs:113-149 | connection state goes out as transitions only; a closed channel finishes the task |
| `Subscription.SubscriptionTask.Open` | src/hub.rs:183-232 | the phase between the wait and the forwarding, with both of its failures |
| `Subscription.SubscriptionTask.Wait` | src/hub.rs:160-187 | one turn of the waiting loop for any input |
| `Subscription.SubscriptionTask.Forward` | src/hub.rs:235-264 | one turn of the forwarding loop for any input |
| `Subscription.SubscriptionTask.RunAll` | src/hub.rs:87-265 | both loops together compute the run that the theorems are about |
| `Subscription.RunsAreWellFormed` | src/hub.rs:87-265 | in every run Connected and Disconnected alternate starting with Connected, values follow a Connected, ConnectTimeout comes at most once and before any value |
| `Subscription.ExactlyOneEndLast` | src/hub.rs:87-265 | a finished task has sent exactly one End, last; a running or cut-off one none; only a closed hub cuts off |
| `SubscriptionLog.EverythingDueIsSent` | src/hub.rs:87-265 | an open hub is sent, kind by kind, exactly what the inputs make due: the values and rights in order, the errors, the timeout, each change of connection, the last one agreeing with the last report, and one End if something ended the task |
| `SubscriptionLog.ClosingHubGetsPrefix` | src/hub.rs:95-103 | a hub that closes has exactly the items it took before, of those an open one is sent |
| `Subscription.PauseIsRemembered` | src/hub.rs:154-256 | the handle is paused exactly as the last pause or resume said, one before the handle existed included |
| `Stream.CaSubscription.Next` | src/ca.rs:979-995 | the stash before the handle; nothing is taken when nothing is there |
| `Stream.CaSubscription.DoRecv` | src/ca.rs:1013-1023 | one item, or nothing changes |
| `Stream.CaSubscription.DoRecvBatch` | src/ca.rs:1030-1079 | a non-empty batch of snapshots within the cap, stopping no earlier than it must; errors and the end are handed over alone |
| `Stream.CaSubscription.Drain` | src/ca.rs:1013-1079 | any mix of calls is a session in the sense of the theorems |
| `Stream.StreamIsFaithful` | src/ca.rs:1013-1079 | in every session handed-over items, stash and unread stream together are the monitor's stream; the stash only holds an error or the end |
| `Stream.BatchingIsInvisible` | src/ca.rs:1025-1079 | two sessions on one stream are handed the same items, one perhaps more of them |
| `Stream.StashComesNext` | src/ca.rs:979-995 | a stashed item is what the next call hands over, whatever that call is |
| `Stream.EverythingIsReached` | src/ca.rs:1013-1079 | calls that find something each hand over at least one item, until the whole stream is handed over |
| `Drain.OneHolder` | src/ca.rs:147-168 | in every reachable state at most one pull is inside its wait, only while the handle is there, and the handle is dropped at most once |
| `Drain.EmptyOnlyIf` | src/ca.rs:147-161 | a pull comes back empty only if a close has begun or the pull was abandoned |
| `Drain.CancelledIff` | src/ca.rs:136-176 | the token is cancelled exactly if a close has begun, and only a close drops the handle |
| `Drain.BorrowFailsOnlyIf` | src/ca.rs:163-169 | a borrow is refused only once a close has begun |
| `Drain.PullIsServed` | src/ca.rs:147-161 | from every reachable state in which no close has begun, lock moves and one item bring any unfinished pull to its item |
| `Drain.LatePullGetsNothing` | src/ca.rs:147-161 | a pull that starts after a close has begun comes back with nothing in every run |
| `Drain.ClosedIsFinal` | src/ca.rs:170-173 | once a close has finished the handle was dropped exactly once and no pull touches it then or later |
| `Drain.LockCanMove` | src/ca.rs:114-173 | with a close in line the lock can move without any pulled future becoming ready |
| `Drain.StepBringsCloser` | src/ca.rs:114-173 | no step pushes a waiting close back and every move of the lock brings it nearer |
| `Drain.CloseFinishes` | src/ca.rs:170-173 | a close in line finishes within a number of lock moves fixed when it joined, whatever else happens |
| `PutMany.SettledStays` | python/repics/pva/__init__.py:189-216 | a settled entry is never opened again |
| `PutMany.PendingIff` | python/repics/pva/__init__.py:189-216 | an entry is pending exactly as long as every try opened it and lost its circuit before the deadline |
| `PutMany.LastTryDecides` | python/repics/pva/__init__.py:189-216 | a result is what that entry's own last try gave, all tries before it being lost in time |
| `PutMany.DisconnectedOnlyLate` | python/repics/pva/__init__.py:209-213 | a commit's PvaDisconnected is reported only once the deadline has passed |
| `PutMany.EndsByDeadline` | python/repics/pva/__init__.py:187-216 | after a pass whose clock reached the deadline nothing is pending |
| `PutMany.PutRequests` | python/repics/pva/_common.py:49-57 | process= and wait= make up the request; a request passed beside them, or an unknown process=, is refused |
| `PutMany.RequestRefusedIff` | python/repics/pva/_common.py:49-57 | exactly which combinations of process=, wait= and request= are refused; what is made up blocks exactly on wait=True and processes as asked |
| `PutMany.BeginCall` | src/pva/client.rs:308-336 | a missing or refused request or name of one entry fails the call before any entry is opened |
| `PutMany.OpenBatch` | python/repics/pva/__init__.py:190-206 | begin errors are recorded or raised, values are built, the rest is ready |
| `PutMany.CommitBatch` | src/pva/client.rs:343-371 | one value that is a view of a sub-structure or has nothing marked fails the call before any commit is sent |
| `PutMany.SettleBatch` | python/repics/pva/__init__.py:207-216 | lost commits go round again while there is time, other outcomes settle or raise |
| `PutMany.OnePass` | python/repics/pva/__init__.py:189-216 | one turn of the loop moves every entry by one try |
| `PutMany.RunPasses` | python/repics/pva/__init__.py:188-217 | the loop: refused at its first turn exactly if some entry cannot begin; otherwise every entry ends as alone unless one stops the call |
| `PutMany.PutMany` | python/repics/pva/__init__.py:167-217 | every result is what the entry would have got alone; it raises exactly if the options, a name or a request are refused or some pending entry stops it; no entry is accepted twice |
| `PutMany.OneValueStopsTheBatch` | python/repics/pva/__init__.py:178-184 | for each way a value cannot be put, a two-entry batch with throw=False that raises and leaves a good entry unsent |
| `PutMany.NeverRaisesIff` | python/repics/pva/__init__.py:178-184 | with throw=False the call never raises, whatever the servers do, exactly if options, names and requests are accepted and every value is a root Value with a marked leaf or an object that can always be assigned, marking one |
| `CaPv.CaPvEntry.Install` | src/ca_server.rs:269-286 | makes the cell under the name, or changes nothing |
| `CaPv.CaPvEntry.Open` | src/ca_server.rs:289-307 | the value is current afterwards, or the open failed on a registered name and nothing changed |
| `CaPv.CaPvEntry.Post` | src/ca_server.rs:310-325 | succeeds exactly if there is a current value, and replaces it; NotOpen otherwise |
| `CaPv.CaPvEntry.Close` | src/ca_server.rs:330-340 | no current value; exactly its own database entry goes, freeing the name |
| `CaPv.CaPvEntry.Adopt` | src/ca_server.rs:362-388 | moves the held value into the database under the name, exactly if it is held and the name is free; which error otherwise |
| `CaPv.ServedUnderItsName` | src/ca_server.rs:239-388 | in every run a served PV is the cell its database has under its registered name, and no other's; a PV holding its value is not registered; every name in the database is served by a PV |
| `CaPv.AdoptedAtMostOnce` | src/ca_server.rs:362-388 | a registration is never changed; a second adoption is refused |
| `CaPv.RefinesRegister` | src/ca_server.rs:289-353 | with any number of PVs, overlapping calls and failed installs, `current` is the register told by the callers alone: who called with what, what was accepted, which pending set was done; a late set counts if and only if its PV was not closed since |
| `CaPv.RefusedIff` | src/ca_server.rs:289-388 | exactly when post, open and adopt are refused; a refused call changes nothing |

## Assumptions

- The library's helpers (`total_bits`, `bit_for_path`, `default_value_for`,
  `fill_unmarked_from_prior`, `post_delta`, the ring's squash, the attach and detach edges, a database that
  refuses a name it has) are not part of the repository; they are defined here as their call
  sites and comments describe them.
- Names of members are unique, non-empty and free of dots (`WellFormed`); a dict has no key twice, at any depth (`DictsDeep`).
- The convergence theorem is about one open epoch with one descriptor.
- The library closes a channel only after that channel's own open has returned, and counts a PV's
  channels in a number that may be negative; under the conditions of `Attachments.OrderlyCounts` it
  never is.
- The slot lock of `Drain` is first come, first served, as a tokio mutex is.

## Left out

- Sockets, name search, circuits, TLS, environment and port configuration, interpreter locks, numpy sharing, shutdown at exit.
- Scalar and array conversion is a parameter of `Assign` that yields a value of the declared type or an error; floating-point parsing and numpy coercion are not modelled.
- Wire encoding: a frame is its changed set and the values; marked paths of a server update are sets of bits.
- pvRequest field filtering.
- `Assign.AssignKeeps`: a Value as source is a structure with its `todict`; `todict` itself, and a source that shares the target's root, are not modelled. A Value whose own type is a variant, assigned to a variant field, is excluded.
- `SharedPv.PvEntry.Close`: the state is cleared in one step; that the library's PV is closed after the lock is released is not modelled.
- `MonitorHub.PvaMonitorHub.Subscribe`: ids do not wrap at 32 bits.
- `MonitorHub.PvaMonitorHub.RecvBatch`: the wait for the first token, its timeout and the closed hub are those of `Drain` and not part of the method.
- `DispatcherPlan.Dispatcher.Plan`: subscriptions are ids rather than objects, and their dropped counters a map.
- `Drain.OneHolder`: the slot is a state machine on values, since its callers interleave.
- `CaPv.RefinesRegister`: `current` reads in one step; a read of a cell that was removed in between is not modelled. A cell is reached only through its entry, client writes going to the hook.
- `PutMany.PutMany`: the order in which several entries that raise in one pass are looked at is not stated; the timeout is a number or None.
- `Subscription.SubscriptionTask.RunAll`: which input comes next is arbitrary; conversion of snapshots is not modelled.
- `SubscriptionBase._event`, `_mark_closed` and `close`, `CaServerOperation.done`, `MonitorHub.do_recv_batch` of the Channel Access hub, `read_count` and `monitor_count`: small members that would only repeat easier versions of what is here.
- Snapshots, error mapping, `nt.py`, `repics.pv`, stubs, benchmarks.
