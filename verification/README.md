# Chord links, cluster reloads and agent cores: a verified model

This project models the stateful cores of the repository in Dafny and proves what they promise.

* **Links** (`packages/chord/src/connection.ts`): one end of a link pushes snapshots, resets and ops of many
  state members, keeps what does not fit the peer's window in slots, coalesces, caps, drops and resyncs them,
  and relays holds, state and calls of other links. `Flow` gives every operation as a function on one state,
  `Connections.Connection` is the class whose methods update the fields in place; it handles any event, and its fields
  are those of the run of all events so far, which the theorems are about. The encoder sessions that travel in ops
  frames are modelled too (`Codec`), and so is what the consumer of a stream makes of it (`Consumers`).
* **Cluster reloads** (`cluster.ts`, `host.ts`, `reload.ts`): one server and any number of child hosts, links
  that die at any moment, hosts that connect during a reload or behind the server's code version, and the
  permissions to retire old code. Every await is a step of its own.
* **Host bookkeeping** (`host.ts`): the reference graph, disposal in waves, and the leases of roots.
* **Cells and publications** (`cell.ts`, `publish.ts`), **catalog refreshes** (`packages/ai/src/models.ts`),
  **tool batches and steering** (`packages/agent/src`), **JSON copies** (`json.ts`), **catalog versions**
  (`scripts/model-catalog-protocol.ts`).

State values and ops are abstract in the link model; `apply` takes a value and an op to the next value. Links
deliver frames in order and lose them only by closing. Sizes, clocks, timers, schema checks, user callbacks and
the outcome of awaited work are parameters or free events.

| file | content |
|---|---|
| `Streams.dfy` | frames, ops, where they take a stream, gap freedom said with and without a reader |
| `Flow.dfy` | flow control, units, feeds and relays as functions on one state |
| `Connection.dfy` | the class, at every moment in the state of its run |
| `FlowAccounting.dfy`, `FlowStreams.dfy`, `DirectStreaming.dfy` | the theorems about runs of a link, also compared with a link without a window |
| `RelayResets.dfy`, `ResetsSent.dfy` | which resets relays await, and that the ends they ask send them |
| `RelayChain.dfy`, `RelayToggling.dfy` | through any number of relays, down to the consumer; switching a relayed hold off |
| `Consumers.dfy`, `ConsumerRuns.dfy`, `ConsumerErrors.dfy` | what the consumer of a stream holds, also after an error |
| `Acknowledgements.dfy`, `RelayLifecycle.dfy`, `Codec.dfy` | two honest ends, the life of relayed holds and calls, encoder sessions |
| `ChildReloads.dfy`, `Cluster.dfy`, `ClusterSafety.dfy` | the child's reload machine, the cluster, its safety |
| `HostGraph.dfy`, `RootLeases.dfy` | references and disposal, leases of a root on one host |
| `RootNetwork.dfy`, `RootCallback.dfy` | leases of a root across hosts, a root that calls back |
| `Cells.dfy`, `Publications.dfy` | recomputation of derivations, the publication queue |
| `CatalogRefresh.dfy`, `CatalogVersions.dfy`, `ToolBatch.dfy`, `Steering.dfy`, `JsonCopy.dfy` | the other cores |

## What the proofs found

* *Root leases.* Each host ends a root's leases exactly when it should, yet across hosts they all end if and only if no
  hosts wait for each other's `root_end` in a circle (`RootNetwork.LeasesEndUnlessCircular`). A root that calls back to a
  host it entered makes such a circle, which lasts until one of its links closes (`RootCallback.CallbackKeepsLeases`); a
  root that never re-enters a host makes none (`RootNetwork.NoReentryNoLeak`).
* *Errors in a stream.* After a state frame of kind `error` the ops that follow belong to a new encoder, while the
  consumer keeps its old value and its old decoder (`remote.ts:260-268`) and applies them to it until the next reset
  (`ConsumerErrors.ErrorLeadsAstray`). A consumer is in step exactly while its last base was no error
  (`ConsumerRuns.ConsumerAgrees`), also behind any number of relays (`RelayChain.ChainConsumerAgrees`).
* *Relays.* Switching a relayed hold's state off forgets what waits, while ops under way still come through: a gap opens
  if and only if something of the stream waited (`RelayToggling.SwitchOffOpensGap`); the consumer ignores such ops
  because it forgot its copy.
* *Execution keys.* The executors test a conflict key for truth, so a conflict on the empty key is ignored: what executes
  is exclusive if and only if at most one call has the empty key as its first shared one
  (`ToolBatch.ExclusionIffOneEmptyKey`, `ToolBatch.SharedEmptyKeyExecutes`).
* *Steering.* A native input is put back twice if its conversion is refused after its response closed, and only then
  (`Steering.ConservedUnlessRefusedLate`).
* *Versions.* The order of versions is transitive if and only if no two different numeric identifiers read as the same
  number (`CatalogVersions.TransitiveIffExact`); a leading zero, which the pattern for versions
  accepts (`model-catalog-protocol.ts:33`: `1.0.0-01` and `1.0.0-1`, `CatalogVersions.LeadingZerosAreInexact`), and
  identifiers beyond 2^53 break it.
* *Subscriptions.* A listener that subscribes again while deliveries of its earlier subscription are pending gets them
  after its new snapshot; order holds if and only if nothing is pending (`Publications.SubscribedInOrder`,
  `Publications.ResubscribedOutOfOrder`).

## Model

| member | source | states |
|---|---|---|
| Streams.ReceiveConcatenated | packages/chord/src/connection.ts:331-334 | receiving two ops batches of a stream one after the other equals receiving their concatenation, as coalescing in a slot assumes |
| Streams.ReceiveAllAppend | packages/chord/src/link.ts:61-89 | what is delivered first does not change where the rest of a FIFO link takes a stream |
| Streams.PrefixGapFree | packages/chord/src/link.ts:61-89 | a stream without a gap has none in what was delivered so far |
| Sessions.GapFreeIsConcatenatedSessions | packages/chord/src/connection.ts:331-346 | a reader of the stream meets no gap if and only if, after the shape, the frames are a concatenation of sessions, each a base followed by a contiguous prefix of that session's ops |
| FlowAccounting.RunAccounting | packages/chord/src/connection.ts:460-609 | in every run the unacknowledged list has length sent minus acked and sums to the byte counter, waiting bytes equal the sizes of the waiting slots and stay within the cap |
| FlowAccounting.FlushAccounted | packages/chord/src/connection.ts:592-609 | after a flush the window is full or nothing waits, and the accounts are still exact |
| FlowAccounting.AcknowledgeCounted | packages/chord/src/connection.ts:582-590 | an acknowledgement in range drops exactly the acknowledged frames and their bytes |
| FlowAccounting.MakeRoomFits | packages/chord/src/connection.ts:508-515 | after making room the new ops fit the cap, or the stream they belong to was dropped |
| FlowAccounting.SendStateAccounted | packages/chord/src/connection.ts:468-506 | sending or queueing a state frame keeps all accounts |
| FlowStreams.WindowedAgrees | packages/chord/src/connection.ts:469-609 | frames in flight and then the waiting slot bring the stream to where the feed is, with the revision it last told; with nothing in flight or waiting they are equal |
| FlowStreams.LazyResetIsCurrent | packages/chord/src/connection.ts:1039-1049 | the flush that sends a promised reset tells a fresh feed the member's current value and brings the stream there |
| DirectStreaming.WindowedIsDirect | packages/chord/src/connection.ts:323-348 | a windowed and a windowless end that saw the same changes leave their peers with the same value, the current one, once nothing waits; the windowless one never keeps anything waiting |
| Consumers.InStepUnlessErred | packages/chord/src/remote.ts:258-292 | over a stream without a gap, a consumer that has the member holds its revision with a decoder in step exactly when the last base was no error |
| ConsumerRuns.ConsumerFollows | packages/chord/src/remote.ts:258-292 | in every run, whatever is still in flight, a consumer that has the member is in step with what it got exactly when the last base it got was no error |
| ConsumerRuns.ConsumerAgrees | packages/chord/src/remote.ts:258-292 | in every run, with nothing in flight or waiting, such a consumer has the revision the feed was told last exactly when the value the feed started from was valid; one that neither forgot the member nor ended over an error before its first state does have it then |
| ConsumerRuns.RunNumbered | packages/chord/src/connection.ts:331-346 | every base of a served stream, sent or waiting, starts a session of its own; the bases of a relayed one are some of those that came in, in their order |
| ConsumerErrors.ErrorLeadsAstray | packages/chord/src/remote.ts:260-268 | a concrete run: a value its schema refuses is sent as an error, and the ops after it are read with the decoder of the value kept, until the next base |
| FlowStreams.GapFree | packages/chord/src/connection.ts:219-253 | however often slots are coalesced, capped, dropped or resynced, what is delivered of a hold that was not switched off over waiting state is a concatenation of sessions |
| FlowStreams.RelayAgrees | packages/chord/src/connection.ts:239-253 | a relay that awaits no reset has passed on, sent and waiting together, exactly what came from downstream |
| FlowStreams.RunGood | packages/chord/src/connection.ts:349-609 | the stream invariant holds in every state of every admissible run |
| RelayChain.ChainGapFree | packages/chord/src/connection.ts:219-253 | gap freedom through any number of relays, each with its own window, cap and sizes, dropping and resyncing on its own |
| RelayResets.AwaitedIffUnanswered | packages/chord/src/connection.ts:219-253 | in every run a relay ignores a member's ops if and only if some reset wanted for it was not answered by a base that came in later |
| RelayResets.AnsweredRelayAgrees | packages/chord/src/connection.ts:219-253 | once every reset a relay wanted was answered, it has passed on, sent and waiting together, exactly what came from downstream |
| ResetsSent.RequestIsMet | packages/chord/src/connection.ts:1070-1080 | an end that handled a request for a reset, provider or relay, has sent a base since, once nothing of the stream waits or is awaited there |
| RelayChain.ChainAgrees | packages/chord/src/connection.ts:219-253 | once nothing waits at any hop and neither frames nor requests are in flight, no relay awaits a reset and the last one's output is where the provider's feed is |
| RelayChain.ChainDistinct | packages/chord/src/connection.ts:239-253 | through any number of relays, every base a hop sent starts a session of its own |
| RelayChain.ChainConsumerFollows | packages/chord/src/remote.ts:258-292 | a consumer behind any number of relays, whatever is in flight to it, is in step with what it got exactly when the last base it got was no error |
| RelayChain.ChainConsumerAgrees | packages/chord/src/remote.ts:258-292 | at the far end of a chain at rest, a consumer that has the member holds the revision the source told last exactly when the value its feed started from was valid; one that neither forgot the member nor ended over an error before its first state does have it then |
| RelayToggling.TogglingOpensGap | packages/chord/src/connection.ts:209-217 | a concrete run: state switched off and on while ops are under way makes a relay send ops that do not follow |
| RelayToggling.SwitchOffOpensGap | packages/chord/src/connection.ts:209-217 | when a relayed hold is switched off, the next ops from downstream open a gap if and only if something of the stream waited |
| RelayToggling.SwitchOffOpensGapIfBehind | packages/chord/src/connection.ts:209-217 | also where a reset was awaited: exactly if the peer is not where downstream is |
| Connections.Connection.Handle | packages/chord/src/connection.ts:737-830 | whatever arrives on the link or changes at what it serves, the fields are those of the run of all events handled so far |
| Connections.Connection.Counters | packages/chord/src/connection.ts:378-387 | at every moment of the object the unacknowledged list, both byte counters and the cap are exact |
| Connections.Connection.Streaming | packages/chord/src/connection.ts:323-348 | what the object sent has no gap, and once nothing waits or is in flight it is what its feeds were told |
| Connections.Connection.SendStateFrame | packages/chord/src/connection.ts:468-506 | the whole new state of `sendState`: sent at once, or kept in the stream's slot, with room made |
| Connections.Connection.MakeRoomFor | packages/chord/src/connection.ts:508-515 | the loop over the slots equals dropping the oldest waiting streams until the ops fit, the current one last |
| Connections.Connection.DropSlot | packages/chord/src/connection.ts:517-529 | a provider's slot becomes a lazy reset, a relay's is forgotten and a reset asked for |
| Connections.Connection.ResetMember | packages/chord/src/connection.ts:531-547 | a resync makes the stream's slot lazy and flushes |
| Connections.Connection.QueueUnitOf | packages/chord/src/connection.ts:549-554 | a waiting unit covers a newer one; then the window is used |
| Connections.Connection.DropHoldState | packages/chord/src/connection.ts:564-571 | everything that waits for the hold is gone with its bytes, and nothing else |
| Connections.Connection.OnAckFrame | packages/chord/src/connection.ts:582-590 | an acknowledgement out of range closes the link, one in range frees the window and flushes |
| Connections.Connection.FlushWaiting | packages/chord/src/connection.ts:592-609 | the loop empties the queue from its front until the window is full, and ends with one or the other |
| Connections.Connection.SendUnitOf | packages/chord/src/connection.ts:956-983 | one shape, then one base for each listed member without a feed, each in a session of its own |
| Connections.Connection.UnitOf | packages/chord/src/connection.ts:936-954 | feeds and slots shrink to the listed members; a new hold's first unit does not queue |
| Connections.Connection.WantState | packages/chord/src/connection.ts:1051-1068 | starting state sends a unit, stopping it ends the feeds and forgets what waits; relayed and unknown holds too |
| Connections.Connection.Forget | packages/chord/src/connection.ts:1082-1098 | a dropped hold leaves no slot and no entry |
| Connections.Connection.RelayWantState | packages/chord/src/connection.ts:208-217 | switching a relay's state off forgets what waits and what it awaits |
| Connections.Connection.CloseLink | packages/chord/src/connection.ts:1230-1241 | a closed link serves nothing and keeps nothing waiting |
| Acknowledgements.HonestEndsNeverViolate | packages/chord/src/connection.ts:582-619 | two honest ends over FIFO channels never see an acknowledgement out of range or before the hello, and what an end holds unacknowledged is exactly what is on its way plus what was received and not yet acknowledged |
| RelayLifecycle.CallMapsAreInverse | packages/chord/src/connection.ts:275-306 | the calls of a relay and the relayed calls of its downstream link are mutually inverse on the unsettled calls, and a call settles at most once |
| RelayLifecycle.ClosedRelaysLeaveNothing | packages/chord/src/connection.ts:255-272 | a relay closed at any stage leaves no map entry, waiting slot or unsettled call, and at most one downstream release |
| RelayLifecycle.ClosedConnectionIsEmpty | packages/chord/src/connection.ts:1248-1251 | once the relays over a downstream link are closed, it has no relayed hold or call left |
| RelayLifecycle.CloseSettles | packages/chord/src/connection.ts:259-272 | closing settles exactly the relay's unsettled calls and those waiting for its route |
| RelayLifecycle.StepKeeps | packages/chord/src/connection.ts:129-307 | every arrival, forwarding, result, cancellation and closing keeps the invariant of all maps |
| Codec.StreamRoundTrip | packages/chord/src/delta/index.ts:546-742 | whatever batches a session encodes, decoding the concatenations a link makes of them gives the ops back, from any consistent pair of encoder and decoder |
| Codec.SessionRoundTrip | packages/chord/src/delta/index.ts:546-742 | a fresh decoder recovers a whole session from its start |
| Codec.RecoveryPoint | packages/chord/src/delta/index.ts:562-664 | a base starts over: a fresh decoder that begins at it decodes all that follows |
| Codec.FrameRoundTrip | packages/chord/src/delta/index.ts:665-742 | one frame of coalesced batches decodes to the ops of all of them |
| Codec.Encoder.Encode | packages/chord/src/delta/index.ts:570-663 | the encoder's loop equals the encoding function and leaves the dictionary it says |
| ChildOperations.ReloadsAreLawful | packages/chord/src/cluster.ts:160-250 | under every interleaving an operation never both commits and rolls back, commits only what it voted for and was not cancelled, casts no vote once cancelled, and each successful `beginReload` gets one `endReload`, after its outcome; the slot has one owner |
| ChildOperations.StepKeepsInv | packages/chord/src/cluster.ts:173-250 | every frame, lost parent and settled await keeps slot ownership and the account of every operation |
| ChildReloading.ChildReloads.On | packages/chord/src/cluster.ts:173-250 | on every frame, lost parent or settled await the object moves as the run of all of them says |
| ChildReloading.ChildReloads.LawfulAtAllTimes | packages/chord/src/cluster.ts:160-250 | at every moment of the object its log is lawful, the slot has one owner, and what is over gave it back as often as it took it |
| ClusterSafety.ChildrenInStep | packages/chord/src/cluster.ts:7-14 | in every run no child runs a code version above the server's, and every open synced child runs the server's or is prepared for it with its commit first on the way |
| ClusterSafety.RootsArriveInTime | packages/chord/src/cluster.ts:9-11 | a frame of a root of version v reaches a child neither before it committed v nor after it was allowed to retire v |
| ClusterSafety.RetiresAfterTheServer | packages/chord/src/host.ts:701-740 | a child with a parent link retires only what the server no longer retains, and no permission on its way says more |
| ClusterSafety.PreparesNeverWaitForTheParent | packages/chord/src/cluster.ts:54-56 | when a child reads a prepare its parent has already permitted it to retire its previous code version |
| ClusterSafety.ServerEventKeeps | packages/chord/src/cluster.ts:39-158 | every step of the server's reload and of a reconciliation keeps what holds between server, connection and child |
| ClusterSafety.CommitKeeps | packages/chord/src/cluster.ts:98-103 | a commit is sent only to a child that holds what it commits prepared, with no other reload frame on the way |
| ClusterSafety.GreetKeeps | packages/chord/src/host.ts:982-1018 | a hello is found in step, deferred or fenced so that the invariant holds |
| ClusterSafety.ReconcileKeeps | packages/chord/src/cluster.ts:117-158 | a round of reconciliation announces what is retired before it prepares |
| ClusterSafety.ReadCommitKeeps | packages/chord/src/cluster.ts:199-205 | a child that reads its commit runs what the server counted it to run |
| ClusterSafety.LinkedStepKeeps | packages/chord/src/cluster.ts:173-250 | every step of a linked child keeps the invariant |
| ClusterSafety.RunKeeps | packages/chord/src/cluster.ts:39-158 | the global invariant holds in every run from fresh hosts |
| HostGraph.Reaches | packages/chord/src/host.ts:1290-1305 | the search terminates on every graph and answers yes exactly when a path of references exists |
| HostGraph.EdgeKeepsAcyclic | packages/chord/src/host.ts:566-569 | a new reference keeps the graph acyclic if and only if its target does not reach its source |
| HostGraph.Host.Acquire | packages/chord/src/host.ts:544-590 | exactly the references that would close a cycle are refused, and the graph stays acyclic |
| HostGraph.Host.Release | packages/chord/src/object.ts:1695-1720 | dropping references keeps the graph acyclic |
| HostGraph.DisposeHoldersFirst | packages/chord/src/host.ts:1246-1274 | every object goes exactly once, on an acyclic graph only in a wave after all its holders in the set; every failure is collected; it terminates on any graph |
| RootLeases.LeasesDoNotLeak | packages/chord/src/host.ts:619-698 | once no call of a root runs here and no link may bring it, the host has forgotten it everywhere |
| RootLeases.LeasesDoNotEndEarly | packages/chord/src/host.ts:619-698 | while a call runs or a link may bring the root, no step takes any of its leases |
| RootLeases.BroughtIsLastWord | packages/chord/src/host.ts:688-698 | the links counted for a foreign root are exactly those that brought it and neither announced its end nor closed since |
| RootNetwork.LeasesEndUnlessCircular | packages/chord/src/host.ts:619-698 | over any number of hosts and links: once all calls settled and nothing is on its way, every host has forgotten the root if and only if no hosts wait for each other's announcement in a circle |
| RootNetwork.RunKeeps | packages/chord/src/host.ts:678-698 | in every run, what a host counts on over a link its peer will still announce there, or has |
| RootNetwork.QuietStays | packages/chord/src/host.ts:619-698 | from then on nothing changes, however long it goes on, until a link closes |
| RootNetwork.WaitLasts | packages/chord/src/host.ts:1036-1042 | who waits in a circle goes on until one of the circle's own links closes |
| RootNetwork.NoReentryNoLeak | packages/chord/src/host.ts:619-624 | a root that never comes back to a host it entered leaves no lease behind |
| RootCallback.CallbackKeepsLeases | packages/chord/src/host.ts:636-643 | a concrete run of three hosts: after a call-back two of them wait for each other, and keep waiting |
| RootTables.RootTable.StartRoot | packages/chord/src/host.ts:612-635 | a started root is local with one call, or refused and forgotten |
| RootTables.RootTable.JoinRoot | packages/chord/src/host.ts:625-644 | a call over a link counts the link unless the root is the host's own |
| RootTables.RootTable.SettleCall | packages/chord/src/host.ts:653-665 | the last call to settle ends the root unless a link may bring it; the end is announced on every link it went out on |
| RootTables.RootTable.RootSent | packages/chord/src/host.ts:668-676 | every link a call of the root used is remembered, to hear of the end |
| RootTables.RootTable.Touched | packages/chord/src/host.ts:601-608 | the leases objects keep and those the host remembers stay the same |
| RootTables.RootTable.EndRoot | packages/chord/src/host.ts:678-686 | every table forgets the root, its objects let go, each link hears once |
| RootTables.RootTable.ForeignRootEnded | packages/chord/src/host.ts:688-699 | honoured only from a link that brought the root; a root still running waits for its calls |
| RootTables.RootTable.ConnectionClosed | packages/chord/src/host.ts:1036-1042 | a closed link counts as the end of every root that came over it, and hears of none |
| Cells.ComputeDependents | packages/chord/src/cell.ts:285-305 | candidate values for exactly what depends on the change, each right over the others in creation order; an error only if no acceptable values exist |
| Cells.Visit | packages/chord/src/cell.ts:286-295 | the traversal finds everything affected, through diamonds and chains, and nothing else |
| Cells.ConsistentIsMeaning | packages/chord/src/cell.ts:316-319 | no glitches: in a consistent net every attached derivation holds what computing it from the cells gives |
| Cells.SolutionIsConsistent | packages/chord/src/cell.ts:246-272 | adopting candidate values leaves every attached derivation equal to its function of its sources |
| Cells.Sources.Publish | packages/chord/src/cell.ts:246-272 | a write adopts its revision and all derived ones and queues their events in order, or changes nothing |
| Cells.Sources.Refresh | packages/chord/src/cell.ts:374-397 | a refresh adopts the recomputed value and every derived one and queues their events in order, or is reported and changes nothing |
| Cells.Sources.Attach | packages/chord/src/cell.ts:350-360 | a derivation starts with its computed or a precomputed value and is followed from then on; only what read it before is not told |
| Cells.Sources.Detach | packages/chord/src/cell.ts:362-366 | a derivation that stops following leaves the others consistent |
| Cells.Sources.ChangeOutside | packages/chord/src/cell.ts:354-360 | only the derivations that read the changed member directly are stale until they hear of it |
| Publications.SubscribersSeeAdoptionOrder | packages/chord/src/cell.ts:18-60 | a fresh listener gets its snapshot and then every later revision once, in adoption order, whatever listeners do meanwhile |
| Publications.SubscribedInOrder | packages/chord/src/cell.ts:34-51 | subscribing puts a subscription in order if and only if nothing is on its way to that listener |
| Publications.ResubscribedOutOfOrder | packages/chord/src/cell.ts:34-51 | a concrete run: a listener that subscribes again with an event on its way gets its new snapshot first |
| Publications.StepKeepsOrder | packages/chord/src/publish.ts:14-39 | every write, hold, delivery and other subscription keeps the order of one that stays |
| Publications.ReplayIsLastSeen | packages/chord/src/cell.ts:388-396 | the ops of the events take the snapshot to the revision last seen |
| Publications.DrainedSubscriberIsCurrent | packages/chord/src/publish.ts:31-39 | once the queue is empty the subscriber has seen the current revision |
| CatalogRefresh.MutationsNeverOverlap | packages/ai/src/models.ts:516-543 | a provider's store mutations never overlap, and mutations and updates come in nondecreasing generation order |
| CatalogRefresh.UpdatesAreCurrent | packages/ai/src/models.ts:533-534 | an update in memory runs only while its generation is current and its signal not aborted |
| CatalogRefresh.SupersededIsSilent | packages/ai/src/models.ts:498-507 | a superseded generation never starts a mutation or updates again |
| ToolBatch.PrepareToolCallBatch | packages/agent/src/agent-loop.ts:836-884 | exactly later calls with a signature seen before are duplicates; an entry is marked with its first shared key, and only if another candidate shares it |
| ToolBatch.ExclusionIffOneEmptyKey | packages/agent/src/agent-loop.ts:772-784 | what executes has distinct signatures and disjoint keys if and only if at most one of the first calls with their signature has the empty key as its first shared one |
| ToolBatch.SharedEmptyKeyExecutes | packages/agent/src/agent-loop.ts:874-883 | two calls that share the empty key both execute |
| ToolBatch.NonEmptyKeysExclude | packages/agent/src/agent-loop.ts:874-883 | without empty execution keys what executes is exclusive |
| ToolBatch.ExecuteSequential | packages/agent/src/agent-loop.ts:726-834 | an unaborted batch gets one result per call in source order, an aborted one a prefix |
| ToolBatch.ExecuteParallel | packages/agent/src/agent-loop.ts:886-997 | in whatever order the entries settle, one result per entry in source order, also in an aborted batch; one per call if all were prepared |
| Steering.EveryMessageIsSomewhere | packages/agent/src/agent-loop.ts:246-288 | the places queue, native inputs, pending list and transcript together hold every steered message once, and again what was put back twice |
| Steering.ConservedUnlessRefusedLate | packages/agent/src/agent-loop.ts:575-585 | every message is in exactly one place if and only if no conversion of a native input was refused after its response closed |
| Steering.CalmConserves | packages/agent/src/agent-loop.ts:660-663 | that is so if no response closes while an input is being converted |
| Steering.LateRefusalDoublesMessage | packages/agent/src/agent-loop.ts:575-585 | a concrete run: the message is queued twice |
| Steering.TranscriptInSteeringOrder | packages/agent/src/agent-loop.ts:568-618 | with inputs confirmed in issue order and none refused late, transcript, native inputs, pending list and queue are together the steering order |
| Steering.OutOfTurnLosesOrder | packages/agent/src/agent-loop.ts:608-618 | confirming a native input keeps that order if and only if it is the oldest one |
| Steering.CloseKeepsOrder | packages/agent/src/agent-loop.ts:660-663 | inputs a response did not confirm go back to the front of the queue, in order |
| Steering.PendingMessageQueue.Drain | packages/agent/src/agent.ts:174-184 | a drain takes what the mode allows off the front, something whenever something waits |
| Steering.PendingMessageQueue.RemoveAt | packages/agent/src/agent.ts:186-189 | an index in range removes that message only, any other nothing |
| JsonCopy.CopySucceedsOnTrees | packages/chord/src/json.ts:30-80 | on every object graph, cyclic or shared, the copy succeeds exactly on values that unfold to a finite strict-JSON tree, and is that tree |
| JsonCopy.MirrorIsUnique | packages/chord/src/json.ts:30-33 | a value unfolds to one tree |
| JsonCopy.OneWay | packages/chord/src/json.ts:30-33 | nothing in a copy is shared: one way only leads to each of its containers |
| JsonCopy.CopyJson | packages/chord/src/json.ts:30-33 | `copyJson` terminates, succeeds exactly where a tree mirrors the value, and returns that tree built of containers that are all new, so the copy unfolds to the same tree; the input stays as it was |
| JsonCopy.IsJsonValue | packages/chord/src/json.ts:88-91 | `isJsonValue` is true exactly where `copyJson` without options succeeds |
| JsonCopy.Walk.Copy | packages/chord/src/json.ts:35-80 | the recursion over the shared set of ancestors leaves the set as it found it and fills containers it allocated itself |
| JsonCopy.Walk.Check | packages/chord/src/json.ts:93-135 | the check decides what the copy decides, and restores the set |
| CatalogVersions.OrderIsPrecedence | scripts/model-catalog-protocol.ts:221-260 | where numeric identifiers read exactly, the computed order is the precedence of item 11 of Semantic Versioning 2.0.0, and zero only on equal versions |
| CatalogVersions.OrderIsTransitive | scripts/model-catalog-protocol.ts:221-260 | the order is transitive on such versions |
| CatalogVersions.TransitiveIffExact | scripts/model-catalog-protocol.ts:250-257 | it is transitive if and only if no two different numeric identifiers read as one number |
| CatalogVersions.LeadingZerosAreInexact | scripts/model-catalog-protocol.ts:250-257 | where numbers are read in base ten, a numeric identifier and the same with a leading zero compare equal, and an order over both is not transitive |
| CatalogVersions.CanonicalIsExact | scripts/model-catalog-protocol.ts:250-252 | identifiers without leading zeros and within the safe integers read exactly |
| CatalogVersions.ComparePiVersions | scripts/model-catalog-protocol.ts:221-260 | the loops compute that order |
| CatalogVersions.SelectModelCatalog | scripts/model-catalog-protocol.ts:132-158 | the first entry whose minimum is the greatest not above the request, none exactly if every minimum is above it, an error exactly if an entry does not parse |
| CatalogVersions.SelectionIsMonotone | scripts/model-catalog-protocol.ts:145-157 | a higher request never gets a lower minimum |

## Left out

- Transports, compression, sockets, locks and process handling: links are FIFO channels that close.
- Op vocabulary and `apply`: ops are abstract in the link model; `Codec` has paths and op kinds but not what an op does to a value.
- Feed buffers (`connection.ts:1007-1012`): a snapshot is taken and sent in one step, so no event arrives between the two.
- Gap freedom of relayed holds that were switched off while something of them waited or was awaited: there is a gap, see `RelayToggling.SwitchOffOpensGap`.
- The binding around a consumer's members: shapes that wait for their snapshots, variants and hydration are events of a member's history (it forgets, or its binding ends); a decoder that throws counts as one that went astray.
- RelayChain.ChainAgrees: the hops of a chain are runs of their own; that links deliver in order, and a request only after what its sender had got was sent, are conditions on those runs (`Chain`, `HeardAt`) rather than steps of a joint one.
- A member that stops being readable while it is streamed: `DirectStreaming` compares runs whose members stay readable.
- Relay waits on a cancelled call: a signal that aborts between the route resolving and the listener being added (`connection.ts:1287-1292`) is not forwarded; only that the call still settles once by result or closing is covered.
- RelayLifecycle: the connections, relays and calls are maps of one state rather than objects that reference each other, so aliasing is not modelled.
- Forced retirement and its deadlines: retirement waits, votes may time out at any moment.
- Retirement in `waitForRetirement`: the check and the retirement that follows one microtask later are one step (`reload.ts:270-275`).
- Child hosts that reload on their own while they have no parent link: a child's versions come from the server; its own reloads only hold the slot.
- More than one server incarnation, and children that are themselves parents.
- What a reload does to objects (`reload.ts`): only its slot, its outcome and its code version.
- Call results across hosts: in `RootNetwork` calls settle in any order, which covers the order results impose.
- Roots in two code versions: a root is assumed to have one code version on a host (`host.ts:644`, `connection.ts:1155-1165`).
- References to objects of other hosts are no edges of the reference graph (`host.ts:1290-1305`), so cycles through them are not seen.
- Publications: listener callbacks are steps between deliveries rather than calls on a stack; value and event subscriptions are treated alike.
- Tracker and `diffRevisions`: taken as a pair with apply that gives back the next value; empty ops mean an equal value.
- Catalog refresh of several providers: the chains are independent, one is modelled; credentials, network and cloning errors are free outcomes.
- `terminate` and the events emitted around a call of a tool batch.
- Steering on aborted or throwing runs, and removal and clearing of the queue during a run: drained messages can be discarded there.
- Steering.PendingMessageQueue.Prepend: has no row; what putting messages back means is stated of the whole agent (`Steering.CloseKeepsOrder`, `Steering.ConservedUnlessRefusedLate`).
- Property order, proxies and error texts of JSON copies: a copy fails or returns its tree.
- Parsing of versions, requests and stored indexes: versions are already split; string collation is any total order.
