# Nonsense, verified

Nonsense runs networks of namespaces.  A daemon keeps a configuration of named entities, lets clients change it by transactions, and starts and stops one process per entity; that process sets up the namespace, its virtual devices and the routes to it.

This project models five connected parts of the program and proves what they promise.

**Lifecycle.**  `Lifecycle` is a state machine of Start and Stop requests.  A request is a chain of coroutine frames; every name has a FIFO token queue; `State.stack` is the C++ call stack, which decides what runs between two suspension points.  Replies, signals and the outcome of system calls are events.  `LifecycleInvariant` and `LifecycleSteps` prove the invariant of every run; `LifecycleSafety`, `LifecycleOutcome`, `ReplyCounts`, `DestructionOrder`, `Deadlock`, `Cascade`, `CascadeOrder` and `CascadeDone` draw the consequences; `LifecycleGrowth` shows that commits between events do not disturb a run.  `EntityRuntime` is the same protocol as an object that updates its queues, live table and frames in place.

**Coroutines and signals.**  `Coroutines` has frames of any nesting depth, how completions travel up and destroy while other frames run in between, and the promise as an object.  `Signals` has the vector of one-shot callbacks with its speculative clear, and the list it stands for.

**Configuration and transactions.**  `JsonTree` has the in-place insertion of dotted parameters, `ConfigModel` loading, adding and validating, `ConfigInvariant` and `ConfigAdd` what they keep, exactly when they succeed and what a refusal leaves, `ConfigMeaning` says the same written out on the JSON values, `ConfigLoad` which files load, `ConfigInputs` inputs at which this is not what one might wish, `ConfigStore` the configuration object, `Commits` and `CommitOrder` sequences of commits, `Transactions` the transaction manager, `TransactionHistory` what a transaction holds, told from the calls alone.  `Tokens` has the hexadecimal tokens.

**Uplinks and routes.**  `Uplinks` has walks along uplinks and the rank that exists when they end.  `Expansion` has the nested document sent to an entity daemon, `ConnectPlan` what the daemon reads from it, `Addresses` the address texts.  `Kernel` is the part of the kernel that `ip` edits: mounts of namespaces, links, addresses and routes.  `Fabric`, `SetupEffect` and `FabricSetup` set up a whole tree of switches and clients, `FabricConfig` ties it to a configuration, `Forwarding` sends packets through it, and `ConfiguredNetwork` goes the whole way from the configuration to the packets.

**Undo.**  `Setup` lists what an entity does, each action with its cleanup.  `Undo` proves that the cleanups of one entity take back exactly its own part, `FabricShutdown` applies this to trees, and `Entityd` is the entity daemon as an object with its two cleanup lists.

Where the code falls short of a property, the property is stated with the exact condition under which it holds:

- The protocol is free of deadlock exactly when every uplink chain ends (`Deadlock.DeadlockFreeIffChainsEnd`).  Over commits this means: exactly when no entity names itself as its uplink (`Transactions.DeadlockFreeOverCommits`).  `add` lets such an entity through because it is inserted before it is validated, exactly if its role is not `client` and the rest of it is admissible (`ConfigInputs.SelfUplinkIffNotClient`); `Transactions.SelfUplinkDeadlocks` is a transaction that does it.
- A refused `add` leaves the configuration as it was exactly unless a parameter runs through a value or the claim of the default was visited before the flaw (`ConfigAdd.RefusalResidue`).  `ConfigInputs.PartialEntityStays` and `ConfigInputs.ClaimStaysBehind` are inputs for the two.  Commits are all-or-nothing because they work on a copy.
- A switch without a usable address or uplink name makes the walk up the document fail (`ConnectPlan.HopsIffConnectable`); `ConnectPlan.PlanIff` says which entities can be set up at all.
- A Start whose `fork` fails sends no reply, and one that fails later leaves its name live (`LifecycleSafety.FailedStart`).

## Model

| member | source | states |
|---|---|---|
| `Uplinks.RankedIffAllChainsEnd` | daemon/entity.cpp:115-125 | a rank that drops along every uplink exists exactly when every chain of uplinks ends |
| `LifecycleSteps.RunInv` | daemon/entity.cpp:57-125 | the invariant of queues, frames, live table, process ledger and call stack holds after every run |
| `LifecycleSteps.NextInv` | daemon/entity.cpp:104-389 | every arrival, reply and frame step keeps that invariant |
| `LifecycleInvariant.SpawnInv` | daemon/entity.cpp:127-172 | forking, with each way it can fail, keeps the invariant |
| `LifecycleInvariant.EnqueueCore` | daemon/entity.cpp:76-97 | taking or waiting for a token keeps queues, chains and call stack consistent |
| `LifecycleInvariant.DestroyInv` | daemon/entity.cpp:57-70 | destroying a completed frame and handing its token over keeps the invariant |
| `LifecycleSteps.StartUplinkInv` | daemon/entity.cpp:115-125 | starting the uplink while holding the own token keeps the invariant |
| `LifecycleSafety.AtMostOneDaemon` | daemon/entity.cpp:108-168 | after every run, forks minus reaps of a name is 1 if it is live and 0 otherwise, not counting processes that were left without a bus |
| `LifecycleSafety.NoOrphans` | daemon/entity.cpp:164-168 | no process is left without a bus in runs where `sd_bus_new` succeeds |
| `LifecycleSafety.QueueCorrect` | daemon/entity.cpp:57-97 | a held name has exactly one live token, a free one has none and no waiter, and tokens are granted in arrival order without barging |
| `LifecycleSafety.NoDanglingHandles` | daemon/entity.cpp:81-87 | no queue and no call stack entry refers to a destroyed frame; the head of the stack can always run |
| `LifecycleSafety.CompletesOnce` | daemon/async.h:196-247 | a request completes at most once, and has completed exactly when its outermost frame has |
| `LifecycleSafety.UplinkBeforeDownlink` | daemon/entity.cpp:110-168 | a process is only forked for a name that is not live, while its direct uplink is live and cannot be stopped |
| `LifecycleSafety.LiveClosedUnderUplink` | daemon/entity.cpp:110-168 | in every run without Stop the live table is closed under uplink |
| `LifecycleSafety.FailedStart` | daemon/entity.cpp:127-172 | a Start that cannot spawn fails as a whole with one status; it is answered unless `socketpair` or `fork` failed; its name stays live exactly if the failure came after the bus was allocated |
| `LifecycleOutcome.SuccessMeans` | daemon/entity.cpp:104-389 | after any run, when a Start is answered with success its entity is live, and when a Stop is, its entity is not |
| `LifecycleOutcome.RunTopOthers` | daemon/entity.cpp:57-70 | the frame that runs changes its own request; other requests are at most handed a token |
| `DestructionOrder.ErrorDestroysOutermostFirst` | daemon/async.h:196-235 | after any run, when a frame completes with an error, its request has completed once, and along every cascade that follows, whatever the requests resumed by the released tokens do, the frames from the outermost one down to it are destroyed one by one, outermost first, each once; all are gone when the call stack is empty |
| `ReplyCounts.SuccessTakes` | daemon/entity.cpp:133-389 | after any run, a Start that returns with success either found its entity live and took no answer, or forked one process that came up and received exactly four answers and one for each component; a Stop that returns with success received exactly three |
| `ReplyCounts.FirstAnswerReaps` | daemon/entity.cpp:338-345 | the entity leaves the live table at the first answer to its Stop, and no other answer changes the table |
| `ReplyCounts.ConfiguredStartTakes` | daemon/entity.cpp:278-317 | over a valid configuration the components are the keys of the entity |
| `ReplyCounts.TopologyMeans` | daemon/entity.cpp:115-124 | the uplink is the one of the network component, and the components are counted by the keys of the entity |
| `DestructionOrder.FailureAnswer` | daemon/entity.cpp:127-334 | a request that fails is answered with the answer of the environment, the code of the system call that failed, or an error for a Stop of an entity that is not live |
| `LifecycleGrowth.GrowingRunIsRun` | daemon/entity.h:78 | a run over a configuration that grows by commits is a run over the final one, so looking entities up by name is the same at any time |
| `Deadlock.WaitsUpwards` | daemon/entity.cpp:108-125 | a holder of a token waits only for names strictly above its own, which are held |
| `Deadlock.DeadlockFreedom` | daemon/entity.cpp:57-125 | with ending chains, every queued request leads strictly up an uplink chain to a holder that waits on no queue and, once the loop is idle, has an answer to wait for |
| `Deadlock.Progress` | daemon/entity.cpp:104-389 | an idle daemon with an unfinished request has an answer of the environment to wait for |
| `Deadlock.DeadlockFreeIffChainsEnd` | daemon/entity.cpp:104-125 | every reachable state is deadlock free exactly when every uplink chain ends |
| `Deadlock.ClimbDeadlocks` | daemon/entity.cpp:115-125 | a single Start on a chain that never ends runs into its own token |
| `Cascade.RunTopWeight` | daemon/entity.cpp:57-70 | every step that a released token sets off uses up some of a finite amount of work |
| `Cascade.CascadeEnds` | daemon/entity.cpp:57-70 | with acyclic uplinks no cascade is longer than the work it starts with |
| `Cascade.CascadeFinishes` | daemon/entity.cpp:57-70 | whatever the system calls return, there is a point at which the call stack is empty |
| `CascadeOrder.RunGrantsPast` | daemon/entity.cpp:64-69 | after every run, everything granted the token of a name belongs to it and is past its queue |
| `CascadeOrder.LiveQueueDrains` | daemon/entity.cpp:57-113 | once the cascade after dropping the token of a live name has ended, every Start queued before the first Stop was granted the token, in arrival order, and is gone, without a fork for that name |
| `CascadeDone.LiveQueueSucceeds` | daemon/entity.cpp:108-113 | those requests have completed once, successfully |
| `CascadeDone.LiveQueueFinishes` | daemon/entity.cpp:57-113 | with ending chains that cascade does end, whatever the system calls return, and the Starts queued before the first Stop finish successfully in arrival order without a fork |
| `EntityRuntime.Runtime.AwaitReady` | daemon/entity.cpp:76-79 | ready exactly if the name is not held |
| `EntityRuntime.Runtime.AwaitSuspend` | daemon/entity.cpp:81-87 | the handle goes to the end of the queue; the name is held |
| `EntityRuntime.Runtime.AwaitResume` | daemon/entity.cpp:89-97 | the token is taken and the grant recorded; the name was free |
| `EntityRuntime.Runtime.EnqueueFrame` | daemon/entity.cpp:76-102 | refines the atomic enqueue of the state machine |
| `EntityRuntime.Runtime.ReleaseToken` | daemon/entity.cpp:57-70 | clearing the flag and resuming the head refines the atomic hand-over |
| `EntityRuntime.Runtime.CompleteWithUnit` | daemon/async.h:238-247 | the parent runs before the frame is destroyed |
| `EntityRuntime.Runtime.CompleteWithError` | daemon/async.h:196-235 | the root completes and all frames of the chain are left to be destroyed, outermost first |
| `EntityRuntime.Runtime.SpawnProcess` | daemon/entity.cpp:127-172 | refines the spawn step with each of its failures |
| `EntityRuntime.Runtime.RunBody` | daemon/entity.cpp:108-125 | refines what a frame does once it has the token |
| `EntityRuntime.Runtime.RunFrame` | daemon/entity.cpp:57-168 | refines one step of the frame on top of the call stack |
| `EntityRuntime.Runtime.Receive` | daemon/controller.cpp:94-134 | a Start or Stop call becomes a request with one frame that enqueues; an unknown entity is answered with ENOENT and nothing changes |
| `EntityRuntime.Runtime.OnReply` | daemon/entity.cpp:336-387 | refines what an answer does, including reaping and erasing before the unit is stopped |
| `EntityRuntime.Runtime.Drain` | daemon/entity.cpp:57-70 | running frames until the call stack is empty terminates and gives the result of the cascade with the outcomes that the system calls had in store; it keeps the invariant and takes nothing out of the live table |
| `Coroutines.NextInv` | daemon/async.h:195-317 | every step of the frames, in any interleaving with the destructions that are due, keeps parents alive, handles valid and replies unique |
| `Coroutines.FrameDiscipline` | daemon/async.h:196-272 | after any run no frame was destroyed twice, no message answered twice by a promise, and every kept handle, every frame due to be destroyed and every awaited parent is a frame that exists |
| `Coroutines.CompletionEffect` | daemon/async.h:196-235 | an error completion puts the frames from the root down to the failing one, outermost first, on top of those due to be destroyed, and answers the root message exactly for an error or a negative status; until a destruction runs, nothing else changes |
| `Coroutines.DestroyedOutermostFirst` | daemon/async.h:208-211 | whatever steps come in between, those frames are destroyed outermost first, at most the next one in a step, and all of them once nothing is due |
| `Coroutines.CompletedIsRun` | daemon/async.h:208-211 | if the destructions run nothing else they follow at once, which is what the methods of the promise compute |
| `Coroutines.CallFailedIs` | daemon/async.h:438-449 | a failed call destroys what resuming the frame only to let it fail would destroy |
| `Coroutines.Promises.ReturnValue` | daemon/async.h:196-235 | the recursion up the parents replies at the root and destroys the ancestors, outermost first |
| `Coroutines.Promises.CoReturn` | daemon/async.h:190-235 | with the end of the frame itself it is the error completion |
| `Coroutines.Promises.YieldValue` | daemon/async.h:250-280 | a negative code completes the frame, any other lets it run on |
| `Coroutines.Promises.OnCallReply` | daemon/async.h:438-456 | an error reply completes the frame with the negated errno, any other resumes it |
| `Coroutines.Promises.CoReturnUnit` | daemon/async.h:238-247 | the parent runs on while the frame still exists; fatal in a root frame |
| `Signals.Subscription.Match` | daemon/async.h:587-636 | a callback is appended |
| `Signals.Subscription.Dispatch` | daemon/async.h:540-559 | the swap-out and swap-back loop delivers to the first live callback that matches, keeps every other entry, and puts new registrations last; if the resumed coroutine destroys the subscription the loop does not touch it again.  In terms of keys: what fires has no key or the argument as its key, all before it have another key, and nothing fires exactly if all have another key |
| `Signals.DeliveredIsStep` | daemon/async.h:540-559 | that is the step on the list of live callbacks, and a callback fires exactly if one matches, whether or not the subscription survives |
| `Signals.OneShot` | daemon/async.h:501-559 | over any run no callback fires twice, each is live or has fired, and the next signal goes to the earliest registered one that has no key or the argument as its key |
| `JsonTree.InsertPlacesIffFree` | daemon/config.cpp:134-184 | a value is stored exactly if every node above is or can become an object and the place is free |
| `JsonTree.InsertFails` | daemon/config.cpp:148-172 | a value above the last step blocks the insertion, a value right above the place makes the library throw, and otherwise the place is taken |
| `JsonTree.InsertLookup` | daemon/config.cpp:134-184 | afterwards the path has the value, nodes above are objects, all else is as before |
| `JsonTree.InsertCommutes` | daemon/config.cpp:134-184 | insertions at incomparable paths commute |
| `JsonTree.BuildHolds` | daemon/config.cpp:131-185 | non-null values at prefix-free paths build a tree that has exactly them |
| `JsonTree.BuildAnyOrder` | daemon/config.cpp:131-185 | the order of such parameters does not matter |
| `JsonTree.RepeatedKeyRejected` | daemon/config.cpp:164-172 | a parameter given twice is rejected if its first value is not null |
| `ConfigStore.InsertParameter` | daemon/config.cpp:136-184 | the pointer walk over the dots of a key refines the insertion at its segments |
| `ConfigMeaning.SegmentsMean` | daemon/config.cpp:136-164 | the segments of a key are the parts between its dots; a key with a leading dot is one segment |
| `ConfigMeaning.SettingsMean` | daemon/config.cpp:174-184 | a value is the JSON that the text is, or the text |
| `ConfigInvariant.LoadGood` | daemon/config.cpp:64-76 | every file that loads has only known components, roles and parameters, addresses only on switches, uplinks that are existing networks and not clients, and one default at most |
| `ConfigInvariant.AddGood` | daemon/config.cpp:119-198 | adding an entity keeps this |
| `ConfigInvariant.OneDefault` | daemon/config.cpp:346-364 | at most one entity has a `default` parameter |
| `ConfigInvariant.ValidateNetworkSound` | daemon/config.cpp:292-440 | a network that passes validation is a valid one, in whatever order its keys come |
| `ConfigMeaning.GoodMeans` | daemon/config.cpp:233-440 | the invariant written out on the JSON values: version 1, the one known component, the five roles with their numbers, the five parameters, addresses only on switches, usable uplinks, the default |
| `ConfigMeaning.AddOutcome` | daemon/config.cpp:119-198 | the outcome of every `add` with its error number, by an acceptance condition written out on the JSON values, and the configuration after an accepted one |
| `ConfigMeaning.UnknownRoleRefused` | daemon/config.cpp:294-301 | a role outside the five is refused with EINVAL |
| `ConfigLoad.LoadExact` | daemon/config.cpp:55-77 | a file loads exactly if its metadata are version 1, its entries are valid, and the default is claimed at most once, free, and visited before its claimant; then its entities are loaded with the numbers of their roles |
| `ConfigAdd.AddExact` | daemon/config.cpp:119-198 | `add` succeeds exactly for a new name whose parameters build an admissible entity, and then changes nothing but this entity and the claim of the default |
| `ConfigAdd.RefusalResidue` | daemon/config.cpp:119-198 | a refused `add` leaves the configuration as it was exactly unless the name is new and either a parameter runs through a value or the claim of the default is reached: it is free, the network is visited before any unknown component and has a known role, and the key `default` comes before any flawed one; and what is left in each case |
| `ConfigAdd.PartialMeans` | daemon/config.cpp:134-158 | the partial entity is what the parameters before the failing one build |
| `ConfigAdd.ClaimOutlivesRejection` | daemon/config.cpp:322-439 | whether the parameters pass or not, the default ends up claimed exactly if its key was visited before any flaw |
| `ConfigInputs.PartialEntityStays` | daemon/config.cpp:153-158 | `a=x a.b.c=y` is refused and leaves the entity `{a: x}` |
| `ConfigInputs.ClaimStaysBehind` | daemon/config.cpp:187-195 | `network.role=switch network.default=true zzz=x` is refused and leaves the name as the default |
| `ConfigInputs.SelfUplinkIffNotClient` | daemon/config.cpp:380-437 | an entity that names itself as uplink is accepted exactly if its role is known and not `client` and everything else is admissible |
| `ConfigInputs.SelfUplinkAccepted` | daemon/config.cpp:126-132 | `network.role=switch network.uplink=NAME` is accepted for every new entity NAME in every valid configuration |
| `ConfigStore.Config.AddEntity` | daemon/config.cpp:119-198 | the in-place `add` does what the function on trees does, with the same errors |
| `ConfigStore.Config.ValidateNetworkOf` | daemon/config.cpp:292-440 | validation with its writes to `:role` and `:default-netns` |
| `ConfigStore.Config.ValidateEntityOf` | daemon/config.cpp:271-290 | the components of an entity in turn |
| `ConfigStore.Config.CheckOne` | daemon/config.cpp:322-439 | one parameter of a network |
| `ConfigStore.Config.CheckUplinkOf` | daemon/config.cpp:380-437 | one uplink, including the role key that looking at it creates |
| `ConfigStore.Config.Copy` | daemon/config.cpp:51-53 | a copy has the same tree and can be modified |
| `ConfigStore.Config.Assign` | daemon/config.cpp:79-83 | assignment copies the tree only |
| `ConfigStore.Config.TryGet` | daemon/config.cpp:108-117 | an entity is found exactly if its name is a key |
| `ConfigStore.LoadConfig` | daemon/config.cpp:55-77 | loading in place is the function on trees; it fails exactly when that does |
| `Commits.CommitKeeps` | daemon/transactions.cpp:142-184 | a commit keeps the configuration valid and alters no existing entity |
| `Commits.ChainsOverCommits` | daemon/transactions.cpp:144-184 | from a file whose chains end, after any commits every chain ends or runs into an entity naming itself; all end exactly if none names itself |
| `Commits.GoodClosed` | daemon/config.cpp:384-391 | every uplink of a valid configuration is in it |
| `CommitOrder.IndependentCommitsCommute` | daemon/transactions.cpp:144-184 | transactions over disjoint names that do not use each other as uplinks and do not both claim the default commute, with the same result |
| `Transactions.ServeCommits` | daemon/transactions.cpp:111-189 | a call commits a whole transaction or leaves the running configuration alone; a failed commit changes nothing |
| `Transactions.CommitsAreSerial` | daemon/transactions.cpp:142-186 | at any time the running configuration is the loaded one with the committed transactions applied whole in commit order; it is valid and no loaded entity is altered |
| `Transactions.RunningGrows` | daemon/transactions.cpp:142-186 | from any moment to a later one the configuration only grows |
| `Transactions.OnlyOwnersTouch` | daemon/transactions.cpp:134-140 | only its owner and root change, commit or discard a transaction; others get EACCES |
| `Transactions.UnknownToken` | daemon/transactions.cpp:118-125 | a token that is not open gets EINVAL and nothing changes |
| `TransactionHistory.HoldsWhatWasAppended` | daemon/transaction.cpp:73-120 | a transaction is open exactly if some call opened it and none has ended it since, and its operations are those that owner or root appended since, in call order |
| `TransactionHistory.CommitAppliesAppended` | daemon/transactions.cpp:142-188 | a permitted commit applies exactly those operations in that order, all of them or none |
| `TransactionHistory.OperationOutcome` | daemon/transactions.cpp:144-174 | the outcome of each operation with its error number |
| `Transactions.DeadlockFreeOverCommits` | daemon/transactions.cpp:142-186 | over any run of calls from a file whose chains end, the lifecycle over the running configuration is deadlock free exactly when no entity names itself |
| `Transactions.SelfUplinkDeadlocks` | daemon/transactions.cpp:111-189 | from any file whose chains end, opening, filling and committing one such transaction leads to a configuration over which a deadlock is reachable |
| `Transactions.TransactionManager.Open` | daemon/transactions.cpp:80-109 | a new transaction under an unused id |
| `Transactions.TransactionManager.AppendOperation` | daemon/transaction.cpp:73-120 | an operation is appended if the caller is owner or root |
| `Transactions.TransactionManager.CommitTransaction` | daemon/transactions.cpp:111-189 | the loop over a copy refines the atomic commit |
| `Transactions.TransactionManager.DiscardTransaction` | daemon/transactions.cpp:191-225 | the transaction is dropped if the caller is owner or root |
| `Tokens.TokenRoundTrip` | control/main.cpp:137-140 | for every 64-bit id the printed token parses back to it, and the client's object path is the daemon's |
| `Tokens.PrintedRoundTrip` | control/main.cpp:332-340 | the printed texts are exactly those of sixteen lower-case digits, and parsing and printing such a text gives it back |
| `Tokens.ParseExact` | control/main.cpp:332-340 | from any text, white space, a sign and `0x` are skipped, digits of either case are read as far as they go, and reading fails if there is none or they do not fit into 64 bits |
| `Tokens.ValueMeans` | control/main.cpp:334 | the value of hexadecimal digits of either case |
| `Tokens.PathsDistinct` | daemon/transaction.cpp:50-56 | two transactions have the same path exactly if they have the same id |
| `Addresses.PrefixExact` | entityd/main.cpp:94-102 | a net has a prefix exactly if it is a /24, and it is what stands before the last dot |
| `Addresses.DecimalIsValue` | entityd/main.cpp:104-105 | the printed host number stands for the number |
| `Addresses.NthAddressIsText` | entityd/main.cpp:92-112 | an address text is that of a prefix and a host number, and fails exactly for a net that is not a /24 |
| `Addresses.NthAddressDistinct` | entityd/main.cpp:92-112 | two address texts are equal exactly if prefix and host are |
| `Expansion.Document.DeepUplinkInfo` | daemon/entity.cpp:285-303 | with ending chains the recursion finishes, the component becomes its expansion, and the configuration is not touched |
| `Expansion.FlattenIsWalk` | daemon/entity.cpp:285-303 | flattening the nested document gives exactly the names and components met by walking uplinks by name |
| `Expansion.ExpansionUnique` | daemon/entity.cpp:285-303 | a component has one expansion at most |
| `Expansion.ExpandsIffChainEnds` | daemon/entity.cpp:285-303 | an entity has an expansion exactly when its uplink chain ends |
| `ConnectPlan.HopsAreWalk` | entityd/main.cpp:147-161 | the routes installed while walking up the document are those of the walk by name: in the uplink of each switch above, through that switch, up to the first entity that is not a switch |
| `ConnectPlan.HopsIffConnectable` | entityd/main.cpp:147-161 | that walk succeeds exactly when every switch on it has an uplink name and a /24 address |
| `ConnectPlan.PlanIff` | entityd/main.cpp:114-286 | the document of an entity has a plan exactly if the entity is a root, a switch that can be connected below switches that can, or a client of an entity with a subnet |
| `Kernel.ExecWellFormed` | entityd/main.cpp:49-58 | no command leaves an address, route or master on a missing device |
| `SetupEffect.SwitchRun` | entityd/main.cpp:114-175 | with its uplinks up, setting up a switch succeeds and adds exactly its links, addresses and routes |
| `SetupEffect.ClientRun` | entityd/main.cpp:177-200 | the same for a client |
| `FabricSetup.NodeSetUp` | entityd/main.cpp:205-286 | a node whose uplink is on never fails to set up, and the tables grow by exactly its part |
| `FabricSetup.FabricSetUp` | entityd/main.cpp:205-286 | starting nodes uplinks first never fails and gives exactly the links, addresses and routes of the nodes that are on |
| `Fabric.TablesUnique` | entityd/main.cpp:205-286 | the state depends only on which nodes are on, not on the order they came up |
| `FabricConfig.ConfiguredSound` | daemon/config.cpp:380-437 | in a valid configuration whose chains end, a tree of switches with distinct subnets has the rank its setup needs |
| `FabricConfig.DocumentPlan` | entityd/main.cpp:114-203 | the document made for a node yields the plan of the tree |
| `Forwarding.ConnectedIff` | entityd/main.cpp:136-175 | exactly a switch, its uplink and its clients are connected to its subnet |
| `Forwarding.Unambiguous` | entityd/main.cpp:147-161 | connected and static routes to one subnet never meet in a namespace |
| `Forwarding.StepIs` | entityd/main.cpp:114-203 | a namespace that is not connected passes a packet on to exactly one other, which is closer |
| `Forwarding.AnyToAny` | entityd/main.cpp:92-203 | from every namespace a packet to the subnet of every switch takes exactly one way, which ends attached to the subnet and visits no namespace twice |
| `ConfiguredNetwork.ConfiguredAnyToAny` | entityd/main.cpp:92-286 | in a valid configuration whose chains end, the documents of a tree of switches with distinct subnets, set up uplinks first, never fail and give a network in which every packet takes one way that arrives |
| `ConfiguredNetwork.DocumentsExist` | daemon/entity.cpp:278-304 | every node of such a tree has a document |
| `Undo.NetworkReversible` | entityd/main.cpp:60-203 | each action of a setup, when its turn comes, is undone by its own cleanup |
| `Undo.UndoPastForeign` | entityd/cleanup.h:39-47 | cleanups run in reverse past the commands of others, each finding what it undoes |
| `Undo.UndoIndependence` | entityd/main.cpp:254-329 | after setting up an entity and any others not below it, its cleanups all succeed and leave what setting up the others alone leaves |
| `FabricShutdown.ShutdownExact` | entityd/main.cpp:325-329 | shutting down a node that no started node is below leaves exactly the links, addresses and routes of the others |
| `Entityd.Cleanup.Add` | entityd/cleanup.h:49-52 | a cleanup is registered last |
| `Entityd.Cleanup.AddAll` | entityd/cleanup.h:54-58 | another list is taken over in order and left empty |
| `Entityd.Cleanup.Run` | entityd/cleanup.h:39-47 | the cleanups run in reverse and are forgotten |
| `Entityd.RunUndoConcat` | entityd/main.cpp:325-329 | running the later list and then the earlier one is running their concatenation |
| `Entityd.Daemon.SetupInterfaces` | entityd/main.cpp:60-69 | the veth pair comes up and its cleanup is registered, or it fails |
| `Entityd.Daemon.SetupBridge` | entityd/main.cpp:71-81 | the same for the bridge |
| `Entityd.Daemon.InstallRoutes` | entityd/main.cpp:147-161 | the loop up the document performs and registers exactly the routes read from it |
| `Entityd.Daemon.ConnectSwitch` | entityd/main.cpp:134-175 | the branch for a switch performs its actions in order, or fails |
| `Entityd.Daemon.ConnectClient` | entityd/main.cpp:177-200 | the branch for a client |
| `Entityd.Daemon.Connect` | entityd/main.cpp:114-203 | performs and registers the connection of the plan; fails exactly if there is no plan or a command fails |
| `Entityd.Daemon.AddNetwork` | entityd/main.cpp:205-286 | sets up the whole plan of the document; the two lists hold its cleanups |
| `Entityd.Daemon.AddComponent` | entityd/main.cpp:288-323 | a component that is active is refused and nothing changes; otherwise it is set up |
| `Entityd.Daemon.Shutdown` | entityd/main.cpp:325-329 | the state is the one after running all cleanups of the component in exact reverse order of registration |

## Left out

- sd-bus, epoll, the service loop, vtables and the D-Bus macros; replies and signals are events, and the credentials of a caller are a parameter.
- fork, exec, socketpair, setns, unshare and the shell; processes are counted, and a command is its effect on mounts, links, addresses and routes.  The root namespace, an external one and a fresh one differ only in which namespace gets the name.
- The device of a route is the one the plan names, where the kernel would pick it from the gateway.
- A command that fails inside a setup: the daemon aborts, and its cleanups are not run.
- Whether clients get distinct addresses: the program always picks host 3.
- The router and interface roles and `setup_nft`, which assert; `config::get`, and `serialize`, `set`, `delete` and `list` of transactions, which are not implemented.
- Names of systemd slices and scopes, and which step of a Start or Stop a reply belongs to: the steps are numbered.
- Components of an entry that is not an object: such an entry counts as having none, where iterating over a string would give one.
- JSON text: the parser is a parameter, and the order of the keys of an object is any enumeration of them.
- Numbers in JSON are integers.
- Random ids: `New` takes any id that is not in use.
- `LifecycleGrowth.GrowingRunIsRun`: speaks of contents only.  An entity in flight holds a reference to its JSON value (daemon/entity.h:78), which assignment of the tree (daemon/config.cpp:81) leaves dangling; the model looks entities up by name and does not capture the lifetime of the reference.
- `entity::stop` keeps an iterator into the live table across a suspension (daemon/entity.cpp:327-345), and an insertion by a Start in between may rehash the table; the model erases by name.
- `Coroutines.Promises.ReturnValue`: stated for frames that hold nothing whose destruction runs other frames, because a method cannot be interrupted; the steps between two destructions are in `Coroutines.DestroyedOutermostFirst` and, with the tokens, in `DestructionOrder.ErrorDestroysOutermostFirst`.
- `Coroutines.Promises.CoReturn`: stated for such frames too.
- `Coroutines.Promises.YieldValue`: stated for such frames too.
- `Coroutines.Promises.OnCallReply`: stated for such frames too.
- The root coroutine of a Start or Stop call and the outermost frame are one frame in `Lifecycle`; `Coroutines` has frames of any depth.
- A call to `Transaction.Add` with an id that does not exist is an error of the model; the bus has no such object.
- `Addresses.NthAddressIsText`: the host number is a natural number, because the program passes only 1, 2 and 3.
