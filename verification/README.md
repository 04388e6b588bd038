# Verified model of the Determa state engine

This project models the decision cores of a statechart engine with durable execution, and
proves what they keep. Five parts, each in the form of the code it models:

- **Run-to-completion engine.** `Statechart` is the resolved state tree with the facts the
  loader has checked; `Runtimes` is the ownership forest of runtime records; `RuntimeSteps`,
  `EngineFrames` and `EngineActions` say what entering, leaving, completing, faulting and
  acting do to it; `Selection` is the search for a transition and `EngineTransitions` where a
  transition leads, stops or faults. `Engine` holds the class `Execution`, whose methods change
  the runtimes, the emissions and the output counter in place, and `EngineDispatch` creates and
  dispatches whole aggregates. `QuietPrograms` computes where entering ends in programs without
  actions, variables and components, and `EngineCounterexamples` holds two programs that are
  loaded and cannot run.
- **Durable checkpoint.** `Queueing` is the queue-bearing aggregate. `CheckpointV1` states the
  relation that a stored checkpoint must satisfy. Creation, steps and root tombstoning are
  settlements (`CheckpointSettlement`, `SettlementInvariant`); admission, pruning and the
  outbox operations have modules of their own. `CheckpointHost` holds the class
  `CheckpointStore`, and `CheckpointRuns` reasons about every run of its operations.
- **Fenced effect leases.** `Effects`, `EffectsInvariant`, `EffectsChanges` and `EffectsHost`
  are the journal, the ledger and the transaction around a change; `EffectsProtocol` holds the
  class `EffectHost`, `Authority` the class `ScopeAuthority`, and `EffectsRuns` reasons about
  runs of atomic steps with a crash allowed between any two.
- **Expressions and inspection.** `CelValues`, `Cel` and `CelChecker` are the values, the
  fuel-charged interpreter and the static checker; `CelSoundness` connects the last two.
  `Inspection` summarizes and bounds the search of `Selection`.
- **Region substitution.** `Locators` reads JSON Pointers, `Compilation` overwrites the slots
  they name.

How the model is set up:

- A hash over a tuple is that tuple, so equal identities mean equal inputs. Decimal strings are
  natural numbers. A state is named by its path, so an ancestor is a prefix.
- Expression evaluation, floating-point arithmetic, compilers, handlers and stores are
  parameters: the results hold for every behaviour they may have. A database transaction is one
  atomic step. Exceptions are result values.
- Children that the engine visits in a sorted order are visited in some order.
- A Python assertion or recursion error that the engine does not turn into a fault is the
  outcome `Aborted` of a method and `Crash` of a dispatch. The `stack` of a method is what is
  left of the recursion for descending into one and the same composite again; that deep nesting
  or a long chain of spawns exhausts the interpreter as well is not part of the model.

What turned out not to hold, and exactly when it does:

- Admitting a delivery that does not come from the host leads to a document that the next
  restore refuses (`CheckpointAdmission.AdmissionStored`,
  `CheckpointCounterexamples.SystemDeliveryRefused`).
- Pruning keeps a checkpoint valid exactly when no dropped receipt had produced an outbox effect
  (`CheckpointPrune.PruneStored`, `CheckpointCounterexamples.PrunedProducer`).
- After a prevented start, a second cancellation is refused only when the transaction commits
  (`EffectsChanges.LateCancelValid`).
- An aggregate that holds a runtime which failed to initialize in a machine with history is
  refused by every later dispatch (`EngineDispatch.PriorValidExactly`); the engine creates one
  (`EngineCounterexamples.CreateLost`).
- An initial transition whose choices lead out of its composite makes the engine fail an
  assertion, and one whose choices lead back to it makes the engine exhaust the stack, although
  the loader accepts both (`EngineCounterexamples.CreateStray`). Only a program with such an
  initial transition can end that way in the model (`EngineDispatch.Create`,
  `EngineDispatch.Dispatch`). Without actions, variables and components, creation and dispatch
  crash exactly when the function of the guards in `QuietPrograms` says so.
- An equality between two dynamic values, and a map literal with a computed key, are accepted by
  the checker and can go wrong when run (`CelSoundness.DynamicEqualityFails`,
  `CelSoundness.ComputedKeyFails`).

## Model

| member | source | states |
|---|---|---|
| Statechart.AncestorsComposite | src/determa/state/model.py:35-46 | every ancestor of a state is a state, and every strict ancestor is composite |
| Statechart.BoundaryInnermost | src/determa/state/engine.py:2857-2874 | the boundary is the innermost common ancestor of source and target outside the source, with the two exceptions for a local or root source and for a target above the source |
| Statechart.FindBoundary | src/determa/state/engine.py:2857-2874 | the walk up from the source ends at that boundary, and its fallback to the root is never needed |
| Runtimes.ReplaceOk | src/determa/state/engine.py:687-727 | replacing one record keeps the whole forest well formed when its shape is right and its children still fit it |
| Runtimes.PrunedOk | src/determa/state/engine.py:2695-2715 | a forest without the subtree of a runtime, and without that runtime's entry in its owner, is well formed |
| Runtimes.AddChildOk | src/determa/state/engine.py:1546-1583 | a new child under a running owner that lists it keeps the forest well formed |
| Runtimes.ChildCounted | src/determa/state/engine.py:1048-1098 | the sequence number of a present child is below its owner's counter, so a new identity is never one in use |
| Runtimes.Childless | src/determa/state/engine.py:2662-2682 | a runtime without children has no descendant and an empty component map |
| Runtimes.NumberingJoins | src/determa/state/engine.py:2303-2305 | numbering the external emissions of two runs of emissions in turn is numbering them together |
| RuntimeSteps.VariableSlot | src/determa/state/engine.py:1736-1745 | the slot found is a state at or above the given one that is in scope and declares the variable |
| RuntimeSteps.InitialScopeOk | src/determa/state/engine.py:1708-1726 | an initialized scope has exactly the declared variables, with values of their types |
| RuntimeSteps.EnterOk | src/determa/state/engine.py:1634-1640 | entering a child of the leaf keeps the forest well formed, and no component was bound to it before |
| RuntimeSteps.ExitOk | src/determa/state/engine.py:2630-2644 | leaving the leaf keeps the forest well formed once no child is bound to it |
| RuntimeSteps.CompleteOk | src/determa/state/engine.py:2717-2732 | a childless runtime with no active state may be marked completed |
| RuntimeSteps.InitFaultOk | src/determa/state/engine.py:2803-2827 | clearing a new runtime that failed to initialize keeps the forest well formed |
| RuntimeSteps.StepFaultOk | src/determa/state/engine.py:2803-2827 | marking a running runtime faulted keeps the forest well formed |
| RuntimeSteps.SlotFree | src/determa/state/engine.py:1802-1843 | the next placement of a state has a free name and an identity not in use |
| RuntimeSteps.AllocateOk | src/determa/state/engine.py:1802-1852 | allocating the next component keeps the forest well formed |
| RuntimeSteps.RecordOkAt | src/determa/state/engine.py:2549-2562 | recording history on the way out keeps every entry a strict descendant, a direct child if shallow, a leaf if deep |
| Selection.SelectFromAbove | src/determa/state/engine.py:1896-1932 | a selected transition belongs to the leaf or an ancestor of it, and its guard holds |
| EngineFrames.HistoryRoundTrip | src/determa/state/engine.py:2549-2574 | entering a composite through an unchanged record restores exactly the active states it was left with if deep, and its direct child if shallow |
| EngineFrames.LeavingRecords | src/determa/state/engine.py:2549-2562 | leaving a composite with history records the leaf if it is deep and its direct child if it is shallow |
| EngineFrames.HistoryRestores | src/determa/state/engine.py:2598-2613 | entering an inactive composite through its record rests at or below the recorded state, and at it unless it is composite |
| EngineFrames.OutsideTransitive | src/determa/state/engine.py:1625-1706 | work that stays inside a runtime's subtree and numbers its external emissions composes |
| EngineFrames.StrippedStep | src/determa/state/engine.py:2695-2715 | cleaning up one child removes exactly its subtree and leaves the other children |
| EngineFrames.SpawnActed | src/determa/state/engine.py:2419-2502 | spawning changes the spawner's variables and spawn counter, adds settled runtimes, and nothing else |
| EngineFrames.CancelActed | src/determa/state/engine.py:2516-2522 | cancelling an owned instance leaves the canceller, its components and everything outside unchanged |
| EngineFrames.EnterComposes | src/determa/state/engine.py:1625-1689 | from the new activation to the last started component, one state has been entered |
| EngineFrames.WalkedFurther | src/determa/state/engine.py:2576-2593 | each state entered on a path gets a fresh activation and keeps those above it |
| EngineFrames.ReachedAfter | src/determa/state/engine.py:2594-2596 | walking to a composite and descending from it reaches the place below it |
| EngineFrames.MovedFrom | src/determa/state/engine.py:2539-2574 | recording, leaving to the boundary and entering the target make one transition |
| EngineActions.Resolve | src/determa/state/engine.py:2353-2385 | a resolved recipient is the sender, its owner, or an eligible runtime |
| EngineActions.SentNumbered | src/determa/state/engine.py:2303-2325 | external emissions of one send take the next output numbers in order |
| EngineActions.EmptyIsReference | src/determa/state/engine.py:2449-2455 | only a reference variable can be empty, so an instance is only ever bound to a reference |
| EngineTransitions.PicksActed | src/determa/state/engine.py:2018-2057 | the choices that one transition meets, whatever their number, change no more than actions may |
| EngineTransitions.TookDirect | src/determa/state/engine.py:1998-2019 | a transition whose target is no choice goes to that target, right after its own actions |
| EngineTransitions.InitialHalts | src/determa/state/engine.py:2624-2632 | a `stop` in an initial transition, or in any choice on its way, leaves a running runtime that has changed only inside its subtree |
| EngineTransitions.MovedPerforms | src/determa/state/engine.py:1943-1970 | resolving a target and moving to it is taking the transition, and everything in the subtree has settled |
| QuietPrograms.NothingVisible | src/determa/state/engine.py:1728-1734 | without variables no guard of a choice sees anything |
| QuietPrograms.QuietMoveSame | src/determa/state/engine.py:2539-2574 | where a transition ends depends on the active states and the history alone |
| Engine.Execution.constructor | src/determa/state/engine.py:1508-1526 | a new execution works on the given runtimes and has emitted nothing |
| Engine.Execution.AssignVariable | src/determa/state/engine.py:2098-2113 | exactly the declared variable changes, or nothing; which fault is raised, and when |
| Engine.Execution.CheckEligible | src/determa/state/engine.py:1477-1493 | the walk up the owners decides whether the runtime runs and nothing above it has faulted |
| Engine.Execution.ResolveAll | src/determa/state/engine.py:2240-2274 | all recipients resolve, or none is used; the fault is that of the first that has no value or does not resolve |
| Engine.Execution.SendEvent | src/determa/state/engine.py:2183-2351 | one emission for each recipient in order, with consecutive external numbers, or a fault and no emission; when each is the case |
| Engine.Execution.OwnsDescendant | src/determa/state/engine.py:2524-2537 | the walk up the owners decides strict ownership |
| Engine.Execution.CancelInstance | src/determa/state/engine.py:2516-2522 | the subtree of an owned present instance goes, and otherwise nothing changes; a fault has no value or comes from the cleanup |
| Engine.Execution.PerformAction | src/determa/state/engine.py:2073-2141 | each kind of action has its own exact effect or its own reasons to fault, changes nothing outside the subtree, and only `stop` stops |
| Engine.Execution.RunActions | src/determa/state/engine.py:2060-2141 | the world is led through the effects of all actions in order, up to a `stop` or to the first action that faults |
| Engine.Execution.CleanupDescendant | src/determa/state/engine.py:2684-2693 | exactly the subtree is removed, any fault on the way is a cascade fault, and below a faulted runtime cleanup is silent |
| Engine.Execution.CleanupRuntime | src/determa/state/engine.py:2695-2715 | exactly the subtree and its entry in the owner are removed; a running runtime outside faulted ones leaves all its states innermost first; termination |
| Engine.Execution.CleanupChildren | src/determa/state/engine.py:2662-2682 | the chosen children are removed with their subtrees, and no other child; without actions nothing faults |
| Engine.Execution.ExitState | src/determa/state/engine.py:2630-2660 | what the state holds is cleaned up, its exit actions run, and it alone is left; a fault is one of a child or of an exit action |
| Engine.Execution.ExitTo | src/determa/state/engine.py:2710-2712 | the active states past a depth are left innermost first, each after its exit actions; a fault is met at the state that was next |
| Engine.Execution.EmitCompletion | src/determa/state/engine.py:2734-2770 | a component reports its completion, and its owner's state is done exactly when all the owner's components have completed |
| Engine.Execution.CompleteRuntime | src/determa/state/engine.py:2717-2732 | all descendants go, all states are left, the record is emptied or the instance removed, and the completion events come last; why it faults |
| Engine.Execution.EvaluateBindings | src/determa/state/engine.py:1854-1894 | all bindings evaluate to values of the declared types exactly when none of them fails |
| Engine.Execution.SpawnInstance | src/determa/state/engine.py:2419-2502 | an instance with the next spawn number is made, bound to an empty reference if asked, and started; its identity was not in use; why it faults |
| Engine.Execution.NewInstance | src/determa/state/engine.py:2419-2478 | the record of the new instance and of its spawner before it starts, or the reason why there is none |
| Engine.Execution.BindReference | src/determa/state/engine.py:2449-2466 | an empty reference variable takes the new identity, and the holder names its activation; otherwise nothing changes |
| Engine.Execution.InitializeContained | src/determa/state/engine.py:2479-2502 | a failed initialization leaves the world as it was before it, the output counter included, but for exactly one failure event and the fault of the child, whose reason it is |
| Engine.Execution.RestoreContained | src/determa/state/engine.py:2504-2514 | restoring the child, the new runtimes and the counter restores the whole snapshot |
| Engine.Execution.InitializeRuntime | src/determa/state/engine.py:1614-1623 | an initialized runtime has settled, completed, or is a completed instance that is gone; a `stop` completes it; why it faults |
| Engine.Execution.EnterState | src/determa/state/engine.py:1625-1706 | the state becomes the leaf with a fresh activation, its entry actions run, its components settle; a final state completes the runtime; a fault is one of a variable, an entry action, a binding or the completion |
| Engine.Execution.OpenState | src/determa/state/engine.py:1634-1643 | the new leaf with its variables and its components in order, or nothing exactly when a variable lacks a value |
| Engine.Execution.AllocateComponents | src/determa/state/engine.py:1802-1852 | one new component for each placement in order, and no other change |
| Engine.Execution.InitializeComponents | src/determa/state/engine.py:1653-1689 | every component settles, and the owner and everything outside stay unchanged; the only fault is a failing binding, and earlier components have started by then |
| Engine.Execution.EnterPath | src/determa/state/engine.py:2576-2596 | the states below the boundary are entered outermost first with fresh activations down to the target, and on through the composites of one route to rest; a target outside the boundary always aborts |
| Engine.Execution.WalkPath | src/determa/state/engine.py:2584-2593 | the loop enters each state of the path once, and completes only at a final target |
| Engine.Execution.DescendComposite | src/determa/state/engine.py:2598-2628 | down through the recorded entry when history is asked for and recorded, and otherwise through the state that the initial transition finds, to rest |
| Engine.Execution.DescendInitial | src/determa/state/engine.py:2614-2628 | down through the state that the initial transition finds, to rest |
| Engine.Execution.SelectBranch | src/determa/state/engine.py:2027-2044 | the first branch whose guard holds, or the fault when a guard fails or none holds |
| Engine.Execution.ResolveCompound | src/determa/state/engine.py:1998-2058 | the actions run and each choice takes its first branch whose guard holds, none twice, to the state found; a fault or a `stop` is one of an action or a choice on that way |
| Engine.Execution.ResolveChoices | src/determa/state/engine.py:2018-2058 | the loop takes the first enabled branch of each choice; it faults exactly at a repeated choice, at one without an enabled branch, or at an action |
| Engine.Execution.RecordLeft | src/determa/state/engine.py:2549-2562 | the loop records exactly the composites with history strictly below the boundary |
| Engine.Execution.DirectChild | src/determa/state/engine.py:2556-2559 | the walk up from the leaf ends at the child of the composite and never runs off the root |
| Engine.Execution.ApplyTransition | src/determa/state/engine.py:2539-2574 | history recorded exactly, states left innermost first, then the found target entered outermost first and down to rest; states above the boundary keep their activations; why it faults |
| Engine.Execution.SelectTransition | src/determa/state/engine.py:1896-1932 | the loop over the levels finds what the search function finds |
| Engine.Execution.ScanLevel | src/determa/state/engine.py:1901-1926 | the loop over the transitions of one state finds the first enabled one, or the guard that fails |
| Engine.Execution.Process | src/determa/state/engine.py:1896-1970 | deferral, no handler and a failing guard change nothing; an unhandled failure notice faults; otherwise the selected transition is taken, or faults for a reason on its way |
| Engine.Execution.Perform | src/determa/state/engine.py:1943-1970 | the actions of the transition run, its own target is resolved and entered, or a `stop` met on that way completes the runtime; a fault has its reason on that way; everything in the subtree has settled |
| EngineDispatch.Create | src/determa/state/engine.py:289-386 | exactly when creation is refused; otherwise a well formed aggregate; a faulted one holds only the root with the reason, and is accepted later exactly when its machine has no history; without actions, variables and components, how creation ends is the computed ending |
| EngineDispatch.Dispatch | src/determa/state/engine.py:389-510 | exactly when a dispatch is rejected; nothing outside the subtree of the runtime changes; a step takes the selected transition to its target; a faulted step rolls everything back and has its reason; a crash needs an initial transition that its choices lead astray, and without actions, variables and components it comes exactly when computed |
| EngineDispatch.Deliver | src/determa/state/engine.py:462-510 | what is answered follows the search, and the next state is where the selected transition leads; the well formed aggregate is kept |
| EngineDispatch.Run | src/determa/state/engine.py:389-510 | after creation and any sequence of dispatches the aggregate is well formed, and all external emissions are numbered 0, 1, 2, ... |
| EngineDispatch.ActiveStates | src/determa/state/engine.py:794-826 | active states are a chain from the root, scopes and activations are theirs, activations are below their counters, and a running leaf is simple or parallel |
| EngineDispatch.OwnershipForest | src/determa/state/engine.py:687-727 | owners are present up to the root and neither completed nor cleared, and component maps match component children exactly |
| EngineDispatch.CompletedAlone | src/determa/state/engine.py:687-688 | a completed root is the only runtime |
| EngineDispatch.PriorValidExactly | src/determa/state/engine.py:608-727 | a well formed aggregate passes the prior-state check exactly when no runtime failed to initialize in a machine with history |
| EngineDispatch.FaultedStateOk | src/determa/state/engine.py:462-493 | the rolled-back state with the fault is well formed and differs only at the target |
| EngineCounterexamples.StrayDescends | src/determa/state/engine.py:2598-2628 | descending into a composite whose choice leads out of it, or back to it, ends badly however much recursion is left |
| EngineCounterexamples.CreateStray | src/determa/state/engine.py:2576-2596 | such a program is loaded, and its creation crashes |
| EngineCounterexamples.CreateLost | src/determa/state/engine.py:289-386 | a loaded program whose creation faults in a machine with history, and every dispatch after that is refused |
| Queueing.AdmitAggregate | src/determa/state/queueing.py:497-611 | admission appends one entry a delivery, in order, with the next acceptance and queue sequences |
| Queueing.EnqueueEmissions | src/determa/state/queueing.py:658-748 | each internal emission is one mailbox entry with fresh sequences or a disposal, each external one an outbox record |
| Queueing.DisposeMail | src/determa/state/queueing.py:751-818 | the mail of gone and completed runtimes is disposed of once, and the rest is kept |
| Queueing.RecallDeferred | src/determa/state/queueing.py:992-1011 | entries no longer deferred return, in order, to the end of the ready mailbox under consecutive queue sequences; the others stay in order |
| Queueing.CommitDispatch | src/determa/state/queueing.py:920-1026 | the committed half of a step keeps every mailbox condition |
| Queueing.StepAggregate | src/determa/state/queueing.py:843-1026 | a step removes or defers only the ready head, appends fresh entries, and disposes of others at most once |
| CheckpointSettlement.EntryLocations | src/determa/state/checkpoint_v1.py:60-74 | the dictionary holds exactly the waiting entries and where they are queued |
| SettlementInvariant.SettledTerminal | src/determa/state/checkpoint_v1.py:77-91 | the receipt that explained why an event waited explains its end |
| SettlementInvariant.NewEffect | src/determa/state/checkpoint_v1.py:507-533 | a step's outbox intents are about effects the document had not seen |
| SettlementInvariant.SettledStored | src/determa/state/checkpoint_v1.py:94-471 | a settlement of a stored checkpoint is a stored checkpoint: every condition of the validator |
| CheckpointStep.StepSettles | src/determa/state/checkpoint_v1.py:898-1055 | a committed step is a settlement, so it keeps the whole stored relation |
| CheckpointStep.DeferSettles | src/determa/state/checkpoint_v1.py:898-1055 | a deferred step settles nothing and keeps the whole stored relation |
| CheckpointStep.DisposedApart | src/determa/state/checkpoint_v1.py:1003-1043 | no surviving entry shares its acceptance sequence with a disposed one |
| CheckpointStep.IntentsExact | src/determa/state/checkpoint_v1.py:507-533 | outbox intents are exactly the external emissions, each once |
| CheckpointAdmission.KnownOnce | src/determa/state/checkpoint_v1.py:94-471 | an event is in at most one of mailbox, terminal receipt and tombstone |
| CheckpointAdmission.AdmissionStored | src/determa/state/checkpoint_v1.py:829-895 | admission keeps the stored relation exactly when all new deliveries come from the host |
| CheckpointAdmission.InternalAdmission | src/determa/state/checkpoint_v1.py:829-895 | one delivery from elsewhere is enough to break it |
| CheckpointAdmission.AdmissionKnows | src/determa/state/checkpoint_v1.py:829-895 | admission forgets nothing and learns exactly the new events |
| CheckpointPrune.KeptTogether | src/determa/state/checkpoint_v1.py:1143-1277 | an acceptance is dropped together with the receipt that settled its event |
| CheckpointPrune.PruneStored | src/determa/state/checkpoint_v1.py:1143-1277 | at any accepted cutoff, pruning keeps the stored relation exactly when no dropped receipt produced an outbox effect |
| CheckpointPrune.PruneKnows | src/determa/state/checkpoint_v1.py:1247-1275 | every event is known under the same digest as before |
| CheckpointOutbox.UpdateStored | src/determa/state/host.py:1193-1235 | updating a pending outbox record keeps the stored relation |
| CheckpointOutbox.TerminalizeStored | src/determa/state/host.py:1237-1297 | terminalizing an outbox record keeps the stored relation |
| CheckpointOutbox.CompactStored | src/determa/state/host.py:1299-1359 | compacting a terminal record keeps the stored relation |
| CheckpointOutbox.OutboxKnows | src/determa/state/host.py:1193-1359 | outbox operations leave every replay verdict as it was |
| CheckpointRoot.CreatedStored | src/determa/state/checkpoint_v1.py:536-638 | the checkpoint that creation writes satisfies the whole stored relation |
| CheckpointRoot.TombstoneSettles | src/determa/state/host.py:1122-1191 | tombstoning the root settles every waiting entry and keeps the stored relation |
| CheckpointLoops.TerminalizeMailboxReference | src/determa/state/checkpoint_v1.py:77-91 | exactly the references to the settled event turn terminal |
| CheckpointLoops.SynchronizeMailboxReferences | src/determa/state/checkpoint_v1.py:60-74 | the references of waiting events get the present sequences, and no other changes |
| CheckpointLoops.SettleThenAppend | src/determa/state/checkpoint_v1.py:1003-1043 | the loops of a step produce the settled receipts |
| CheckpointLoops.SettleEntryByEntry | src/determa/state/host.py:965-1006 | terminalizing entry by entry gives the same receipts as settling all first |
| CheckpointLoops.ProjectEmissions | src/determa/state/checkpoint_v1.py:507-533 | references and outbox intents of a step's emissions, in order |
| CheckpointLoops.FindReplay | src/determa/state/checkpoint_v1.py:646-712 | replay, conflict or new, as the known digest decides |
| CheckpointLoops.ListEntries | src/determa/state/checkpoint_v1.py:51-57 | all waiting entries, each once |
| CheckpointHost.PreflightAdmission | src/determa/state/checkpoint_v1.py:715-826 | every answer of the preflight, with the condition for it |
| CheckpointHost.LookUpAll | src/determa/state/checkpoint_v1.py:786-812 | the first conflict ends the lookup, and the new deliveries are kept in order |
| CheckpointHost.AppendAcceptances | src/determa/state/checkpoint_v1.py:853-885 | one acceptance receipt for each new delivery in order |
| CheckpointHost.CommitStep | src/determa/state/checkpoint_v1.py:944-1055 | the committed document of a step, and that it satisfies the stored relation |
| CheckpointHost.DependencyClosed | src/determa/state/checkpoint_v1.py:1190-1246 | the three dependency checks decide whether the cutoff is accepted |
| CheckpointHost.StrandsAcceptance | src/determa/state/checkpoint_v1.py:1143-1277 | the last dependency check never fires on a stored checkpoint |
| CheckpointHost.SplitReceipts | src/determa/state/checkpoint_v1.py:1247-1275 | kept receipts, and a tombstone for each dropped terminal one |
| CheckpointHost.SortedByTerminal | src/determa/state/checkpoint_v1.py:1247-1275 | the tombstones sorted by terminal sequence, with the same members |
| CheckpointHost.CheckpointStore.Create | src/determa/state/checkpoint_v1.py:536-638 | the store holds the created document, which satisfies the stored relation |
| CheckpointHost.CheckpointStore.Admit | src/determa/state/checkpoint_v1.py:829-895 | what is answered and committed in every case of an admission |
| CheckpointHost.CheckpointStore.Step | src/determa/state/checkpoint_v1.py:898-1055 | what is committed when the head is handled, deferred, faulted, or not runnable |
| CheckpointHost.CheckpointStore.TombstoneRoot | src/determa/state/host.py:1122-1191 | every waiting entry is settled and the root becomes its tombstone |
| CheckpointHost.CheckpointStore.Prune | src/determa/state/checkpoint_v1.py:1143-1277 | the pruned document, or an unchanged store with the reason |
| CheckpointHost.CheckpointStore.UpdatePendingOutbox | src/determa/state/host.py:1193-1235 | one pending record changes, or nothing |
| CheckpointHost.CheckpointStore.TerminalizeOutbox | src/determa/state/host.py:1237-1297 | one pending record becomes terminal, or nothing changes |
| CheckpointHost.CheckpointStore.CompactOutbox | src/determa/state/host.py:1299-1359 | one terminal record becomes a tombstone, or nothing changes |
| CheckpointRuns.NextStored | src/determa/state/checkpoint_v1.py:94-471 | every committed operation keeps the whole stored relation |
| CheckpointRuns.RunStored | src/determa/state/checkpoint_v1.py:94-471 | every checkpoint of every run of the operations satisfies the whole stored relation |
| CheckpointRuns.NextRemembers | src/determa/state/checkpoint_v1.py:646-712 | no operation forgets an event, its digest, or the receipt sequence that settled it |
| CheckpointRuns.VerdictFixed | src/determa/state/checkpoint_v1.py:786-812 | over any run the verdict for a known event is fixed: replay for its digest, conflict for any other, never new |
| CheckpointRuns.SettledOnce | src/determa/state/checkpoint_v1.py:1003-1043 | an event is settled at most once and a settled event no longer waits |
| CheckpointRuns.SettledForGood | src/determa/state/checkpoint_v1.py:1247-1275 | an event settled under a sequence stays settled under it, by its receipt or its tombstone, and never waits again |
| CheckpointCounterexamples.SystemDeliveryRefused | src/determa/state/checkpoint_v1.py:829-895 | a concrete admission of a system delivery leads to a document the validator refuses |
| CheckpointCounterexamples.PrunedProducer | src/determa/state/checkpoint_v1.py:1143-1277 | a concrete pruning passes every check and leaves an outbox record without its receipt |
| EffectsInvariant.CommitKeeps | src/determa/state/effects.py:967-1030 | committing a document that keeps its invariant and only evolves keeps the scope's invariant, journal and ledger |
| EffectsChanges.ClaimedKeeps | src/determa/state/effects.py:686-724 | issuing a claim keeps the document's invariant |
| EffectsChanges.ReportKeeps | src/determa/state/effects.py:1620-1724 | reporting the live attempt keeps the document's invariant |
| EffectsChanges.LossKeeps | src/determa/state/effects.py:1782-1823 | recovering a lost lease keeps the document's invariant |
| EffectsChanges.AdmissionKeeps | src/determa/state/effects.py:1759-1780 | admitting a recorded outcome keeps the document's invariant |
| EffectsChanges.PreventKeeps | src/determa/state/effects.py:1893-1927 | preventing the start of an effect at fence 0 keeps the document's invariant |
| EffectsChanges.StepExtends | src/determa/state/checkpoint_v1.py:898-1055 | every committed step of the core, deferrals included, keeps the acceptance receipts and the effects that the journal relies on |
| EffectsChanges.LateCancelValid | src/determa/state/effects.py:310-418 | a late cancellation passes the journal check exactly when no earlier cancellation had prevented the start |
| EffectsHost.GuardWorker | src/determa/state/effects.py:1045-1160 | exactly when the guard before a change admits the worker: no other principal, an unexpired lease while one matters, and a live claim or a finished attempt asked about again |
| EffectsHost.MirrorRecords | src/determa/state/effects.py:968-1030 | the mirrored work, refusing another binding or a lower fence |
| EffectsHost.MirrorClaims | src/determa/state/effects.py:968-1030 | the claim history gains exactly the claims of the document |
| EffectsHost.CommitChange | src/determa/state/effects.py:1045-1160 | a change that keeps the document's invariant always commits |
| EffectsProtocol.EffectHost.Seed | src/determa/state/effects.py:863-965 | a scope seeded with a journal that has no effect yet keeps the invariant of journal and ledger; exactly when seeding is refused |
| EffectsProtocol.EffectHost.IssueClaim | src/determa/state/effects.py:1307-1382 | a claim raises the fence by one and leases exactly that effect, or nothing changes |
| EffectsProtocol.EffectHost.Dispatch | src/determa/state/effects.py:1466-1547 | the handler is invoked only for the holder of a live lease, and the journal does not change |
| EffectsProtocol.EffectHost.RecordResult | src/determa/state/effects.py:1601-1724 | a report is stored at most once for a fence, and an outcome only for the live lease; the holder of a live lease with a deliverable result always succeeds |
| EffectsProtocol.EffectHost.SubmitResult | src/determa/state/effects.py:1549-1599 | the outcome is durable first, its admission a transaction of its own; both happen for the holder of a live lease with a deliverable result; an answer means that the report is in the journal and its outcome admitted, an error that nothing or only the record stage happened |
| EffectsProtocol.EffectHost.RecoverOne | src/determa/state/effects.py:1782-1823 | an outstanding lease is reported lost or a recorded outcome is admitted, for one effect and no other; exactly when it succeeds |
| EffectsProtocol.EffectHost.Recover | src/determa/state/effects.py:1782-1823 | after a successful recovery no effect is leased or has an unadmitted outcome |
| EffectsProtocol.EffectHost.Cancel | src/determa/state/effects.py:1825-1958 | a cancellation prevents a start at fence 0 and is late otherwise |
| EffectsProtocol.EffectHost.TerminalizeOutbox | src/determa/state/effects.py:1384-1432 | adapter acceptance changes the outbox and not the effect |
| EffectsProtocol.EffectHost.Produce | src/determa/state/effects.py:1171-1305 | a committed step of the core on the ready head, a blank record for every new effect, and the stored answer; or nothing |
| EffectsProtocol.StepCore | src/determa/state/effects.py:1218-1246 | only a committed step of the core, at the expected revision and digest, is taken into a production |
| EffectsRuns.NextKeeps | src/determa/state/effects.py:1045-1160 | every atomic step of the host, productions on any ready mail included, keeps the invariant, and every record only evolves |
| EffectsRuns.RunKeeps | src/determa/state/effects.py:1045-1160 | so does every run, with a crash between any two steps |
| EffectsRuns.ReportFences | src/determa/state/effects.py:310-418 | the report fences of an effect are exactly 1 to f, or 1 to f - 1 while it is leased at fence f |
| EffectsRuns.OutcomeForGood | src/determa/state/effects.py:1620-1724 | an outcome is set at most once, never changes, and nothing is reported after it |
| EffectsRuns.OutcomeSetter | src/determa/state/effects.py:1434-1464 | only the holder of the current unexpired lease, or a cancellation at fence 0, sets an outcome |
| EffectsRuns.PreventedNeverInvoked | src/determa/state/effects.py:1893-1927 | an effect whose start was prevented is never dispatched in the run, before or after |
| EffectsRuns.LedgerAgrees | src/determa/state/effects.py:630-683 | ledger and journal agree in every state: same fence, and a live claim exactly when the journal holds the lease |
| EffectsRuns.CrashConfluence | src/determa/state/effects.py:1759-1823 | on one host an outcome is submitted, on an equal one the host crashes after the outcome is durable and recovers: the scopes end equal, and recovering again changes nothing |
| Authority.ScopeAuthority.Perform | src/determa/state/authority.py:950-1300 | what each request does to the ledger, its receipt, and the unchanged ledger when it is refused or repeated |
| Authority.ScopeAuthority.MarkInDoubt | src/determa/state/authority.py:1324-1342 | a transaction in doubt is marked and nothing else changes |
| Authority.ScopeAuthority.ResolveRolledBack | src/determa/state/authority.py:1302-1322 | a rolled-back writer's mark is removed |
| Authority.ScopeAuthority.StoreTransaction | src/determa/state/authority.py:1375-1448 | exactly when a write of the execution store commits, and that it then adds one receipt, the checkpoint and the next generation |
| Authority.StoreStep | src/determa/state/authority.py:1406-1440 | a store write raises the generation by one under an identity no receipt has had, and the next write may follow it |
| Authority.FenceKeeps | src/determa/state/authority.py:1184-1236 | fencing a worker keeps ledger and journal in agreement |
| Authority.AuthorityRunKeeps | src/determa/state/authority.py:950-1342 | every run of host and authority operations and of store writes keeps the invariant of both |
| Authority.GenerationStep | src/determa/state/authority.py:992-1051 | each accepted mutating operation raises the generation by exactly one |
| Authority.FrozenForGood | src/determa/state/authority.py:1246-1300 | a frozen scope, its receipts and its inventory are the same in every later state |
| Authority.EffectsPreventFreezing | src/determa/state/authority.py:196-289 | a scope that ever hosted an effect is never frozen afterwards |
| Authority.FencesKept | src/determa/state/authority.py:1053-1236 | no run lowers or drops a fence |
| Authority.ReplaySame | src/determa/state/authority.py:992-1009 | repeating a receipted request gives the same result and changes nothing, in every later state |
| CelValues.QuotientTruncates | src/determa/state/inspection_cel.py:44-49 | the quotient is rounded toward zero; the remainder is smaller than the divisor and has the dividend's sign |
| CelValues.JoinCommutes | src/determa/state/inspection_cel.py:105-130 | the joined outcome of two truth values or failures does not depend on their order, up to which failure it is |
| Cel.Interpreter.Charge | src/determa/state/inspection_cel.py:73-76 | a charge past the limit is refused and spends nothing |
| Cel.Interpreter.Eval | src/determa/state/inspection_cel.py:78-258 | under every limit: the cost and outcome of the expression when it fits, and the limit otherwise |
| Cel.Interpreter.EvalJunction | src/determa/state/inspection_cel.py:105-130 | both operands are charged, a deciding operand wins over the other's failure, and reaching the limit is never held back |
| Cel.Interpreter.EvalMembers | src/determa/state/inspection_cel.py:215-223 | members in order, key before value, a later key replacing an earlier one |
| Cel.SafeEvaluate | src/determa/state/inspection_cel.py:284-299 | the verdict of a guard under the caps on source, snapshot and tree and a limit |
| Cel.FuelExact | src/determa/state/inspection_cel.py:67-130 | of two runs with different limits the smaller one reaches its limit, exactly when that is below the one cost, or both give the same answer and spend the same |
| Cel.JunctionCommutes | src/determa/state/inspection_cel.py:105-130 | conjunction and disjunction are commutative in cost, in value and in whether they fail |
| CelChecker.CommonTakes | src/determa/state/cel.py:214-227 | a common type takes the values of both types |
| CelChecker.UnarySound | src/determa/state/cel.py:426-544 | an accepted operation on one value of its operand type gives a value of the result type or an allowed failure |
| CelChecker.BinarySound | src/determa/state/cel.py:335-416 | an accepted operation on two values gives a value of the result type or an allowed failure |
| CelChecker.IndexSound | src/determa/state/cel.py:504-514 | an accepted index gives a value of the element type or a missing key or index |
| CelChecker.DotSound | src/determa/state/cel.py:490-502 | an accepted selection gives a value of the field's type or a missing key |
| CelSoundness.SoundMembers | src/determa/state/cel.py:473-488 | a map built from literal keys keeps distinct keys and fits its fields |
| CelSoundness.Soundness | src/determa/state/cel.py:285-544 | an accepted expression, run where the activation fits the scope, gives a value of its type or fails only by range, zero division, or a missing key or index |
| CelSoundness.DynamicEqualityFails | src/determa/state/cel.py:345-350 | an accepted equality of two dynamic values that goes wrong |
| CelSoundness.ComputedKeyFails | src/determa/state/cel.py:473-488 | an accepted map with a computed key whose field has another type |
| Locators.UnescapeEscape | src/determa/state/definition.py:100-101 | every string comes back from its escaped form |
| Locators.EscapeUnescape | src/determa/state/compilation.py:43-50 | the re-encoding check never refuses a part that the tilde check let through |
| Locators.Tokens | src/determa/state/compilation.py:37-52 | the loop reads the locator as the function does |
| Locators.TokensOfLocator | src/determa/state/compilation.py:37-52 | the locator of every non-empty path is read as that path |
| Locators.LocatorOfTokens | src/determa/state/compilation.py:37-52 | a locator that is read is the only locator of its path |
| Locators.NumeralIndex | src/determa/state/compilation.py:55-58 | the numeral of every number is read as that number |
| Locators.IndexNumeral | src/determa/state/compilation.py:55-58 | two tokens never name the same item |
| Compilation.SetReads | src/determa/state/compilation.py:61-70 | a slot reads back what was put there, and locations apart from it read as before |
| Compilation.SetCommutes | src/determa/state/compilation.py:144-157 | writing two slots that are apart commutes |
| Compilation.SubstitutedReads | src/determa/state/compilation.py:144-157 | every slot holds its own replacement and everything apart from the slots is as in the template |
| Compilation.AnyLast | src/determa/state/compilation.py:144-157 | any region may be written last |
| Compilation.OrderIrrelevant | src/determa/state/compilation.py:144-157 | the result does not depend on the order of the regions |
| Compilation.Preflight | src/determa/state/compilation.py:73-99 | locations are accepted exactly when all are read, pairwise prefix-free, and executable slots of their kind |
| Compilation.AdmittedDistinct | src/determa/state/compilation.py:80-84 | accepted locators are distinct texts |
| Compilation.Substitute | src/determa/state/compilation.py:144-157 | the loop in place gives the substituted document exactly when all compilers succeed within the step budget |
| Inspection.Structural | src/determa/state/inspection.py:80-93 | the loop from the outermost level computes the possible dispositions |
| Inspection.StructuralExact | src/determa/state/inspection.py:80-93 | those are exactly the dispositions that the search of a dispatch reaches over all truth values of the guards |
| Inspection.Inspect | src/determa/state/inspection.py:207-275 | what is found is what a dispatch selects and a structural disposition; a guard failure is one the dispatch meets; the limits are exceeded exactly when the search needs more |
| Inspection.SelectedIsPossible | src/determa/state/inspection.py:80-93 | a selection without a failing guard gives a structural disposition |

## Left out

- Engine.Execution.EvaluateBindings: the sorted order in which bindings are evaluated is not modelled; every failing binding raises the same fault.
- Engine.Execution.CancelInstance: a fault while descendants are cleaned up is said to need an action somewhere, not which exit action of which descendant raised it.
- Engine.Execution.CleanupChildren: children are visited in some order; the sort keys of components and instances are not modelled.
- EngineDispatch.Dispatch: the checks of an envelope's event, direction, payload and correlation are one parameter, and the delivery mode is part of it.
- CelSoundness.Soundness: for map literals with string-literal keys and equalities without two dynamic operands; null may stand for an instance reference.
- CheckpointRuns.RunStored: for admissions from the host and prunings that drop no producer of an outbox effect, which is exactly when those two operations keep the relation.
- Fault locators, cause identities and step numbers in faults; definition versions and migrated identities of runtimes; the `refresh` action, which assigns changed external variables.
- Native guard and action providers and their write checks; provider capability checks of inspection.
- Name resolution of transition targets (`MachineModel.resolve`) and the construction of the state tree: paths are resolved already.
- Numeric normalization of values by declared type: a variable is a reference or not.
- Expressions on operands of kinds that only Python's own coercions combine, such as a truth value added to a number.
- Migration of aggregates and maintenance migration with its receipts; `update_replay_retention`; deletion of outbox and retained records.
- The host-response form of `process_delivery_checkpoint_v1` and the reconstruction of producer responses.
- Delivery of an envelope addressed to another root; the place of operation tokens in result payloads; digests of intents.
- Provider evidence, handler verification and deduplication evidence, which are the verdict parameters of the effect host; and the route checks of a production.
- EffectsProtocol.EffectHost.Seed: a journal that already has records, with at most one claim, is not seeded; the source checks such a journal less strictly than its own operations keep it.
- Authority.ScopeAuthority.Perform: work that the authority binds itself, without a hosted journal, is not part of the model.
- Freshness of hash identities over a run is assumed where the source relies on it.
- The authority's profile composition and fault seam; the bytes of a stored checkpoint, which are a parameter; SQLite, file and schema details; worker claim inspection.
- JSON Schema validation, YAML loading, canonical encoding, bundle normalization, compiler capabilities and compilation manifests.
- Request validation, restoration and the evidence records of candidate inspection.
