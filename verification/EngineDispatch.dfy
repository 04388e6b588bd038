/** `_create`, `_dispatch` and `_validate_prior_state`: whole aggregates and runs of them. */
module EngineDispatch {
  import opened Options
  import opened Statechart
  import opened Runtimes
  import opened RuntimeSteps
  import opened Selection
  import opened EngineFrames
  import opened EngineActions
  import opened EngineTransitions
  import opened QuietPrograms
  import opened Engine

  datatype Aggregate = Aggregate(
    status: Status, fault: Option<FaultCode>, nextStep: nat, nextOutput: nat, runtimes: Forest)

  datatype Rejection = InvalidMachineTarget | InvalidBinding | InvalidPriorState | InvalidTarget | InvalidEvent

  datatype Created =
    | Refused(reason: Rejection)
    | Started(state: Aggregate, emissions: seq<Emission>)
    | Crashed

  datatype Outcome =
    | Rejected(reason: Rejection)
    | Unchanged(disposition: Disposition)
    | Stepped(emissions: seq<Emission>)
    | FaultedStep(code: FaultCode, emissions: seq<Emission>)
    | Crash

  // ---------------------------------------------------------------- invariants of an aggregate

  predicate AllSettled(program: Program, rs: Forest) {
    forall id :: id in rs ==> SettledAt(program, rs, id)
  }

  /** What creation establishes and every dispatch keeps. */
  predicate WellFormed(program: Program, a: Aggregate) {
    && Ok(program, a.runtimes)
    && AllSettled(program, a.runtimes)
    && Root in a.runtimes
    && a.status == a.runtimes[Root].status
    && a.fault == a.runtimes[Root].fault
  }

  predicate OwnersPresent(rs: Forest, id: RuntimeId) {
    id in rs && (id.Root? || OwnersPresent(rs, id.owner))
  }

  lemma {:induction false} OwnersReachRoot(program: Program, rs: Forest, id: RuntimeId)
    requires Ok(program, rs) && id in rs
    ensures OwnersPresent(rs, id)
  {
    assert RuntimeOk(program, rs, id);
    if !id.Root? {
      OwnersReachRoot(program, rs, id.owner);
    }
  }

  /** The invariant in plain terms: the active states are a chain from the root, scopes and
      activations are theirs, activation numbers are below their counters, and a running
      leaf is simple or parallel. */
  predicate Standing(program: Program, rt: Runtime) {
    && (rt.active == [] || (rt.active[0] == [] && rt.active == Chain(LeafOf(rt))))
    && rt.scopes.Keys == (set p | p in rt.active) && rt.activations.Keys == (set p | p in rt.active)
    && (forall p :: p in rt.activations ==> p in rt.counters && rt.activations[p] < rt.counters[p])
    && (rt.status.Running? ==>
          && rt.active != []
          && rt.machine in program.machines && LeafOf(rt) in program.machines[rt.machine]
          && program.machines[rt.machine][LeafOf(rt)].kind in {Simple, Parallel})
  }

  lemma ActiveStates(program: Program, a: Aggregate, id: RuntimeId)
    requires WellFormed(program, a) && id in a.runtimes
    ensures Standing(program, a.runtimes[id])
  {
    hide ScopeOk, HistoryOk, ChildOk, ComponentsOk;
    assert RuntimeOk(program, a.runtimes, id);
    assert SettledAt(program, a.runtimes, id);
  }

  /** Ownership: the owners of a runtime lead to the root and have not completed, and its
      component map is exactly its component children. */
  lemma OwnershipForest(program: Program, a: Aggregate, id: RuntimeId)
    requires WellFormed(program, a) && id in a.runtimes
    ensures OwnersPresent(a.runtimes, id)
    ensures !id.Root? ==> id.owner in a.runtimes && !a.runtimes[id.owner].status.Completed? && !NeverStarted(a.runtimes[id.owner])
    ensures forall c :: c in Children(a.runtimes, id) && c.Component? ==>
              && ComponentName(program, c.slot) in a.runtimes[id].components
              && a.runtimes[id].components[ComponentName(program, c.slot)] == c
    ensures forall name :: name in a.runtimes[id].components ==> NamedComponent(program, a.runtimes, id, name)
  {
    hide Shape;
    OwnersReachRoot(program, a.runtimes, id);
    assert RuntimeOk(program, a.runtimes, id);
    forall c | c in Children(a.runtimes, id) && c.Component?
      ensures ComponentName(program, c.slot) in a.runtimes[id].components
      ensures a.runtimes[id].components[ComponentName(program, c.slot)] == c
    {
      assert RuntimeOk(program, a.runtimes, c);
    }
  }

  /** A completed root is the only runtime left. */
  lemma CompletedAlone(program: Program, a: Aggregate)
    requires WellFormed(program, a) && a.status.Completed?
    ensures a.runtimes.Keys == {Root}
  {
    forall id | id in a.runtimes && !id.Root? ensures id.owner != Root {
      assert RuntimeOk(program, a.runtimes, id);
    }
    assert Children(a.runtimes, Root) == {};
    Childless(program, a.runtimes, Root);
    forall id | id in a.runtimes ensures id == Root {
      WithinEveryRoot(id);
    }
  }

  // ---------------------------------------------------------------- prior states

  /** Each active state is the child of the one before, and the first is the root. */
  predicate ParentChain(active: seq<Path>) {
    && (active != [] ==> active[0] == [])
    && (forall i :: 0 < i < |active| ==> active[i] != [] && Parent(active[i]) == active[i - 1])
  }

  predicate RecordValid(m: Machine, p: Path, d: Path) {
    && p in m && d in m
    && p <= d && p != d
    && (m[p].history.Shallow? ==> d != [] && Parent(d) == p)
  }

  /** `_validate_runtime_state`. */
  predicate RuntimeValid(program: Program, id: RuntimeId, rt: Runtime) {
    && rt.machine in program.machines
    && (id.Spawned? ==> !rt.status.Completed?)
    && var m := program.machines[rt.machine];
       && (forall p :: p in rt.active ==> p in m)
       && ParentChain(rt.active)
       && (rt.active == [] ==> !rt.status.Running?)
       && rt.scopes.Keys == (set p | p in rt.active)
       && (forall p {:trigger ScopeOk(m, p, rt.scopes[p])} :: p in rt.scopes ==> ScopeOk(m, p, rt.scopes[p]))
       && CountersOk(m, rt)
       && rt.history.Keys == HistoryStates(m)
       && (forall p :: p in rt.history && rt.history[p].Some? ==> RecordValid(m, p, rt.history[p].value))
       && (rt.status.Faulted? <==> rt.fault.Some?)
       && (rt.status.Completed? ==> rt.active == [] && rt.components == map[])
  }

  /** The relation of a child to its owner, and of the owner's component map to its children. */
  predicate RelationsValid(program: Program, rs: Forest, id: RuntimeId)
    requires id in rs
  {
    && ComponentsOk(program, rs, id)
    && (!id.Root? ==>
          && id.owner in rs
          && (id.Component? ==> ComponentOk(program, rs[id.owner], id, rs[id]) && PlacedInParallel(program, id.slot))
          && (id.Spawned? ==> SpawnedOk(program, rs[id.owner], id, rs[id])))
  }

  predicate PlacedInParallel(program: Program, s: Slot) {
    && s.machine in program.machines
    && s.state in program.machines[s.machine]
    && program.machines[s.machine][s.state].kind.Parallel?
  }

  /** `_validate_prior_state`. */
  predicate PriorValid(program: Program, a: Aggregate) {
    && Root in a.runtimes
    && a.runtimes[Root].status == a.status
    && (if a.status.Faulted? then a.fault == a.runtimes[Root].fault else a.fault == None)
    && (forall id :: id in a.runtimes ==> RuntimeValid(program, id, a.runtimes[id]))
    && (a.status.Completed? ==> |a.runtimes| == 1)
    && (forall id {:trigger RelationsValid(program, a.runtimes, id)} ::
          id in a.runtimes ==> RelationsValid(program, a.runtimes, id))
  }

  lemma ChainIsParentChain(p: Path)
    ensures ParentChain(Chain(p))
  {
    var chain := Chain(p);
    forall i | 0 < i < |chain| ensures chain[i] != [] && Parent(chain[i]) == chain[i - 1] {
      assert chain[i] == p[..i] && chain[i - 1] == p[..i - 1];
      assert p[..i][..i - 1] == p[..i - 1];
    }
  }

  /** Failed to initialize, in a machine that keeps history. */
  predicate LostHistory(program: Program, rt: Runtime) {
    NeverStarted(rt) && rt.machine in program.machines && HistoryStates(program.machines[rt.machine]) != {}
  }

  lemma ValidRuntime(program: Program, a: Aggregate, id: RuntimeId)
    requires WellFormed(program, a) && id in a.runtimes
    ensures RuntimeValid(program, id, a.runtimes[id]) <==> !LostHistory(program, a.runtimes[id])
  {
    assert RuntimeOk(program, a.runtimes, id);
    assert SettledAt(program, a.runtimes, id);
    var rt := a.runtimes[id];
    var m := program.machines[rt.machine];
    if rt.active != [] {
      ChainIsParentChain(LeafOf(rt));
    }
    forall p | p in rt.history && rt.history[p].Some? ensures RecordValid(m, p, rt.history[p].value) {
      assert RecordOk(m, p, rt.history[p].value);
      var d := rt.history[p].value;
      if m[p].history.Shallow? {
        assert Parent(d) == p;
      }
    }
  }

  lemma ValidRelations(program: Program, a: Aggregate, id: RuntimeId)
    requires Loaded(program) && WellFormed(program, a) && id in a.runtimes
    ensures RelationsValid(program, a.runtimes, id)
  {
    assert RuntimeOk(program, a.runtimes, id);
    if id.Component? {
      LoadedNode(program, id.slot.machine, id.slot.state);
    }
  }

  /** The engine accepts the states it makes, except those holding a runtime that failed to
      initialize in a machine with history: its history was cleared, and the check of prior
      states wants the machine's history states as keys. */
  lemma PriorValidExactly(program: Program, a: Aggregate)
    requires Loaded(program) && WellFormed(program, a)
    ensures PriorValid(program, a) <==> forall id :: id in a.runtimes ==> !LostHistory(program, a.runtimes[id])
  {
    forall id | id in a.runtimes
      ensures RuntimeOk(program, a.runtimes, id) && RelationsValid(program, a.runtimes, id)
      ensures RuntimeValid(program, id, a.runtimes[id]) <==> !LostHistory(program, a.runtimes[id])
    {
      ValidRuntime(program, a, id);
      ValidRelations(program, a, id);
    }
    if a.status.Completed? {
      CompletedAlone(program, a);
      assert |a.runtimes| == |a.runtimes.Keys|;
    }
  }

  // ---------------------------------------------------------------- creation

  /** `_creation_bindings`: exactly the bound variables may be given, with values of their
      types, and those without a default must be. */
  predicate CreationBindings(m: Machine, bindings: Scope) {
    && BindingsOk(m, bindings)
    && (forall x :: x in bindings ==> m[[]].variables[x].bound)
    && (forall x :: x in m[[]].variables && m[[]].variables[x].bound && x !in bindings ==>
          m[[]].variables[x].init.Some?)
  }

  lemma NewAlone(program: Program, root: Runtime)
    requires IsNew(program, root)
    ensures Ok(program, map[Root := root])
  {
    NewShape(program.machines[root.machine], root);
    forall id | id in map[Root := root] ensures RuntimeOk(program, map[Root := root], id) {
    }
  }

  lemma StartedWellFormed(program: Program, a: World, b: World)
    requires Ok(program, b.runtimes) && EngineFrames.Started(program, a, b, Root)
    requires a.runtimes.Keys == {Root}
    ensures AllSettled(program, b.runtimes) && Root in b.runtimes && !b.runtimes[Root].status.Faulted?
    ensures a.emissions == [] ==> Numbering(a.nextOutput, b.emissions) == Some(b.nextOutput)
  {
    assert b.emissions[0..] == b.emissions;
    forall id | id in b.runtimes ensures SettledAt(program, b.runtimes, id) {
      if id != Root {
        assert Survivor(program, a.runtimes, b.runtimes, id);
      }
    }
  }

  lemma LoneLostHistory(program: Program, a: Aggregate, machine: MachineId)
    requires a.runtimes.Keys == {Root} && a.runtimes[Root].machine == machine && NeverStarted(a.runtimes[Root])
    requires machine in program.machines
    ensures (forall id :: id in a.runtimes ==> !LostHistory(program, a.runtimes[id])) <==>
              HistoryStates(program.machines[machine]) == {}
  {
    assert Root in a.runtimes;
  }

  /** The world in which a root starts. */
  function Blank(program: Program, machine: MachineId): World
    requires machine in program.machines
  {
    World(map[Root := NewRuntime(program.machines[machine], machine, 0, None)], [], 0, map[])
  }

  /** The history of a new runtime. */
  function Unrecorded(m: Machine): Records {
    map p | p in HistoryStates(m) :: None
  }

  /** Creation ended as foreseen. */
  ghost predicate CreatedAs(created: Created, ending: Ending) {
    match ending
    case RestsAt(leaf) =>
      && created.Started? && created.state.status.Running?
      && Root in created.state.runtimes && created.state.runtimes[Root].active == Chain(leaf)
    case Completes => created.Started? && created.state.status.Completed?
    case Faults(code) => created.Started? && created.state.status.Faulted? && created.state.fault == Some(code)
    case Crashes => created.Crashed?
  }

  /** What is left of a creation that faulted. */
  lemma FaultedCreation(program: Program, machine: MachineId, root: Runtime, code: FaultCode)
    requires Loaded(program) && machine in program.machines && root.machine == machine
    requires IsNew(program, root) && Ok(program, map[Root := root])
    ensures var failed := InitFault(root, code);
      var state := Aggregate(Faulted, Some(code), 1, 0, map[Root := failed]);
      && failed.fault == Some(code) && NeverStarted(failed) && WellFormed(program, state)
      && (PriorValid(program, state) <==> HistoryStates(program.machines[machine]) == {})
  {
    hide Shape, IsNew, Ok, PriorValid, HistoryStates;
    var failed := InitFault(root, code);
    var state := Aggregate(Faulted, Some(code), 1, 0, map[Root := failed]);
    InitFaultOk(program, map[Root := root], Root, code);
    assert map[Root := root][Root := failed] == map[Root := failed];
    PriorValidExactly(program, state);
    LoneLostHistory(program, state, machine);
  }

  lemma NumberingNone(n: nat)
    ensures Numbering(n, []) == Some(n)
  {
  }

  lemma CreatedWith(flow: Flow, rs: Forest, ending: Ending, created: Created)
    requires Ends(flow, rs, Root, ending)
    requires flow.Done? ==>
               created.Started? && Root in rs && created.state.runtimes == rs && created.state.status == rs[Root].status
    requires flow.Raised? ==>
               created.Started? && created.state.status.Faulted? && created.state.fault == Some(flow.code)
    requires flow.Aborted? ==> created.Crashed?
    ensures CreatedAs(created, ending)
  {
  }

  /** `_create`: a running, completed or faulted aggregate, or a refusal. */
  method Create(
    program: Program, cel: Evaluator, machine: MachineId, bindings: Scope, stack: nat)
    returns (created: Created)
    requires Loaded(program)
    ensures created.Refused? <==> machine !in program.machines || !CreationBindings(program.machines[machine], bindings)
    ensures created.Started? ==> WellFormed(program, created.state)
    ensures created.Started? ==> created.state.nextStep == 1
    ensures created.Started? ==> Numbering(0, created.emissions) == Some(created.state.nextOutput)
    ensures created.Started? && created.state.status.Faulted? ==>
              && created.emissions == [] && created.state.nextOutput == 0
              && created.state.runtimes.Keys == {Root} && NeverStarted(created.state.runtimes[Root])
    ensures created.Started? && created.state.status.Faulted? ==> !Faultless(program)
    ensures created.Started? && created.state.status.Faulted? ==>
              (PriorValid(program, created.state) <==> HistoryStates(program.machines[machine]) == {})
    ensures created.Started? && created.state.status.Faulted? ==>
              && created.state.fault.Some?
              && InitFails(program, cel, Blank(program, machine), Root, bindings, created.state.fault.value)
    ensures created.Crashed? ==> !Contained(program)
    ensures Quiet(program) && !created.Refused? ==>
              CreatedAs(created, QuietRoot(program.machines[machine], cel, Unrecorded(program.machines[machine]), stack))
  {
    if machine !in program.machines {
      return Created.Refused(InvalidMachineTarget);
    }
    assert MachineOk(program, machine);
    if !CreationBindings(program.machines[machine], bindings) {
      return Created.Refused(InvalidBinding);
    }
    var root := NewRuntime(program.machines[machine], machine, 0, None);
    NewIsNew(program, machine, 0, None);
    hide Shape, IsNew, Ok, Contained, PriorValid, Faultless, Quiet, QuietRoot, InitFails, Ends, CreatedAs, Numbering,
      Loaded, CreationBindings, InitFault, HistoryStates;
    NewAlone(program, root);
    var execution := new Execution(program, cel, false, map[Root := root], 0);
    ghost var w0 := execution.Now();
    var flow := execution.InitializeRuntime(Root, bindings, stack);
    if flow.Aborted? {
      created := Crashed;
    } else if flow.Raised? {
      var failed := InitFault(root, flow.code);
      var state := Aggregate(Faulted, failed.fault, 1, 0, map[Root := failed]);
      FaultedCreation(program, machine, root, flow.code);
      NumberingNone(0);
      created := Created.Started(state, []);
    } else {
      StartedWellFormed(program, w0, execution.Now());
      var rt := execution.runtimes[Root];
      created := Created.Started(
        Aggregate(rt.status, rt.fault, 1, execution.nextOutput, execution.runtimes), execution.emissions);
    }
    if Quiet(program) {
      ghost var ending := QuietRoot(program.machines[machine], cel, Unrecorded(program.machines[machine]), stack);
      CreatedWith(flow, execution.runtimes, ending, created);
    }
  }

  // ---------------------------------------------------------------- dispatch

  /** A dispatch to `r` changes nothing outside what `r` owns. */
  ghost predicate Isolated(a: Aggregate, b: Aggregate, r: RuntimeId) {
    OnlySubtreeDiffers(a.runtimes, b.runtimes, r)
  }

  function FaultEvents(r: RuntimeId, code: FaultCode): seq<Emission> {
    if r.Root? then [] else [FailureEvent(r, code)]
  }

  /** The state after a faulted step: everything rolled back, the runtime marked. */
  function FaultedState(a: Aggregate, r: RuntimeId, code: FaultCode): Aggregate
    requires r in a.runtimes
  {
    var runtimes := a.runtimes[r := StepFault(a.runtimes[r], code)];
    if r.Root? then Aggregate(Faulted, Some(code), a.nextStep + 1, a.nextOutput, runtimes)
    else a.(nextStep := a.nextStep + 1, runtimes := runtimes)
  }

  lemma FaultedStateOk(program: Program, a: Aggregate, r: RuntimeId, code: FaultCode)
    requires WellFormed(program, a) && r in a.runtimes && a.runtimes[r].status.Running?
    ensures WellFormed(program, FaultedState(a, r, code)) && Isolated(a, FaultedState(a, r, code), r)
  {
    hide Ok;
    assert SettledAt(program, a.runtimes, r);
    StepFaultOk(program, a.runtimes, r, code);
    FaultSettled(program, a.runtimes, r, code);
    assert Within(r, r);
  }

  lemma FaultSettled(program: Program, rs: Forest, r: RuntimeId, code: FaultCode)
    requires AllSettled(program, rs) && r in rs
    ensures AllSettled(program, rs[r := StepFault(rs[r], code)])
  {
    forall id | id in rs ensures SettledAt(program, rs[r := StepFault(rs[r], code)], id) {
      assert SettledAt(program, rs, id);
    }
  }

  lemma AdvancedNumbers(
    program: Program, cel: Evaluator, a: Aggregate, b: Aggregate, emissions: seq<Emission>, r: RuntimeId, event: string,
    choice: Selection)
    requires Advanced(program, cel, a, b, emissions, r, event, choice)
    ensures Numbering(a.nextOutput, emissions) == Some(b.nextOutput)
  {
  }

  lemma SteppedOk(program: Program, a: World, b: World, r: RuntimeId)
    requires Ok(program, a.runtimes) && AllSettled(program, a.runtimes) && Root in a.runtimes
    requires Ok(program, b.runtimes) && EngineFrames.Started(program, a, b, r)
    ensures AllSettled(program, b.runtimes) && Root in b.runtimes && OnlySubtreeDiffers(a.runtimes, b.runtimes, r)
  {
    OutsideForest(a, b, r);
    if r != Root {
      OutsideAt(a, b, r, Root);
    }
    forall id | id in b.runtimes ensures SettledAt(program, b.runtimes, id) {
      if id != r {
        assert Survivor(program, a.runtimes, b.runtimes, id);
        if id in a.runtimes {
          assert SettledAt(program, a.runtimes, id);
        }
      }
    }
  }

  lemma PerformedStarts(
    program: Program, cel: Evaluator, a: World, b: World, r: RuntimeId, event: string, s: Selection)
    requires PerformedBy(program, cel, a, b, r, event, s)
    ensures EngineFrames.Started(program, a, b, r) && Emitted(a, b)
  {
  }

  /** What the search of `process` finds for an event in a prior state. */
  function Choice(
    program: Program, cel: Evaluator, a: Aggregate, r: RuntimeId, event: string): Selection
  {
    if r in a.runtimes && a.runtimes[r].active != [] && a.runtimes[r].machine in program.machines
    then SelectFrom(program.machines[a.runtimes[r].machine],
                    GuardsFor(program, cel, a.runtimes[r], event), LeafOf(a.runtimes[r]), event)
    else Unhandled
  }

  /** What a dispatch may answer, given what the search found. */
  predicate Decided(choice: Selection, notice: bool, outcome: Outcome) {
    match choice
    case Defers => outcome == Unchanged(Deferred)
    case Unhandled =>
      if notice then outcome.FaultedStep? && outcome.code == ContainedRuntimeFault else outcome == Unchanged(NotHandled)
    case GuardRaises => outcome.FaultedStep? && outcome.code == GuardFault
    case Selected(_, _) => outcome.Stepped? || outcome.FaultedStep? || outcome.Crash?
  }

  /** A handled event ended as foreseen. */
  ghost predicate SteppedAs(outcome: Outcome, next: Aggregate, r: RuntimeId, ending: Ending) {
    match ending
    case RestsAt(leaf) =>
      && outcome.Stepped?
      && r in next.runtimes && next.runtimes[r].status.Running? && next.runtimes[r].active == Chain(leaf)
    case Completes => outcome.Stepped? && Finished(next.runtimes, r)
    case Faults(code) => outcome.FaultedStep? && outcome.code == code
    case Crashes => outcome.Crash?
  }

  /** Taking the chosen transition faulted. */
  ghost predicate FaultedBy(
    program: Program, cel: Evaluator, a: Aggregate, r: RuntimeId, event: string, choice: Selection, code: FaultCode)
  {
    && choice.Selected? && r in a.runtimes && a.runtimes[r].machine in program.machines
    && var ts := Handlers(program.machines[a.runtimes[r].machine], choice.source, event);
       && choice.index < |ts|
       && TakeFails(program, cel, World(a.runtimes, [], a.nextOutput, map[]), r, choice.source, ts[choice.index],
                    Handler(choice.source, event, choice.index), code)
  }

  /** Where taking the chosen transition ends in a program without actions, variables and
      components. */
  function Foreseen(
    program: Program, cel: Evaluator, a: Aggregate, r: RuntimeId, event: string, choice: Selection, stack: nat): Ending
  {
    if choice.Selected? && r in a.runtimes && a.runtimes[r].machine in program.machines
       && choice.index < |Handlers(program.machines[a.runtimes[r].machine], choice.source, event)|
    then
      var m := program.machines[a.runtimes[r].machine];
      QuietTake(m, cel, a.runtimes[r], choice.source, Handlers(m, choice.source, event)[choice.index], stack)
    else Crashes
  }

  /** The selected transition was taken, from the prior state to the next; external
      emissions took the next output numbers. */
  ghost predicate Advanced(
    program: Program, cel: Evaluator, a: Aggregate, b: Aggregate, emissions: seq<Emission>, r: RuntimeId, event: string,
    choice: Selection)
  {
    && Numbering(a.nextOutput, emissions) == Some(b.nextOutput)
    && exists log: map<RuntimeId, seq<Phase>> ::
         PerformedBy(program, cel, World(a.runtimes, [], a.nextOutput, map[]), World(b.runtimes, emissions, b.nextOutput, log),
                     r, event, choice)
  }

  /** How `process` ended says how the dispatch does. */
  lemma SteppedWith(
    flow: Flow, rs: Forest, r: RuntimeId, ending: Ending, outcome: Outcome, next: Aggregate)
    requires Ends(flow, rs, r, ending)
    requires flow.Done? ==> outcome.Stepped? && next.runtimes == rs
    requires flow.Raised? ==> outcome.FaultedStep? && outcome.code == flow.code
    requires flow.Aborted? ==> outcome.Crash?
    ensures SteppedAs(outcome, next, r, ending)
  {
  }

  /** What `process` is told to take is what the dispatch foresees. */
  lemma ForeseenTake(
    program: Program, cel: Evaluator, a: Aggregate, r: RuntimeId, event: string, choice: Selection, stack: nat)
    requires WellFormed(program, a) && r in a.runtimes && choice == Choice(program, cel, a, r, event) && choice.Selected?
    ensures a.runtimes[r].machine in program.machines
    ensures var ts := Handlers(program.machines[a.runtimes[r].machine], choice.source, event);
      && choice.index < |ts|
      && Foreseen(program, cel, a, r, event, choice, stack)
         == QuietTake(program.machines[a.runtimes[r].machine], cel, a.runtimes[r], choice.source, ts[choice.index], stack)
  {
    hide Ok, QuietTake, SelectFrom;
    MachineKnown(program, a.runtimes, r);
    SelectFromAbove(program.machines[a.runtimes[r].machine], GuardsFor(program, cel, a.runtimes[r], event),
                    LeafOf(a.runtimes[r]), event);
  }

  /** The part of `_dispatch` after the envelope was accepted. */
  method Deliver(
    program: Program, cel: Evaluator, prior: Aggregate, r: RuntimeId, event: string,
    stack: nat)
    returns (outcome: Outcome, next: Aggregate)
    requires Loaded(program) && WellFormed(program, prior) && r in prior.runtimes && prior.runtimes[r].status.Running?
    ensures !outcome.Rejected?
    ensures WellFormed(program, next) && Isolated(prior, next, r)
    ensures outcome.Unchanged? || outcome.Crash? ==> next == prior
    ensures Decided(Choice(program, cel, prior, r, event), FailureNotice(event), outcome)
    ensures outcome.Stepped? ==>
              && next.nextStep == prior.nextStep + 1
              && Advanced(program, cel, prior, next, outcome.emissions, r, event, Choice(program, cel, prior, r, event))
    ensures outcome.FaultedStep? ==>
              next == FaultedState(prior, r, outcome.code) && outcome.emissions == FaultEvents(r, outcome.code)
    ensures outcome.FaultedStep? ==> !Faultless(program) || FailureNotice(event)
    ensures outcome.FaultedStep? && Choice(program, cel, prior, r, event).Selected? ==>
              FaultedBy(program, cel, prior, r, event, Choice(program, cel, prior, r, event), outcome.code)
    ensures Quiet(program) && Choice(program, cel, prior, r, event).Selected? ==>
              SteppedAs(outcome, next, r, Foreseen(program, cel, prior, r, event, Choice(program, cel, prior, r, event), stack))
    ensures outcome.Crash? ==> !Contained(program)
  {
    hide Ok, Faultless, Quiet, Contained, Performed, SelectFrom, Numbering, OnlySubtreeDiffers, FaultedState, QuietTake,
      Foreseen, Ends, SteppedAs, TakeFails;
    next := prior;
    var execution := new Execution(program, cel, true, prior.runtimes, prior.nextOutput);
    ghost var w0 := execution.Now();
    ghost var choice := Choice(program, cel, prior, r, event);
    assert SettledAt(program, prior.runtimes, r);
    if choice.Selected? {
      ForeseenTake(program, cel, prior, r, event, choice, stack);
    }
    var flow, disposition := execution.Process(r, event, stack);
    if flow.Aborted? {
      SameIsolated(prior, r);
      outcome := Crash;
    } else if flow.Raised? {
      FaultedStateOk(program, prior, r, flow.code);
      outcome, next := FaultedStep(flow.code, FaultEvents(r, flow.code)), FaultedState(prior, r, flow.code);
    } else if disposition != Handled {
      SameIsolated(prior, r);
      outcome := Unchanged(disposition);
    } else {
      ghost var w1 := execution.Now();
      HandledAdvances(program, cel, prior, w1, prior, r, event, choice);
      var root := execution.runtimes[Root];
      next := Aggregate(root.status, root.fault, prior.nextStep + 1, execution.nextOutput, execution.runtimes);
      HandledAdvances(program, cel, prior, w1, next, r, event, choice);
      outcome := Outcome.Stepped(execution.emissions);
    }
    if Quiet(program) && choice.Selected? {
      ghost var ending := Foreseen(program, cel, prior, r, event, choice, stack);
      SteppedWith(flow, execution.runtimes, r, ending, outcome, next);
    }
  }

  lemma SameIsolated(a: Aggregate, r: RuntimeId)
    ensures Isolated(a, a, r)
  {
  }

  lemma HandledAdvances(
    program: Program, cel: Evaluator, a: Aggregate, w: World, b: Aggregate, r: RuntimeId, event: string,
    choice: Selection)
    requires WellFormed(program, a) && Ok(program, w.runtimes)
    requires PerformedBy(program, cel, World(a.runtimes, [], a.nextOutput, map[]), w, r, event, choice)
    ensures AllSettled(program, w.runtimes) && Root in w.runtimes
    ensures b.runtimes == w.runtimes && b.nextOutput == w.nextOutput ==>
              Isolated(a, b, r) && Advanced(program, cel, a, b, w.emissions, r, event, choice)
  {
    hide Ok, Performed, SelectFrom, Numbering;
    var w0 := World(a.runtimes, [], a.nextOutput, map[]);
    PerformedStarts(program, cel, w0, w, r, event, choice);
    SteppedOk(program, w0, w, r);
    assert w.emissions[0..] == w.emissions;
    assert w == World(w.runtimes, w.emissions, w.nextOutput, w.log);
  }

  /** `_dispatch`: at most one event, on a copy of the prior state. */
  method Dispatch(
    program: Program, cel: Evaluator, prior: Aggregate, r: RuntimeId, event: string,
    admissible: bool, stack: nat)
    returns (outcome: Outcome, next: Aggregate)
    requires Loaded(program) && WellFormed(program, prior)
    ensures WellFormed(program, next) && Isolated(prior, next, r)
    ensures outcome == Rejected(InvalidPriorState) <==> !PriorValid(program, prior)
    ensures outcome.Rejected? <==>
              !PriorValid(program, prior) || prior.status.Faulted? || !Eligible(prior.runtimes, r) || !admissible
    ensures outcome.Rejected? || outcome.Unchanged? || outcome.Crash? ==> next == prior
    ensures !outcome.Rejected? ==>
              Decided(Choice(program, cel, prior, r, event), FailureNotice(event), outcome)
    ensures outcome.Stepped? ==>
              && next.nextStep == prior.nextStep + 1
              && Advanced(program, cel, prior, next, outcome.emissions, r, event, Choice(program, cel, prior, r, event))
    ensures outcome.FaultedStep? ==>
              && r in prior.runtimes
              && next == FaultedState(prior, r, outcome.code)
              && outcome.emissions == FaultEvents(r, outcome.code)
              && (!Faultless(program) || FailureNotice(event))
    ensures outcome.FaultedStep? && Choice(program, cel, prior, r, event).Selected? ==>
              FaultedBy(program, cel, prior, r, event, Choice(program, cel, prior, r, event), outcome.code)
    ensures Quiet(program) && !outcome.Rejected? && Choice(program, cel, prior, r, event).Selected? ==>
              SteppedAs(outcome, next, r, Foreseen(program, cel, prior, r, event, Choice(program, cel, prior, r, event), stack))
    ensures outcome.Crash? ==> !Contained(program)
  {
    hide WellFormed, Faultless, Quiet, PriorValid, Advanced, FaultedState, Contained, Choice, Decided, OnlySubtreeDiffers,
      Foreseen, FaultedBy, SteppedAs;
    next := prior;
    SameIsolated(prior, r);
    if !PriorValid(program, prior) {
      return Rejected(InvalidPriorState), prior;
    }
    if prior.status.Faulted? {
      return Rejected(InvalidTarget), prior;
    }
    var execution := new Execution(program, cel, true, prior.runtimes, prior.nextOutput);
    var eligible := execution.CheckEligible(r);
    if !eligible {
      return Rejected(InvalidTarget), prior;
    }
    if !admissible {
      return Rejected(InvalidEvent), prior;
    }
    outcome, next := Deliver(program, cel, prior, r, event, stack);
  }

  // ---------------------------------------------------------------- runs

  datatype Delivery = Delivery(target: RuntimeId, event: string, admissible: bool)

  /** Creation and any sequence of dispatches. The result is well formed, an aggregate that
      holds a runtime with lost history stays as it is, and no output number is used twice. */
  method Run(
    program: Program, cel: Evaluator, machine: MachineId, bindings: Scope,
    deliveries: seq<Delivery>, stack: nat)
    returns (created: Created, state: Aggregate, emitted: seq<Emission>)
    requires Loaded(program)
    ensures created.Started? ==> WellFormed(program, state)
    ensures created.Started? ==> Numbering(0, emitted) == Some(state.nextOutput)
    ensures created.Started? && !PriorValid(program, created.state) ==> state == created.state
  {
    hide WellFormed, Numbering, PriorValid, Decided, Advanced, SteppedAs, Foreseen, Choice, CreatedAs, Faultless, Quiet,
      FaultedBy, InitFails, OnlySubtreeDiffers, Contained, Eligible, Loaded;
    created := Create(program, cel, machine, bindings, stack);
    state, emitted := Aggregate(Faulted, None, 0, 0, map[]), [];
    if !created.Started? {
      return;
    }
    state, emitted := created.state, created.emissions;
    var i := 0;
    while i < |deliveries|
      invariant 0 <= i <= |deliveries|
      invariant WellFormed(program, state) && Numbering(0, emitted) == Some(state.nextOutput)
      invariant !PriorValid(program, created.state) ==> state == created.state
    {
      var d := deliveries[i];
      var outcome, next := Dispatch(program, cel, state, d.target, d.event, d.admissible, stack);
      if outcome.Stepped? {
        AdvancedNumbers(program, cel, state, next, outcome.emissions, d.target, d.event,
                        Choice(program, cel, state, d.target, d.event));
        NumberingJoins(0, emitted, outcome.emissions);
        emitted := emitted + outcome.emissions;
      } else if outcome.FaultedStep? {
        FaultSilent(state.nextOutput, d.target, outcome.code);
        NumberingJoins(0, emitted, outcome.emissions);
        emitted := emitted + outcome.emissions;
      }
      state := next;
      i := i + 1;
    }
  }

  lemma FaultSilent(n: nat, r: RuntimeId, code: FaultCode)
    ensures Numbering(n, FaultEvents(r, code)) == Some(n)
  {
    if !r.Root? {
      SilentOne(n, FailureEvent(r, code));
    }
  }
}
