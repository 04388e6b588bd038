/** Programs that the loader accepts and the engine cannot run: one that it fails to create, and
    one whose creation faults and leaves an aggregate that it never accepts again. */
module EngineCounterexamples {
  import opened Options
  import opened Statechart
  import opened Runtimes
  import opened RuntimeSteps
  import opened EngineFrames
  import opened EngineActions
  import opened EngineTransitions
  import opened QuietPrograms
  import opened EngineDispatch

  const MACHINE: MachineId := "m"
  const GUARD: Expression := "ready"

  function To(path: Path): Transition {
    Transition(None, [], Some(Target(path, false)), false)
  }

  function When(guard: Expression, path: Path): Transition {
    Transition(Some(guard), [], Some(Target(path, false)), false)
  }

  function Leaf(): Node {
    Node(Simple, NoHistory, map[], [], [], None, map[], {}, [], [])
  }

  function Inner(history: History, initial: Path): Node {
    Node(Composite, history, map[], [], [], Some(To(initial)), map[], {}, [], [])
  }

  function Fork(yes: Path, no: Path): Node {
    Node(Choice, NoHistory, map[], [], [], None, map[], {}, [When(GUARD, yes), To(no)], [])
  }

  function Alone(m: Machine): Program {
    Program(map[MACHINE := m], map[MACHINE := 0])
  }

  predicate Points(m: Machine, t: Transition) {
    t.actions == [] && t.target.Some? && t.target.value.path in m && t.target.value.path != []
  }

  /** What the loader wants of a state in a machine without actions, variables, handlers and
      components. */
  predicate PlainAt(m: Machine, p: Path)
    requires p in m
  {
    var n := m[p];
    && n.entry == [] && n.exit == [] && n.handlers == map[] && n.components == [] && n.variables == map[]
    && (if p == [] then !n.kind.Choice? else Parent(p) in m && m[Parent(p)].kind.Composite?)
    && (n.history != NoHistory ==> n.kind.Composite?)
    && (n.kind.Composite? <==> n.initial.Some?)
    && (n.initial.Some? ==>
          Points(m, n.initial.value) && !n.initial.value.target.value.history && p < n.initial.value.target.value.path)
    && (forall i :: 0 <= i < |n.branches| ==> Points(m, n.branches[i]))
  }

  lemma PlainNode(m: Machine, p: Path)
    requires p in m && PlainAt(m, p)
    ensures NodeOk(Alone(m), MACHINE, p) && QuietNode(m[p]) && m[p].components == []
  {
    assert Alone(m).machines[MACHINE] == m;
  }

  lemma PlainUnique(m: Machine)
    requires forall p :: p in m ==> m[p].components == []
    ensures UniqueComponents(m)
  {
  }

  lemma PlainLoaded(m: Machine)
    requires [] in m && forall p {:trigger PlainAt(m, p)} :: p in m ==> PlainAt(m, p)
    ensures Loaded(Alone(m)) && Quiet(Alone(m))
  {
    hide NodeOk, QuietNode, UniqueComponents, PlainAt, Parent;
    var program := Alone(m);
    forall p | p in m ensures NodeOk(program, MACHINE, p) && QuietNode(m[p]) && m[p].components == [] {
      assert PlainAt(m, p);
      PlainNode(m, p);
    }
    PlainUnique(m);
    assert MachineOk(program, MACHINE);
    forall id, p | id in program.machines && p in program.machines[id] ensures QuietNode(program.machines[id][p]) {
      assert program.machines[id] == m;
    }
  }

  predicate Ready(cel: Evaluator) {
    cel(GUARD, map[], Plain) == Some(Truth(true))
  }

  lemma ForkTakes(cel: Evaluator, yes: Path, no: Path)
    requires Ready(cel)
    ensures FirstBranch(cel, map[], Fork(yes, no).branches, 0) == Chosen(0)
  {
  }

  // ---------------------------------------------------------------- astray

  /** The initial transition of the composite `a` leads to a choice inside it, whose first
      branch leads to `out`. */
  function StrayMachine(out: Path): Machine {
    map[[] := Inner(NoHistory, ["a"]), ["a"] := Inner(NoHistory, ["a", "c"]), ["a", "c"] := Fork(out, ["b"]),
        ["b"] := Leaf()]
  }

  lemma StrayNodes(out: Path)
    ensures var m := StrayMachine(out);
      && m.Keys == {[], ["a"], ["a", "c"], ["b"]}
      && m[[]] == Inner(NoHistory, ["a"]) && m[["a"]] == Inner(NoHistory, ["a", "c"])
      && m[["a", "c"]] == Fork(out, ["b"]) && m[["b"]] == Leaf()
  {
    assert ["a"][0] != ["b"][0];
  }

  lemma StrayLoaded(out: Path)
    requires out == ["a"] || out == ["b"]
    ensures Loaded(Alone(StrayMachine(out))) && Quiet(Alone(StrayMachine(out)))
  {
    StrayNodes(out);
    hide StrayMachine, Loaded, Quiet;
    var m := StrayMachine(out);
    assert Parent(["a"]) == [] && Parent(["b"]) == [] && Parent(["a", "c"]) == ["a"];
    forall p | p in m ensures PlainAt(m, p) {
      assert p == [] || p == ["a"] || p == ["a", "c"] || p == ["b"];
    }
    PlainLoaded(m);
  }

  /** Descending into `a` never ends well. */
  lemma {:induction false} StrayDescends(cel: Evaluator, out: Path, h: Records, stack: nat)
    requires Ready(cel) && (out == ["a"] || out == ["b"]) && h == map[]
    ensures QuietDescend(StrayMachine(out), cel, h, ["a"], false, stack) == Crashes
  {
    var m := StrayMachine(out);
    StrayNodes(out);
    hide StrayMachine;
    ForkTakes(cel, out, ["b"]);
    assert QuietResolve(m, cel, Target(out, false), {["a", "c"]}) == Finding.Leads(Target(out, false));
    assert QuietResolve(m, cel, Target(["a", "c"], false), {}) == Finding.Leads(Target(out, false));
    if out == ["a"] && stack > 0 {
      StrayDescends(cel, out, h, stack - 1);
    }
  }

  lemma StrayEnters(cel: Evaluator, out: Path, h: Records, stack: nat)
    requires Ready(cel) && (out == ["a"] || out == ["b"]) && h == map[]
    ensures QuietDescend(StrayMachine(out), cel, h, [], false, stack) == Crashes
  {
    var m := StrayMachine(out);
    StrayNodes(out);
    StrayDescends(cel, out, h, stack);
    hide StrayMachine;
    QuietFound(m, cel, Target(["a"], false), {});
    QuietPathCases(m, cel, h, [], ["a"], false, stack);
  }

  lemma StrayCrashes(cel: Evaluator, out: Path, stack: nat)
    requires Ready(cel) && (out == ["a"] || out == ["b"])
    ensures QuietRoot(StrayMachine(out), cel, Unrecorded(StrayMachine(out)), stack) == Crashes
  {
    var m := StrayMachine(out);
    StrayNodes(out);
    hide StrayMachine, QuietDescend;
    var h := Unrecorded(m);
    assert h == map[];
    StrayEnters(cel, out, h, stack);
  }

  lemma StrayBindings(out: Path)
    ensures CreationBindings(StrayMachine(out), map[])
  {
    StrayNodes(out);
  }

  /** Whether the choice leads out of its composite or back to it, and however much recursion
      is allowed, the program is loaded and its creation crashes. */
  method CreateStray(cel: Evaluator, out: Path, stack: nat) returns (created: Created)
    requires Ready(cel) && (out == ["a"] || out == ["b"])
    ensures Loaded(Alone(StrayMachine(out)))
    ensures created.Crashed?
  {
    StrayLoaded(out);
    StrayCrashes(cel, out, stack);
    StrayBindings(out);
    hide Loaded, Quiet, QuietRoot, PriorValid, WellFormed, StrayMachine, Faultless, Contained, CreationBindings;
    created := Create(Alone(StrayMachine(out)), cel, MACHINE, map[], stack);
  }

  // ---------------------------------------------------------------- lost history

  /** The initial choice of the root leads back to itself; another state keeps history. */
  function LoopMachine(): Machine {
    map[[] := Inner(NoHistory, ["c"]), ["c"] := Fork(["c"], ["a"]), ["a"] := Inner(Deep, ["a", "s"]),
        ["a", "s"] := Leaf()]
  }

  lemma LoopNodes()
    ensures var m := LoopMachine();
      && m.Keys == {[], ["c"], ["a"], ["a", "s"]}
      && m[[]] == Inner(NoHistory, ["c"]) && m[["c"]] == Fork(["c"], ["a"])
      && m[["a"]] == Inner(Deep, ["a", "s"]) && m[["a", "s"]] == Leaf()
  {
    assert ["a"][0] != ["c"][0];
  }

  lemma LoopLoaded()
    ensures Loaded(Alone(LoopMachine())) && Quiet(Alone(LoopMachine()))
    ensures ["a"] in HistoryStates(LoopMachine())
  {
    LoopNodes();
    hide LoopMachine, Loaded, Quiet;
    var m := LoopMachine();
    assert Parent(["a"]) == [] && Parent(["c"]) == [] && Parent(["a", "s"]) == ["a"];
    forall p | p in m ensures PlainAt(m, p) {
      assert p == [] || p == ["c"] || p == ["a"] || p == ["a", "s"];
    }
    PlainLoaded(m);
  }

  lemma LoopFaults(cel: Evaluator, h: Records, stack: nat)
    requires Ready(cel)
    ensures QuietRoot(LoopMachine(), cel, h, stack) == Faults(InvariantFault)
  {
    var m := LoopMachine();
    LoopNodes();
    hide LoopMachine;
    ForkTakes(cel, ["c"], ["a"]);
    assert QuietResolve(m, cel, Target(["c"], false), {["c"]}) == Sticks(InvariantFault);
    assert QuietResolve(m, cel, Target(["c"], false), {}) == Sticks(InvariantFault);
  }

  lemma LoopBindings()
    ensures CreationBindings(LoopMachine(), map[])
  {
    LoopNodes();
  }

  /** Creation faults, and whatever is dispatched afterwards is refused because of the state
      that the engine itself has made. */
  method CreateLost(cel: Evaluator, r: RuntimeId, event: string, admissible: bool, stack: nat)
    returns (created: Created, outcome: Outcome)
    requires Ready(cel)
    ensures Loaded(Alone(LoopMachine()))
    ensures created.Started? && created.state.fault == Some(InvariantFault)
    ensures outcome == Rejected(InvalidPriorState)
  {
    var program := Alone(LoopMachine());
    LoopLoaded();
    LoopBindings();
    LoopFaults(cel, Unrecorded(LoopMachine()), stack);
    hide Loaded, Quiet, QuietRoot, PriorValid, WellFormed, LoopMachine, Foreseen, Decided, Advanced, Faultless,
      Contained, OnlySubtreeDiffers, Eligible, CreationBindings;
    created := Create(program, cel, MACHINE, map[], stack);
    var next;
    outcome, next := Dispatch(program, cel, created.state, r, event, admissible, stack);
  }
}
