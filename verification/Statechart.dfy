/** The resolved state tree of `model.py` and the load-time facts of `validator.py` and the
    bundle schema. A state is named by its path from the root, so the root is `[]`, the
    parent drops the last name and an ancestor is a prefix. An inline component root is a
    machine of its own. */
module Statechart {
  import opened Options

  type Name = string
  type Path = seq<string>
  type MachineId = string
  type Expression = string

  /** A runtime identity is a hash over its owner, the declaration that made it and a
      sequence number; here it is that tuple. */
  datatype RuntimeId =
    | Root
    | Component(owner: RuntimeId, slot: Slot, sequence: nat)
    | Spawned(owner: RuntimeId, action: ActionSite, sequence: nat)

  datatype Slot = Slot(machine: MachineId, state: Path, index: nat)

  /** A list of actions in a definition, and one action of it. */
  datatype Site =
    | Entry(state: Path)
    | Exit(state: Path)
    | Handler(state: Path, event: string, index: nat)
    | Initial(state: Path)
    | Branch(state: Path, index: nat)

  datatype ActionSite = ActionSite(machine: MachineId, site: Site, index: nat)

  datatype Value = Null | Truth(flag: bool) | Scalar(number: int) | Reference(instance: RuntimeId)

  type Scope = map<Name, Value>

  datatype Variable = Variable(init: Option<Value>, reference: bool, bound: bool)

  datatype Kind = Simple | Composite | Parallel | Final | Choice

  datatype History = NoHistory | Shallow | Deep

  datatype Recipient = ToSelf | ToOwner | ToComponent(id: string) | ToInstance(reference: Expression) | ToExternal

  datatype Action =
    | Assign(name: Name, value: Expression)
    | Send(event: string, payload: Expression, recipients: seq<Recipient>)
    | Spawn(machine: MachineId, bindings: map<Name, Expression>, bindTo: Option<Name>)
    | Cancel(reference: Expression)
    | Stop

  datatype Target = Target(path: Path, history: bool)

  datatype Transition = Transition(
    guard: Option<Expression>, actions: seq<Action>, target: Option<Target>, local: bool)

  datatype Placement = Placement(id: string, machine: MachineId, bindings: map<Name, Expression>)

  datatype Node = Node(
    kind: Kind, history: History, variables: map<Name, Variable>, entry: seq<Action>, exit: seq<Action>,
    initial: Option<Transition>, handlers: map<string, seq<Transition>>, deferred: set<string>,
    branches: seq<Transition>, components: seq<Placement>)

  type Machine = map<Path, Node>

  /** `rank` is the order in which the initialization-cycle check leaves the machines. */
  datatype Program = Program(machines: map<MachineId, Machine>, rank: map<MachineId, nat>)

  // ---------------------------------------------------------------- paths

  function Parent(p: Path): Path
    requires p != []
  {
    p[..|p| - 1]
  }

  /** `is_ancestor_of`, not strict. */
  predicate IsAncestor(a: Path, p: Path) {
    a <= p
  }

  /** The active list of a runtime whose innermost state is `leaf`. */
  function Chain(leaf: Path): (chain: seq<Path>)
    ensures |chain| == |leaf| + 1
    ensures chain[0] == [] && chain[|leaf|] == leaf
  {
    seq(|leaf| + 1, i requires 0 <= i <= |leaf| => leaf[..i])
  }

  lemma ChainMember(p: Path, leaf: Path)
    ensures p in Chain(leaf) <==> p <= leaf
  {
    if p <= leaf {
      assert Chain(leaf)[|p|] == leaf[..|p|] == p;
    }
  }

  lemma ChainGrows(p: Path)
    requires p != []
    ensures Chain(p) == Chain(Parent(p)) + [p]
  {
    forall i | 0 <= i < |p| ensures Chain(p)[i] == Chain(Parent(p))[i] {
      assert p[..i] == Parent(p)[..i];
    }
  }

  lemma ChainOfPrefix(a: Path, leaf: Path)
    requires a <= leaf
    ensures Chain(leaf)[..|a| + 1] == Chain(a)
  {
    forall i | 0 <= i <= |a| ensures Chain(leaf)[i] == Chain(a)[i] {
      assert leaf[..i] == a[..i];
    }
  }

  lemma PrefixOfParent(a: Path, p: Path)
    requires p != []
    ensures a <= Parent(p) <==> a <= p && a != p
  {
    if a <= p && a != p {
      assert a == p[..|a|] == Parent(p)[..|a|];
    }
    if a <= Parent(p) {
      assert a == Parent(p)[..|a|] == p[..|a|];
    }
  }

  // ---------------------------------------------------------------- load-time facts

  predicate Resolves(m: Machine, t: Transition) {
    t.target.Some? ==> t.target.value.path in m && t.target.value.path != []
  }

  predicate Matches(v: Value, d: Variable) {
    if d.reference then v.Null? || v.Reference? else !v.Null? && !v.Reference?
  }

  /** Bindings name only bound root variables of the machine they start. */
  predicate Launches(program: Program, child: MachineId, bindings: map<Name, Expression>) {
    && child in program.machines
    && [] in program.machines[child]
    && forall x :: x in bindings ==>
         x in program.machines[child][[]].variables && program.machines[child][[]].variables[x].bound
  }

  predicate Starts(program: Program, id: MachineId, actions: seq<Action>) {
    forall i :: 0 <= i < |actions| && actions[i].Spawn? ==>
      Below(program, id, actions[i].machine) && Launches(program, actions[i].machine, actions[i].bindings)
  }

  predicate Below(program: Program, id: MachineId, child: MachineId) {
    child in program.machines && child in program.rank && id in program.rank && program.rank[child] < program.rank[id]
  }

  predicate Known(program: Program, actions: seq<Action>) {
    forall i :: 0 <= i < |actions| && actions[i].Spawn? ==> Launches(program, actions[i].machine, actions[i].bindings)
  }

  predicate NodeOk(program: Program, id: MachineId, p: Path)
    requires id in program.machines && p in program.machines[id]
  {
    var m := program.machines[id];
    var n := m[p];
    && (p == [] ==> !n.kind.Choice?)
    && (p != [] ==> Parent(p) in m && m[Parent(p)].kind.Composite?)
    && (n.history != NoHistory ==> n.kind.Composite?)
    && Starts(program, id, n.entry)
    && (forall i :: 0 <= i < |n.exit| ==> !n.exit[i].Spawn? && !n.exit[i].Stop?)
    && (n.kind.Composite? ==> InitialOk(program, id, p))
    && (n.kind.Choice? ==> ChoiceOk(program, id, n))
    && (forall e, i :: e in n.handlers && 0 <= i < |n.handlers[e]| ==> HandlerOk(program, m, p, n.handlers[e][i]))
    && (!n.kind.Parallel? ==> n.components == [])
    && (forall i :: 0 <= i < |n.components| ==>
          && Below(program, id, n.components[i].machine)
          && Launches(program, n.components[i].machine, n.components[i].bindings))
    && (forall x :: x in n.variables && n.variables[x].init.Some? ==>
          Matches(n.variables[x].init.value, n.variables[x]))
  }

  predicate InitialOk(program: Program, id: MachineId, p: Path)
    requires id in program.machines && p in program.machines[id]
  {
    var t := program.machines[id][p].initial;
    && t.Some?
    && t.value.target.Some?
    && Resolves(program.machines[id], t.value)
    && !t.value.target.value.history
    && p < t.value.target.value.path
    && Starts(program, id, t.value.actions)
  }

  predicate ChoiceOk(program: Program, id: MachineId, n: Node)
    requires id in program.machines
  {
    forall i :: 0 <= i < |n.branches| ==>
      && n.branches[i].target.Some?
      && Resolves(program.machines[id], n.branches[i])
      && Starts(program, id, n.branches[i].actions)
  }

  predicate HandlerOk(program: Program, m: Machine, p: Path, t: Transition) {
    && Resolves(m, t)
    && Known(program, t.actions)
  }

  /** Component ids are unique in a machine. */
  predicate UniqueComponents(m: Machine) {
    forall p, q, i, j ::
      (p in m && q in m && 0 <= i < |m[p].components| && 0 <= j < |m[q].components|
      && m[p].components[i].id == m[q].components[j].id)
      ==> p == q && i == j
  }

  predicate MachineOk(program: Program, id: MachineId)
    requires id in program.machines
  {
    var m := program.machines[id];
    && [] in m
    && id in program.rank
    && UniqueComponents(m)
    && (forall p {:trigger NodeOk(program, id, p)} :: p in m ==> NodeOk(program, id, p))
  }

  /** What the loader has checked of every machine of a bundle. */
  predicate Loaded(program: Program) {
    forall id {:trigger MachineOk(program, id)} :: id in program.machines ==> MachineOk(program, id)
  }

  lemma LoadedNode(program: Program, id: MachineId, p: Path)
    requires Loaded(program) && id in program.machines && p in program.machines[id]
    ensures MachineOk(program, id) && NodeOk(program, id, p)
  {
    assert MachineOk(program, id);
  }

  /** Every ancestor of a state is a state, and all strict ancestors are composite. */
  lemma {:induction false} AncestorsComposite(program: Program, id: MachineId, a: Path, p: Path)
    requires Loaded(program) && id in program.machines && p in program.machines[id] && a <= p
    ensures a in program.machines[id]
    ensures a != p ==> program.machines[id][a].kind.Composite?
  {
    if a != p {
      LoadedNode(program, id, p);
      PrefixOfParent(a, p);
      AncestorsComposite(program, id, a, Parent(p));
    }
  }

  // ---------------------------------------------------------------- choices

  /** The states a target can resolve to through choices, whatever the guards say; a choice
      met twice resolves to nothing. */
  function Outcomes(m: Machine, at: Path, seen: set<Path>): set<Path>
    decreases m.Keys - seen
  {
    if at !in m then {}
    else if !m[at].kind.Choice? then {at}
    else if at in seen then {}
    else
      assert at in m.Keys - seen;
      set i, p | 0 <= i < |m[at].branches| && m[at].branches[i].target.Some?
                 && p in Outcomes(m, m[at].branches[i].target.value.path, seen + {at}) :: p
  }

  /** No initial transition leads, through choices, out of its own composite or back to it.
      The loader checks this only of the transition's first target. */
  predicate Contained(program: Program) {
    forall id, p, t ::
      id in program.machines && p in program.machines[id]
      && program.machines[id][p].initial.Some? && program.machines[id][p].initial.value.target.Some?
      && t in Outcomes(program.machines[id], program.machines[id][p].initial.value.target.value.path, {})
      ==> p < t
  }

  /** A state without actions or bindings whose variables all have defaults: running its
      actions and starting it can neither fault nor stop. */
  predicate InertNode(n: Node) {
    && n.entry == [] && n.exit == []
    && (n.initial.Some? ==> n.initial.value.actions == [])
    && (n.kind.Choice? ==> forall i :: 0 <= i < |n.branches| ==> n.branches[i].actions == [])
    && (forall e, i :: e in n.handlers && 0 <= i < |n.handlers[e]| ==> n.handlers[e][i].actions == [])
    && (forall i :: 0 <= i < |n.components| ==> n.components[i].bindings == map[])
    && (forall x :: x in n.variables && !n.variables[x].reference ==> n.variables[x].init.Some?)
  }

  predicate Inert(program: Program) {
    forall id, p {:trigger program.machines[id][p]} ::
      id in program.machines && p in program.machines[id] ==> InertNode(program.machines[id][p])
  }

  /** Nor has it guards or choices: nothing about it can fault or stop. */
  predicate FaultlessNode(n: Node) {
    && InertNode(n)
    && !n.kind.Choice?
    && (forall e, i :: e in n.handlers && 0 <= i < |n.handlers[e]| ==> n.handlers[e][i].guard.None?)
  }

  predicate Faultless(program: Program) {
    forall id, p {:trigger program.machines[id][p]} ::
      id in program.machines && p in program.machines[id] ==> FaultlessNode(program.machines[id][p])
  }

  /** A state without actions, variables or components: only its guards depend on a run. */
  predicate QuietNode(n: Node) {
    InertNode(n) && n.variables == map[] && n.components == []
  }

  predicate Quiet(program: Program) {
    forall id, p {:trigger program.machines[id][p]} ::
      id in program.machines && p in program.machines[id] ==> QuietNode(program.machines[id][p])
  }

  lemma FaultlessAt(program: Program, id: MachineId, p: Path)
    requires id in program.machines && p in program.machines[id]
    ensures Faultless(program) ==> FaultlessNode(program.machines[id][p])
    ensures Inert(program) ==> InertNode(program.machines[id][p])
    ensures Quiet(program) ==> QuietNode(program.machines[id][p])
  {
  }

  lemma QuietIsInert(program: Program)
    ensures Quiet(program) || Faultless(program) ==> Inert(program)
  {
  }

  lemma ChoiceFaults(program: Program, id: MachineId, p: Path)
    requires id in program.machines && p in program.machines[id] && program.machines[id][p].kind.Choice?
    ensures !Faultless(program)
  {
    if Faultless(program) {
      FaultlessAt(program, id, p);
    }
  }

  // ---------------------------------------------------------------- boundary

  function CommonAncestor(a: Path, b: Path): (c: Path)
    ensures c <= a && c <= b
  {
    if a == [] || b == [] || a[0] != b[0] then [] else [a[0]] + CommonAncestor(a[1..], b[1..])
  }

  lemma {:induction false} CommonAncestorLowest(a: Path, b: Path, c: Path)
    requires c <= a && c <= b
    ensures c <= CommonAncestor(a, b)
  {
    if c != [] {
      assert c[0] == a[0] == b[0];
      assert c[1..] <= a[1..] && c[1..] <= b[1..];
      CommonAncestorLowest(a[1..], b[1..], c[1..]);
      assert c == [c[0]] + c[1..];
    }
  }

  /** The innermost state a transition leaves active. */
  function Boundary(source: Path, target: Path, local: bool): Path
    requires target != []
  {
    if source == target then Parent(source)
    else if source <= target then (if local || source == [] then source else Parent(source))
    else if target <= source then target
    else CommonAncestor(source, target)
  }

  /** The boundary is the innermost common ancestor of source and target outside the source,
      except that a local transition, or one of the root, into the source stays inside it. */
  lemma BoundaryInnermost(source: Path, target: Path, local: bool)
    requires target != []
    ensures var b := Boundary(source, target, local);
      && b <= source && b <= target
      && (b == source <==> source <= target && source != target && (local || source == []))
      && (target <= source && target != source ==> b == target)
      && forall a {:trigger IsAncestor(a, b)} ::
           IsAncestor(a, source) && IsAncestor(a, target) && a != source ==> IsAncestor(a, b)
  {
    var b := Boundary(source, target, local);
    if source != [] {
      PrefixOfParent(Parent(source), source);
    }
    forall a | IsAncestor(a, source) && IsAncestor(a, target) && a != source ensures IsAncestor(a, b) {
      CommonAncestorLowest(source, target, a);
      PrefixOfParent(a, source);
    }
  }

  /** `_boundary` as the source computes it, walking up from the transition's source. */
  method FindBoundary(source: Path, target: Path, local: bool) returns (boundary: Path)
    requires target != []
    ensures boundary == Boundary(source, target, local)
  {
    if source == target {
      return Parent(source);
    }
    if source <= target {
      return if local || source == [] then source else Parent(source);
    }
    if target <= source {
      return target;
    }
    boundary := source;
    CommonAncestorLowest(source, target, CommonAncestor(source, target));
    while !(boundary <= target)
      invariant boundary <= source
      invariant CommonAncestor(source, target) <= boundary
      decreases |boundary|
    {
      PrefixOfParent(CommonAncestor(source, target), boundary);
      PrefixOfParent(Parent(boundary), boundary);
      boundary := Parent(boundary);
    }
    CommonAncestorLowest(source, target, boundary);
  }
}
