/** What entering, leaving, completing and faulting do to one runtime record, and the
    relations between worlds that the engine's methods promise. */
module RuntimeSteps {
  import opened Options
  import opened Statechart
  import opened Runtimes

  // ---------------------------------------------------------------- variables

  /** `visible_variables`: inner declarations shadow outer ones. */
  function Visible(rt: Runtime, p: Path): Scope {
    var own := if p in rt.scopes then rt.scopes[p] else map[];
    if p == [] then own else Visible(rt, Parent(p)) + own
  }

  /** `variable_slot`: the innermost active declaration of `x` at or above `p`. */
  function VariableSlot(m: Machine, rt: Runtime, p: Path, x: Name): (slot: Option<Path>)
    ensures slot.Some? ==>
              slot.value <= p && slot.value in m && x in m[slot.value].variables && slot.value in rt.scopes
  {
    if p in m && x in m[p].variables && p in rt.scopes then Some(p)
    else if p == [] then None
    else VariableSlot(m, rt, Parent(p), x)
  }

  lemma VariableSlotSame(m: Machine, x: Runtime, y: Runtime, p: Path, name: Name)
    requires x.scopes == y.scopes
    ensures VariableSlot(m, x, p, name) == VariableSlot(m, y, p, name)
  {
    if p != [] {
      VariableSlotSame(m, x, y, Parent(p), name);
    }
  }

  predicate BindingsOk(m: Machine, bindings: Scope) {
    && [] in m
    && forall x :: x in bindings ==> x in m[[]].variables && Matches(bindings[x], m[[]].variables[x])
  }

  /** A null binding counts as none. */
  function InitialValue(d: Variable, x: Name, bindings: Scope): Value {
    if d.bound && x in bindings && !bindings[x].Null? then bindings[x]
    else if d.init.Some? then d.init.value
    else Null
  }

  /** `initialize_variables`: a variable that is not a reference must get a value. */
  function InitialScope(node: Node, bindings: Scope): Option<Scope> {
    if exists x :: x in node.variables && !node.variables[x].reference && InitialValue(node.variables[x], x, bindings).Null?
    then None
    else Some(map x | x in node.variables :: InitialValue(node.variables[x], x, bindings))
  }

  /** With a default for every variable, initialization never lacks a value. */
  lemma InitialScopeGiven(program: Program, id: MachineId, p: Path, bindings: Scope)
    requires id in program.machines && p in program.machines[id] && NodeOk(program, id, p)
    requires p == [] ==> BindingsOk(program.machines[id], bindings)
    requires p != [] ==> bindings == map[]
    requires InertNode(program.machines[id][p])
    ensures InitialScope(program.machines[id][p], bindings).Some?
  {
  }

  lemma InitialScopeOk(program: Program, id: MachineId, p: Path, bindings: Scope)
    requires id in program.machines && p in program.machines[id] && NodeOk(program, id, p)
    requires p == [] ==> BindingsOk(program.machines[id], bindings)
    requires p != [] ==> bindings == map[]
    requires InitialScope(program.machines[id][p], bindings).Some?
    ensures ScopeOk(program.machines[id], p, InitialScope(program.machines[id][p], bindings).value)
  {
  }

  // ---------------------------------------------------------------- entering and leaving

  function Next(counters: map<Path, nat>, p: Path): nat {
    if p in counters then counters[p] else 0
  }

  function EnterRecord(x: Runtime, p: Path, scope: Scope): Runtime {
    x.(counters := x.counters[p := Next(x.counters, p) + 1],
       activations := x.activations[p := Next(x.counters, p)],
       active := x.active + [p],
       scopes := x.scopes[p := scope])
  }

  /** `p` is what can be entered next: the root of an empty runtime, or a child of its leaf. */
  predicate Enterable(x: Runtime, p: Path) {
    if x.active == [] then p == [] else p != [] && Parent(p) == LeafOf(x)
  }

  lemma EnterActive(x: Runtime, p: Path, scope: Scope)
    requires Anchored(x.active) && Enterable(x, p)
    ensures var y := EnterRecord(x, p, scope);
      y.active == Chain(p) && (set q | q in y.active) == (set q | q in x.active) + {p}
  {
    if x.active != [] {
      ChainGrows(p);
    }
    assert EnterRecord(x, p, scope).active == Chain(p);
  }

  lemma EnterFields(x: Runtime, p: Path, scope: Scope)
    ensures var y := EnterRecord(x, p, scope);
      && y.activations == x.activations[p := Next(x.counters, p)]
      && y.counters == x.counters[p := Next(x.counters, p) + 1]
      && y.nextComponent == x.nextComponent && Links(x, y) && y.components == x.components && y.status == x.status
  {
  }

  lemma EnterCounters(m: Machine, x: Runtime, p: Path, scope: Scope)
    requires CountersOk(m, x) && p in m && Anchored(x.active) && Enterable(x, p)
    ensures CountersOk(m, EnterRecord(x, p, scope))
  {
    EnterActive(x, p, scope);
    EnterFields(x, p, scope);
    hide Chain, EnterRecord;
  }

  lemma EnterShape(m: Machine, x: Runtime, p: Path, scope: Scope)
    requires Shape(m, x) && x.status.Running? && Enterable(x, p) && p in m && !m[p].kind.Choice? && ScopeOk(m, p, scope)
    ensures Shape(m, EnterRecord(x, p, scope))
  {
    hide ScopeOk, HistoryOk, Chain, CountersOk;
    var y := EnterRecord(x, p, scope);
    EnterActive(x, p, scope);
    EnterCounters(m, x, p, scope);
    forall q | q in y.scopes ensures ScopeOk(m, q, y.scopes[q]) {
      if q != p {
        assert ScopeOk(m, q, x.scopes[q]);
      }
    }
  }

  lemma NotYetActive(m: Machine, x: Runtime, p: Path)
    requires Shape(m, x) && Enterable(x, p)
    ensures p !in x.activations
  {
    if x.active != [] {
      ChainMember(p, LeafOf(x));
    }
  }

  lemma EnterChild(program: Program, x: Runtime, p: Path, scope: Scope, c: RuntimeId, rt: Runtime)
    requires ChildOk(program, x, c, rt) && p !in x.activations && !c.Root?
    ensures ChildOk(program, EnterRecord(x, p, scope), c, rt)
    ensures c.Component? ==> c.slot.state != p
  {
  }

  lemma EnterOk(program: Program, rs: Forest, r: RuntimeId, p: Path, scope: Scope)
    requires Ok(program, rs) && r in rs && rs[r].status.Running? && Enterable(rs[r], p)
    requires rs[r].machine in program.machines && ScopeOk(program.machines[rs[r].machine], p, scope)
    requires !program.machines[rs[r].machine][p].kind.Choice?
    ensures Ok(program, rs[r := EnterRecord(rs[r], p, scope)])
    ensures forall c :: c in Children(rs, r) && c.Component? ==> c.slot.state != p
  {
    hide Shape, ChildOk, EnterRecord;
    assert RuntimeOk(program, rs, r);
    var y := EnterRecord(rs[r], p, scope);
    EnterFields(rs[r], p, scope);
    EnterShape(program.machines[y.machine], rs[r], p, scope);
    NotYetActive(program.machines[y.machine], rs[r], p);
    forall c | c in Children(rs, r) ensures ChildOk(program, y, c, rs[c]) && (c.Component? ==> c.slot.state != p) {
      assert RuntimeOk(program, rs, c);
      EnterChild(program, rs[r], p, scope, c, rs[c]);
    }
    ReplaceOk(program, rs, r, y);
  }

  function ExitRecord(x: Runtime): Runtime
    requires x.active != []
  {
    x.(active := x.active[..|x.active| - 1],
       activations := x.activations - {LeafOf(x)},
       scopes := x.scopes - {LeafOf(x)})
  }

  /** The children that leaving `p` cleans up. */
  predicate BoundTo(rs: Forest, c: RuntimeId, p: Path)
    requires c in rs
  {
    || (c.Component? && c.slot.state == p)
    || (c.Spawned? && rs[c].holder.Some? && rs[c].holder.value.state == p)
  }

  lemma ExitActive(x: Runtime)
    requires Anchored(x.active) && x.active != []
    ensures |x.active| > 1 ==> LeafOf(x) != [] && ExitRecord(x).active == Chain(Parent(LeafOf(x)))
    ensures Anchored(ExitRecord(x).active)
    ensures (set q | q in ExitRecord(x).active) == (set q | q in x.active) - {LeafOf(x)}
  {
    var leaf := LeafOf(x);
    var y := ExitRecord(x);
    assert x.active == y.active + [leaf];
    if leaf != [] {
      ChainGrows(leaf);
      assert y.active == Chain(Parent(leaf));
      ChainMember(leaf, Parent(leaf));
    }
    assert leaf !in y.active;
  }

  lemma ExitFields(x: Runtime)
    requires x.active != []
    ensures var y := ExitRecord(x);
      y.activations == x.activations - {LeafOf(x)} && y.counters == x.counters && y.nextComponent == x.nextComponent
  {
  }

  lemma ExitCounters(m: Machine, x: Runtime)
    requires CountersOk(m, x) && Anchored(x.active) && x.active != []
    ensures CountersOk(m, ExitRecord(x))
  {
    ExitActive(x);
    ExitFields(x);
    hide Chain, ExitRecord;
  }

  lemma ExitShape(m: Machine, x: Runtime)
    requires Shape(m, x) && x.active != [] && !x.status.Faulted?
    ensures Shape(m, ExitRecord(x))
    ensures |x.active| > 1 ==> LeafOf(x) != [] && ExitRecord(x).active == Chain(Parent(LeafOf(x)))
  {
    hide ScopeOk, HistoryOk, Chain, CountersOk;
    var y := ExitRecord(x);
    ExitActive(x);
    ExitCounters(m, x);
    forall q | q in y.scopes ensures ScopeOk(m, q, y.scopes[q]) {
      assert ScopeOk(m, q, x.scopes[q]);
    }
  }

  lemma ExitOk(program: Program, rs: Forest, r: RuntimeId)
    requires Ok(program, rs) && r in rs && rs[r].status.Running? && rs[r].active != []
    requires forall c :: c in Children(rs, r) ==> !BoundTo(rs, c, LeafOf(rs[r]))
    ensures Ok(program, rs[r := ExitRecord(rs[r])])
  {
    hide Shape;
    assert RuntimeOk(program, rs, r);
    var y := ExitRecord(rs[r]);
    ExitShape(program.machines[y.machine], rs[r]);
    forall c | c in Children(rs, r) ensures ChildOk(program, y, c, rs[c]) {
      assert RuntimeOk(program, rs, c);
      assert !BoundTo(rs, c, LeafOf(rs[r]));
    }
    ReplaceOk(program, rs, r, y);
  }

  // ---------------------------------------------------------------- completing and faulting

  function CompletedRecord(x: Runtime): Runtime {
    x.(status := Completed, active := [], scopes := map[], activations := map[], components := map[])
  }

  lemma CompleteOk(program: Program, rs: Forest, r: RuntimeId)
    requires Ok(program, rs) && r in rs && rs[r].status.Running? && rs[r].active == [] && Children(rs, r) == {}
    requires !r.Spawned?
    ensures rs[r].(status := Completed) == CompletedRecord(rs[r])
    ensures Ok(program, rs[r := CompletedRecord(rs[r])])
  {
    assert RuntimeOk(program, rs, r);
    Childless(program, rs, r);
    assert rs[r].scopes == map[] && rs[r].activations == map[];
    ReplaceOk(program, rs, r, CompletedRecord(rs[r]));
  }

  /** `finalize_fault` of an initialization clears everything the runtime had set up. */
  function InitFault(x: Runtime, fault: FaultCode): Runtime {
    x.(status := Faulted, active := [], scopes := map[], history := map[], components := map[], nextSpawn := 0,
       counters := map[], activations := map[], nextComponent := map[], fault := Some(fault))
  }

  lemma NewChildless(program: Program, rs: Forest, c: RuntimeId)
    requires Ok(program, rs) && c in rs && IsNew(program, rs[c])
    ensures Children(rs, c) == {}
  {
    forall k | k in rs && !k.Root? ensures k.owner != c {
      ChildCounted(program, rs, k);
    }
  }

  lemma InitFaultOk(program: Program, rs: Forest, c: RuntimeId, fault: FaultCode)
    requires Ok(program, rs) && c in rs && IsNew(program, rs[c])
    ensures Ok(program, rs[c := InitFault(rs[c], fault)])
  {
    NewChildless(program, rs, c);
    assert RuntimeOk(program, rs, c);
    ReplaceOk(program, rs, c, InitFault(rs[c], fault));
  }

  /** `finalize_fault` of a dispatch keeps everything but the status. */
  function StepFault(x: Runtime, fault: FaultCode): Runtime {
    x.(status := Faulted, fault := Some(fault))
  }

  lemma StepFaultShape(m: Machine, x: Runtime, fault: FaultCode)
    requires Shape(m, x) && x.status.Running? && x.active != []
    ensures Shape(m, StepFault(x, fault)) && !NeverStarted(StepFault(x, fault))
  {
    hide ScopeOk, HistoryOk, Chain;
  }

  lemma StepFaultChild(program: Program, x: Runtime, fault: FaultCode, c: RuntimeId, rt: Runtime)
    requires ChildOk(program, x, c, rt) && x.status.Running? && x.active != []
    ensures ChildOk(program, StepFault(x, fault), c, rt)
  {
  }

  lemma StepFaultOk(program: Program, rs: Forest, r: RuntimeId, fault: FaultCode)
    requires Ok(program, rs) && r in rs && rs[r].status.Running? && rs[r].active != []
    ensures Ok(program, rs[r := StepFault(rs[r], fault)])
  {
    hide Shape, ChildOk;
    assert RuntimeOk(program, rs, r);
    StepFaultShape(program.machines[rs[r].machine], rs[r], fault);
    forall c | c in Children(rs, r) ensures ChildOk(program, StepFault(rs[r], fault), c, rs[c]) {
      assert RuntimeOk(program, rs, c);
      StepFaultChild(program, rs[r], fault, c, rs[c]);
    }
    ReplaceOk(program, rs, r, StepFault(rs[r], fault));
  }

  // ---------------------------------------------------------------- allocating a component

  function SlotCounter(x: Runtime, p: Path, i: nat): nat {
    if (p, i) in x.nextComponent then x.nextComponent[(p, i)] else 0
  }

  function Allocated(program: Program, rs: Forest, r: RuntimeId, p: Path, i: nat): (c: RuntimeId)
    requires r in rs
    ensures !c.Root? && c.owner == r && c.Component? && c.slot == Slot(rs[r].machine, p, i)
  {
    Component(r, Slot(rs[r].machine, p, i), SlotCounter(rs[r], p, i))
  }

  function Bumped(x: Runtime, p: Path, i: nat): Runtime {
    x.(nextComponent := x.nextComponent[(p, i) := SlotCounter(x, p, i) + 1])
  }

  function Allocate(program: Program, rs: Forest, r: RuntimeId, p: Path, i: nat, child: Runtime): Forest
    requires r in rs
  {
    var c := Allocated(program, rs, r, p, i);
    rs[r := Listing(program, Bumped(rs[r], p, i), c)][c := child]
  }

  lemma BumpedOk(program: Program, rs: Forest, r: RuntimeId, p: Path, i: nat)
    requires Ok(program, rs) && r in rs && rs[r].machine in program.machines
    requires p in program.machines[rs[r].machine] && i < |program.machines[rs[r].machine][p].components|
    ensures Ok(program, rs[r := Bumped(rs[r], p, i)])
  {
    hide ScopeOk, HistoryOk, Chain;
    assert RuntimeOk(program, rs, r);
    var y := Bumped(rs[r], p, i);
    forall c | c in Children(rs, r) ensures ChildOk(program, y, c, rs[c]) {
      assert RuntimeOk(program, rs, c);
    }
    ReplaceOk(program, rs, r, y);
  }

  /** A slot whose state holds no component up to `i` can take one at `i`. */
  lemma SlotFree(program: Program, rs: Forest, r: RuntimeId, p: Path, i: nat)
    requires Ok(program, rs) && Loaded(program) && r in rs && rs[r].machine in program.machines
    requires p in program.machines[rs[r].machine] && i < |program.machines[rs[r].machine][p].components|
    requires forall c :: c in Children(rs, r) && c.Component? && c.slot.state == p ==> c.slot.index < i
    ensures program.machines[rs[r].machine][p].components[i].id !in rs[r].components
    ensures Allocated(program, rs, r, p, i) !in rs
  {
    assert RuntimeOk(program, rs, r) && MachineOk(program, rs[r].machine);
    forall name | name in rs[r].components
      ensures name != program.machines[rs[r].machine][p].components[i].id
    {
      assert NamedComponent(program, rs, r, name);
      var k := rs[r].components[name];
      assert RuntimeOk(program, rs, k);
      assert k in Children(rs, r);
    }
    ChildCounted(program, rs, Allocated(program, rs, r, p, i));
  }

  lemma AllocateOk(program: Program, rs: Forest, r: RuntimeId, p: Path, i: nat, child: Runtime)
    requires Ok(program, rs) && Loaded(program) && r in rs && rs[r].status.Running? && rs[r].machine in program.machines
    requires p in program.machines[rs[r].machine] && i < |program.machines[rs[r].machine][p].components|
    requires forall c :: c in Children(rs, r) && c.Component? && c.slot.state == p ==> c.slot.index < i
    requires IsNew(program, child)
    requires child.machine == program.machines[rs[r].machine][p].components[i].machine
    requires ActiveAs(rs[r], p, child.owningActivation)
    ensures Ok(program, Allocate(program, rs, r, p, i, child))
  {
    BumpedOk(program, rs, r, p, i);
    SlotFree(program, rs, r, p, i);
    var c := Allocated(program, rs, r, p, i);
    var bumped := rs[r := Bumped(rs[r], p, i)];
    assert c !in bumped;
    hide Ok, IsNew;
    AddChildOk(program, bumped, c, child);
    assert bumped[r := Listing(program, bumped[r], c)][c := child] == Allocate(program, rs, r, p, i, child);
  }

  // ---------------------------------------------------------------- history

  function Bottom(active: seq<Path>): Path {
    if active == [] then [] else active[|active| - 1]
  }

  /** A composite with history, strictly between `boundary` and the leaf. */
  predicate Recordable(m: Machine, x: Runtime, boundary: Path, p: Path) {
    && boundary <= p && p != boundary
    && p <= Bottom(x.active) && p != Bottom(x.active)
    && p in m && m[p].history != NoHistory
  }

  /** The leaf for a deep composite, its direct child on the way to the leaf for a shallow one. */
  function RecordFor(m: Machine, x: Runtime, p: Path): Path
    requires p in m && p <= Bottom(x.active) && p != Bottom(x.active)
  {
    if m[p].history.Shallow? then Bottom(x.active)[..|p| + 1] else Bottom(x.active)
  }

  /** The history once everything strictly below `boundary` is left. */
  function Recorded(m: Machine, x: Runtime, boundary: Path): map<Path, Option<Path>> {
    map p | p in x.history ::
      if Recordable(m, x, boundary, p) then Some(RecordFor(m, x, p)) else x.history[p]
  }

  /** With the active states from depth `i` on already dealt with. */
  predicate RecordedSoFar(m: Machine, x: Runtime, boundary: Path, i: nat, p: Path, entry: Option<Path>)
    requires p in x.history
  {
    entry == if i <= |p| && Recordable(m, x, boundary, p) then Some(RecordFor(m, x, p)) else x.history[p]
  }

  /** The one state at depth `i` that may be recorded is the active one. */
  lemma AtDepth(m: Machine, x: Runtime, boundary: Path, i: nat)
    requires x.active != [] && x.active == Chain(LeafOf(x)) && boundary <= LeafOf(x)
    requires |boundary| < i < |x.active|
    ensures boundary <= x.active[i] && boundary != x.active[i] && x.active[i] <= LeafOf(x)
    ensures forall p :: Recordable(m, x, boundary, p) && |p| == i ==> p == x.active[i]
  {
    var leaf := LeafOf(x);
    assert x.active[i] == leaf[..i] && boundary == leaf[..|boundary|];
    forall p | Recordable(m, x, boundary, p) && |p| == i ensures p == x.active[i] {
      assert p == leaf[..|p|];
    }
  }

  predicate RecordedFrom(m: Machine, x: Runtime, boundary: Path, i: nat, history: map<Path, Option<Path>>) {
    && history.Keys == x.history.Keys
    && forall p :: p in history ==> RecordedSoFar(m, x, boundary, i, p, history[p])
  }

  /** One more depth: the active state there is recorded when it keeps history, and nothing
      changes when it does not. */
  lemma RecordMore(m: Machine, x: Runtime, boundary: Path, i: nat, history: map<Path, Option<Path>>)
    requires x.active != [] && x.active == Chain(LeafOf(x)) && boundary <= LeafOf(x)
    requires |boundary| < i < |x.active| && RecordedFrom(m, x, boundary, i + 1, history)
    requires x.active[i] in m && x.history.Keys == HistoryStates(m)
    requires m[x.active[i]].history != NoHistory ==> x.active[i] != LeafOf(x)
    ensures m[x.active[i]].history == NoHistory ==> RecordedFrom(m, x, boundary, i, history)
    ensures m[x.active[i]].history != NoHistory ==>
              && x.active[i] <= LeafOf(x) && x.active[i] != LeafOf(x)
              && RecordedFrom(m, x, boundary, i, history[x.active[i] := Some(RecordFor(m, x, x.active[i]))])
  {
    AtDepth(m, x, boundary, i);
    assert |x.active[i]| == i;
    if m[x.active[i]].history != NoHistory {
      assert Recordable(m, x, boundary, x.active[i]);
    }
    forall p | p in history && m[x.active[i]].history == NoHistory
      ensures RecordedSoFar(m, x, boundary, i, p, history[p])
    {
      assert RecordedSoFar(m, x, boundary, i + 1, p, history[p]);
    }
    forall p | p in history && p != x.active[i] ensures RecordedSoFar(m, x, boundary, i, p, history[p]) {
      assert RecordedSoFar(m, x, boundary, i + 1, p, history[p]);
    }
  }

  lemma RecordedAll(m: Machine, x: Runtime, boundary: Path, i: nat, history: map<Path, Option<Path>>)
    requires RecordedFrom(m, x, boundary, i, history) && i <= |boundary| + 1
    ensures history == Recorded(m, x, boundary)
  {
    forall p | p in history ensures history[p] == Recorded(m, x, boundary)[p] {
      assert RecordedSoFar(m, x, boundary, i, p, history[p]);
    }
  }

  lemma HistoryComposite(program: Program, id: MachineId, p: Path)
    requires Loaded(program) && id in program.machines && p in program.machines[id]
    ensures program.machines[id][p].history != NoHistory ==> program.machines[id][p].kind.Composite?
  {
    LoadedNode(program, id, p);
  }

  lemma RecordedOk(program: Program, id: MachineId, x: Runtime, boundary: Path)
    requires Loaded(program) && id in program.machines && Shape(program.machines[id], x)
    requires x.status.Running? && Settled(program.machines[id], x)
    ensures HistoryOk(program.machines[id], Recorded(program.machines[id], x, boundary))
  {
    var m := program.machines[id];
    var h := Recorded(m, x, boundary);
    forall p | p in h && h[p].Some? ensures RecordOk(m, p, h[p].value) {
      if h[p] != x.history[p] {
        AncestorsComposite(program, id, h[p].value, Bottom(x.active));
      }
    }
  }

  lemma RecordedShape(m: Machine, x: Runtime, h: map<Path, Option<Path>>)
    requires Shape(m, x) && !NeverStarted(x) && HistoryOk(m, h) && h.Keys == x.history.Keys
    ensures Shape(m, x.(history := h))
  {
    hide ScopeOk, HistoryOk, Chain;
  }

  lemma RecordOkAt(program: Program, rs: Forest, r: RuntimeId, boundary: Path)
    requires Ok(program, rs) && Loaded(program) && r in rs && rs[r].status.Running?
    requires rs[r].machine in program.machines && Settled(program.machines[rs[r].machine], rs[r])
    ensures Ok(program, rs[r := rs[r].(history := Recorded(program.machines[rs[r].machine], rs[r], boundary))])
  {
    hide Shape, HistoryOk;
    assert RuntimeOk(program, rs, r);
    var m := program.machines[rs[r].machine];
    var y := rs[r].(history := Recorded(m, rs[r], boundary));
    RecordedOk(program, rs[r].machine, rs[r], boundary);
    RecordedShape(m, rs[r], y.history);
    forall c | c in Children(rs, r) ensures ChildOk(program, y, c, rs[c]) {
      assert RuntimeOk(program, rs, c);
    }
    ReplaceOk(program, rs, r, y);
  }
}
