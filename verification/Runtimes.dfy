/** The runtimes of one aggregate: their records, the ownership forest, and how removing or
    adding runtimes keeps it well formed. */
module Runtimes {
  import opened Options
  import opened Statechart

  datatype Status = Running | Completed | Faulted

  datatype FaultCode =
    | GuardFault | ActionFault | InvalidInstanceTarget | InactiveComponentTarget | BindingNotEmpty
    | ContainedRuntimeFault | CascadeFault | InvariantFault

  /** The variable a spawned instance is bound to: its state and that state's activation. */
  datatype Holder = Holder(state: Path, activation: nat, name: Name)

  datatype Runtime = Runtime(
    machine: MachineId, status: Status, active: seq<Path>, scopes: map<Path, Scope>,
    history: map<Path, Option<Path>>, fault: Option<FaultCode>, nextSpawn: nat,
    counters: map<Path, nat>, activations: map<Path, nat>, nextComponent: map<(Path, nat), nat>,
    components: map<string, RuntimeId>, owningActivation: nat, holder: Option<Holder>)

  type Forest = map<RuntimeId, Runtime>

  // ---------------------------------------------------------------- ownership

  /** `id` is `r` or owned, directly or not, by `r`. */
  predicate Within(id: RuntimeId, r: RuntimeId) {
    id == r || (!id.Root? && Within(id.owner, r))
  }

  lemma {:induction false} WithinTransitive(a: RuntimeId, b: RuntimeId, c: RuntimeId)
    requires Within(a, b) && Within(b, c)
    ensures Within(a, c)
  {
    if a != b {
      WithinTransitive(a.owner, b, c);
    }
  }

  function Height(id: RuntimeId): nat {
    if id.Root? then 0 else Height(id.owner) + 1
  }

  lemma {:induction false} WithinHigher(a: RuntimeId, b: RuntimeId)
    requires Within(a, b)
    ensures a == b || Height(b) < Height(a)
  {
    if a != b {
      WithinHigher(a.owner, b);
    }
  }

  /** No runtime is within one of its own descendants. */
  lemma OwnerOutside(c: RuntimeId, r: RuntimeId)
    requires !c.Root? && Within(c.owner, r)
    ensures !Within(r, c) && Within(c, r)
  {
    if Within(r, c) {
      WithinHigher(r, c);
      WithinHigher(c.owner, r);
    }
  }

  lemma {:induction false} WithinEveryRoot(id: RuntimeId)
    ensures Within(id, Root)
  {
    if !id.Root? {
      WithinEveryRoot(id.owner);
    }
  }

  function Subtree(rs: Forest, r: RuntimeId): set<RuntimeId> {
    set id | id in rs && Within(id, r)
  }

  function Children(rs: Forest, r: RuntimeId): set<RuntimeId> {
    set id | id in rs && !id.Root? && id.owner == r
  }

  // ---------------------------------------------------------------- one runtime

  function LeafOf(rt: Runtime): Path
    requires rt.active != []
  {
    rt.active[|rt.active| - 1]
  }

  predicate Anchored(active: seq<Path>) {
    active == [] || active == Chain(active[|active| - 1])
  }

  predicate ScopeOk(m: Machine, p: Path, scope: Scope) {
    && p in m
    && scope.Keys == m[p].variables.Keys
    && forall x :: x in scope ==> Matches(scope[x], m[p].variables[x])
  }

  function HistoryStates(m: Machine): set<Path> {
    set p | p in m && m[p].history != NoHistory
  }

  /** A recorded entry lies strictly below its composite and can be entered again; a shallow
      one is a direct child, a deep one a leaf. */
  predicate RecordOk(m: Machine, p: Path, d: Path) {
    && p in m && d in m
    && p <= d && p != d
    && !m[d].kind.Choice? && !m[d].kind.Final?
    && (m[p].history.Shallow? ==> |d| == |p| + 1)
    && (m[p].history.Deep? ==> !m[d].kind.Composite?)
  }

  predicate HistoryOk(m: Machine, history: map<Path, Option<Path>>) {
    && history.Keys <= HistoryStates(m)
    && forall p :: p in history && history[p].Some? ==> RecordOk(m, p, history[p].value)
  }

  /** A runtime that faulted in its own initialization. */
  predicate NeverStarted(rt: Runtime) {
    rt.status.Faulted? && rt.active == []
  }

  predicate CountersOk(m: Machine, rt: Runtime) {
    && rt.activations.Keys == (set p | p in rt.active)
    && rt.counters.Keys <= m.Keys
    && (forall p :: p in rt.activations ==> p in rt.counters && rt.activations[p] < rt.counters[p])
    && (forall s :: s in rt.nextComponent ==> s.0 in m && s.1 < |m[s.0].components|)
  }

  predicate Shape(m: Machine, rt: Runtime) {
    && Anchored(rt.active)
    && (forall p :: p in rt.active ==> p in m && !m[p].kind.Choice?)
    && rt.scopes.Keys == (set p | p in rt.active)
    && (forall p {:trigger ScopeOk(m, p, rt.scopes[p])} :: p in rt.scopes ==> ScopeOk(m, p, rt.scopes[p]))
    && CountersOk(m, rt)
    && HistoryOk(m, rt.history)
    && (if NeverStarted(rt) then rt.history == map[] else rt.history.Keys == HistoryStates(m))
    && (rt.status.Faulted? <==> rt.fault.Some?)
    && (rt.status.Completed? ==> rt.active == [] && rt.components == map[])
  }

  /** The innermost active state of a settled running runtime is simple or parallel. */
  predicate Settled(m: Machine, rt: Runtime) {
    rt.status.Running? ==>
      rt.active != [] && LeafOf(rt) in m && (m[LeafOf(rt)].kind.Simple? || m[LeafOf(rt)].kind.Parallel?)
  }

  // ---------------------------------------------------------------- owner and child

  predicate ActiveAs(owner: Runtime, p: Path, activation: nat) {
    p in owner.activations && owner.activations[p] == activation
  }

  /** `_valid_component_relation`, with the entry of the owner's component map. */
  predicate ComponentOk(program: Program, owner: Runtime, id: RuntimeId, rt: Runtime)
    requires id.Component?
  {
    var s := id.slot;
    && s.machine == owner.machine
    && s.machine in program.machines
    && s.state in program.machines[s.machine]
    && s.index < |program.machines[s.machine][s.state].components|
    && ActiveAs(owner, s.state, rt.owningActivation)
    && (s.state, s.index) in owner.nextComponent
    && id.sequence < owner.nextComponent[(s.state, s.index)]
    && rt.machine == program.machines[s.machine][s.state].components[s.index].machine
    && ComponentName(program, s) in owner.components
    && owner.components[ComponentName(program, s)] == id
  }

  function ComponentName(program: Program, s: Slot): string {
    if s.machine in program.machines && s.state in program.machines[s.machine]
       && s.index < |program.machines[s.machine][s.state].components|
    then program.machines[s.machine][s.state].components[s.index].id
    else ""
  }

  /** `_valid_spawned_relation`. */
  predicate SpawnedOk(program: Program, owner: Runtime, id: RuntimeId, rt: Runtime)
    requires id.Spawned?
  {
    && id.sequence < owner.nextSpawn
    && !rt.status.Completed?
    && owner.machine in program.machines
    && (rt.holder.Some? ==>
          HolderOk(program.machines[owner.machine], owner, rt.holder.value))
  }

  predicate HolderOk(m: Machine, owner: Runtime, h: Holder) {
    && ActiveAs(owner, h.state, h.activation)
    && h.state in m
    && h.name in m[h.state].variables
    && m[h.state].variables[h.name].reference
  }

  predicate ChildOk(program: Program, owner: Runtime, id: RuntimeId, rt: Runtime) {
    && (id.Component? ==> ComponentOk(program, owner, id, rt))
    && (id.Spawned? ==> SpawnedOk(program, owner, id, rt))
    && !owner.status.Completed?
    && !NeverStarted(owner)
  }

  /** The component map of a runtime names its component children and nothing else. */
  predicate ComponentsOk(program: Program, rs: Forest, id: RuntimeId)
    requires id in rs
  {
    forall name :: name in rs[id].components ==> NamedComponent(program, rs, id, name)
  }

  predicate NamedComponent(program: Program, rs: Forest, id: RuntimeId, name: string)
    requires id in rs && name in rs[id].components
  {
    var c := rs[id].components[name];
    c in rs && c.Component? && c.owner == id && ComponentName(program, c.slot) == name
  }

  predicate RuntimeOk(program: Program, rs: Forest, id: RuntimeId)
    requires id in rs
  {
    && rs[id].machine in program.machines
    && Shape(program.machines[rs[id].machine], rs[id])
    && ComponentsOk(program, rs, id)
    && (!id.Root? ==> id.owner in rs && ChildOk(program, rs[id.owner], id, rs[id]))
  }

  predicate Ok(program: Program, rs: Forest) {
    forall id {:trigger RuntimeOk(program, rs, id)} :: id in rs ==> RuntimeOk(program, rs, id)
  }

  predicate SettledAt(program: Program, rs: Forest, id: RuntimeId)
    requires id in rs
  {
    rs[id].machine in program.machines && Settled(program.machines[rs[id].machine], rs[id])
  }

  // ---------------------------------------------------------------- structure of the forest

  /** A runtime with a strict descendant has a child. */
  lemma {:induction false} ChildBelow(program: Program, rs: Forest, id: RuntimeId, r: RuntimeId) returns (c: RuntimeId)
    requires Ok(program, rs) && id in rs && Within(id, r) && id != r
    ensures c in Children(rs, r) && Within(id, c)
  {
    assert RuntimeOk(program, rs, id);
    if id.owner == r {
      c := id;
    } else {
      c := ChildBelow(program, rs, id.owner, r);
    }
  }

  lemma Childless(program: Program, rs: Forest, r: RuntimeId)
    requires Ok(program, rs) && Children(rs, r) == {}
    ensures forall id :: id in rs && Within(id, r) ==> id == r
    ensures r in rs ==> rs[r].components == map[]
  {
    forall id | id in rs && Within(id, r) ensures id == r {
      if id != r {
        var c := ChildBelow(program, rs, id, r);
      }
    }
    if r in rs {
      assert RuntimeOk(program, rs, r);
      forall name | name in rs[r].components ensures rs[r].components[name] in Children(rs, r) {
        assert NamedComponent(program, rs, r, name);
      }
    }
  }

  /** Two components of one runtime never share a name. */
  lemma ComponentsDistinct(program: Program, rs: Forest, a: RuntimeId, b: RuntimeId)
    requires Ok(program, rs) && a in rs && b in rs && a.Component? && b.Component? && a.owner == b.owner
    requires ComponentName(program, a.slot) == ComponentName(program, b.slot)
    ensures a == b
  {
    assert RuntimeOk(program, rs, a) && RuntimeOk(program, rs, b);
  }

  // ---------------------------------------------------------------- changing one record

  predicate Links(x: Runtime, y: Runtime) {
    x.machine == y.machine && x.owningActivation == y.owningActivation && x.holder == y.holder
  }

  /** Replacing one record keeps the forest, when the children still fit it. */
  lemma ReplaceOk(program: Program, rs: Forest, r: RuntimeId, y: Runtime)
    requires Ok(program, rs) && r in rs && Links(rs[r], y)
    requires y.machine in program.machines && Shape(program.machines[y.machine], y)
    requires r.Spawned? ==> !y.status.Completed?
    requires y.components == rs[r].components
    requires forall c :: c in Children(rs, r) ==> ChildOk(program, y, c, rs[c])
    ensures Ok(program, rs[r := y])
  {
    var after := rs[r := y];
    forall id | id in after ensures RuntimeOk(program, after, id) {
      assert RuntimeOk(program, rs, id);
      forall name | name in after[id].components ensures NamedComponent(program, after, id, name) {
        assert NamedComponent(program, rs, id, name);
      }
      if !id.Root? && id.owner == r {
        assert id in Children(rs, r);
        ChildNotOwner(id);
      }
    }
  }

  lemma ChildNotOwner(id: RuntimeId)
    requires !id.Root?
    ensures id != id.owner
  {
    assert Height(id) == Height(id.owner) + 1;
  }

  /** What actions change of their own runtime: variables, and the spawn counter. */
  predicate SameControl(x: Runtime, y: Runtime) {
    && y == x.(scopes := y.scopes, nextSpawn := y.nextSpawn)
    && x.nextSpawn <= y.nextSpawn
  }

  lemma SameControlShape(m: Machine, x: Runtime, y: Runtime)
    requires Shape(m, x) && SameControl(x, y) && y.scopes.Keys == x.scopes.Keys
    requires forall p :: p in y.scopes ==> ScopeOk(m, p, y.scopes[p])
    ensures Shape(m, y)
  {
    hide ScopeOk, HistoryOk, Chain;
  }

  lemma SameControlChild(program: Program, x: Runtime, y: Runtime, c: RuntimeId, rt: Runtime)
    requires ChildOk(program, x, c, rt) && SameControl(x, y)
    ensures ChildOk(program, y, c, rt)
  {
  }

  lemma SameControlOk(program: Program, rs: Forest, r: RuntimeId, y: Runtime)
    requires Ok(program, rs) && r in rs && SameControl(rs[r], y)
    requires y.machine in program.machines
    requires y.scopes.Keys == rs[r].scopes.Keys
    requires forall p :: p in y.scopes ==> ScopeOk(program.machines[y.machine], p, y.scopes[p])
    ensures Ok(program, rs[r := y])
  {
    hide ChildOk, Shape;
    assert RuntimeOk(program, rs, r);
    SameControlShape(program.machines[y.machine], rs[r], y);
    forall c | c in Children(rs, r) ensures ChildOk(program, y, c, rs[c]) {
      assert RuntimeOk(program, rs, c);
      SameControlChild(program, rs[r], y, c, rs[c]);
    }
    assert r.Spawned? ==> !y.status.Completed? by {
      if r.Spawned? {
        SpawnedRuns(program, rs, r);
      }
    }
    ReplaceOk(program, rs, r, y);
  }

  lemma SpawnedRuns(program: Program, rs: Forest, r: RuntimeId)
    requires Ok(program, rs) && r in rs && r.Spawned?
    ensures !rs[r].status.Completed?
  {
    assert RuntimeOk(program, rs, r);
  }

  // ---------------------------------------------------------------- removing a subtree

  function DropComponent(rt: Runtime, name: string): Runtime {
    rt.(components := rt.components - {name})
  }

  /** The forest without the subtree of `c`, and without the entry `c` has in its owner. */
  function Pruned(program: Program, rs: Forest, c: RuntimeId): Forest {
    map id | id in rs && !Within(id, c) ::
      if c.Component? && id == c.owner then DropComponent(rs[id], ComponentName(program, c.slot)) else rs[id]
  }

  lemma PrunedOk(program: Program, rs: Forest, c: RuntimeId)
    requires Ok(program, rs) && c in rs && !c.Root?
    ensures Ok(program, Pruned(program, rs, c))
  {
    var after := Pruned(program, rs, c);
    assert RuntimeOk(program, rs, c);
    OwnerOutside(c, c.owner);
    forall id | id in after ensures RuntimeOk(program, after, id) {
      assert RuntimeOk(program, rs, id);
      PrunedShape(program, rs, c, id);
      PrunedComponents(program, rs, c, id);
      if !id.Root? {
        PrunedChild(program, rs, c, id);
      }
    }
  }

  lemma PrunedShape(program: Program, rs: Forest, c: RuntimeId, id: RuntimeId)
    requires id in Pruned(program, rs, c) && RuntimeOk(program, rs, id)
    ensures Pruned(program, rs, c)[id].machine in program.machines
    ensures Shape(program.machines[Pruned(program, rs, c)[id].machine], Pruned(program, rs, c)[id])
  {
  }

  lemma PrunedComponents(program: Program, rs: Forest, c: RuntimeId, id: RuntimeId)
    requires Ok(program, rs) && c in rs && !c.Root? && id in Pruned(program, rs, c)
    ensures ComponentsOk(program, Pruned(program, rs, c), id)
  {
    var after := Pruned(program, rs, c);
    assert RuntimeOk(program, rs, id) && RuntimeOk(program, rs, c);
    forall name | name in after[id].components ensures NamedComponent(program, after, id, name) {
      assert NamedComponent(program, rs, id, name);
      var k := rs[id].components[name];
      if Within(k, c) && k != c {
        assert false;
      }
    }
  }

  lemma PrunedChild(program: Program, rs: Forest, c: RuntimeId, id: RuntimeId)
    requires Ok(program, rs) && c in rs && !c.Root? && id in Pruned(program, rs, c) && !id.Root?
    ensures id.owner in Pruned(program, rs, c)
    ensures ChildOk(program, Pruned(program, rs, c)[id.owner], id, Pruned(program, rs, c)[id])
  {
    assert RuntimeOk(program, rs, id);
    if id.Component? && c.Component? && id.owner == c.owner && ComponentName(program, id.slot) == ComponentName(program, c.slot) {
      ComponentsDistinct(program, rs, id, c);
    }
  }

  // ---------------------------------------------------------------- adding a child

  function NewRuntime(m: Machine, id: MachineId, owningActivation: nat, holder: Option<Holder>): Runtime {
    Runtime(id, Running, [], map[], map p | p in HistoryStates(m) :: None, None, 0, map[], map[], map[], map[],
            owningActivation, holder)
  }

  predicate IsNew(program: Program, rt: Runtime) {
    rt.machine in program.machines
    && rt == NewRuntime(program.machines[rt.machine], rt.machine, rt.owningActivation, rt.holder)
  }

  lemma NewShape(m: Machine, rt: Runtime)
    requires rt == NewRuntime(m, rt.machine, rt.owningActivation, rt.holder)
    ensures Shape(m, rt)
  {
  }

  /** The owner's record once it lists a new child. */
  function Listing(program: Program, owner: Runtime, c: RuntimeId): Runtime {
    if c.Component? then owner.(components := owner.components[ComponentName(program, c.slot) := c]) else owner
  }

  lemma AddChildOk(program: Program, rs: Forest, c: RuntimeId, rt: Runtime)
    requires Ok(program, rs) && !c.Root? && c !in rs && c.owner in rs
    requires rs[c.owner].status.Running?
    requires IsNew(program, rt)
    requires ChildOk(program, Listing(program, rs[c.owner], c), c, rt)
    requires c.Component? ==> ComponentName(program, c.slot) !in rs[c.owner].components
    ensures Ok(program, rs[c.owner := Listing(program, rs[c.owner], c)][c := rt])
  {
    hide Shape;
    var owner := Listing(program, rs[c.owner], c);
    var after := rs[c.owner := owner][c := rt];
    ChildNotOwner(c);
    assert RuntimeOk(program, rs, c.owner);
    NewShape(program.machines[rt.machine], rt);
    ListingShape(program, rs[c.owner], c);
    forall id | id in after ensures RuntimeOk(program, after, id) {
      AddedComponents(program, rs, c, rt, id);
      if id != c {
        assert RuntimeOk(program, rs, id);
        if !id.Root? && id.owner == c.owner {
          ListingChild(program, rs, c, id);
        }
      }
    }
  }

  lemma ListingShape(program: Program, owner: Runtime, c: RuntimeId)
    requires owner.machine in program.machines && Shape(program.machines[owner.machine], owner)
    requires owner.status.Running?
    ensures Shape(program.machines[owner.machine], Listing(program, owner, c))
  {
  }

  lemma AddedComponents(program: Program, rs: Forest, c: RuntimeId, rt: Runtime, id: RuntimeId)
    requires Ok(program, rs) && !c.Root? && c !in rs && c.owner in rs && (id in rs || id == c)
    requires IsNew(program, rt)
    ensures ComponentsOk(program, rs[c.owner := Listing(program, rs[c.owner], c)][c := rt], id)
  {
    hide Shape, ChildOk;
    var after := rs[c.owner := Listing(program, rs[c.owner], c)][c := rt];
    if id != c {
      assert RuntimeOk(program, rs, id);
      forall name | name in after[id].components ensures NamedComponent(program, after, id, name) {
        if name in rs[id].components {
          assert NamedComponent(program, rs, id, name);
        }
      }
    }
  }

  lemma ListingChild(program: Program, rs: Forest, c: RuntimeId, id: RuntimeId)
    requires id in rs && !id.Root? && !c.Root? && id.owner == c.owner && c.owner in rs
    requires ChildOk(program, rs[c.owner], id, rs[id])
    requires c.Component? ==> ComponentName(program, c.slot) !in rs[c.owner].components
    ensures ChildOk(program, Listing(program, rs[c.owner], c), id, rs[id])
  {
  }

  /** The sequence number of a present child is below its owner's counter. */
  lemma ChildCounted(program: Program, rs: Forest, c: RuntimeId)
    requires Ok(program, rs)
    ensures c in rs && c.Spawned? ==> c.owner in rs && c.sequence < rs[c.owner].nextSpawn
    ensures c in rs && c.Component? ==>
              && c.owner in rs
              && (c.slot.state, c.slot.index) in rs[c.owner].nextComponent
              && c.sequence < rs[c.owner].nextComponent[(c.slot.state, c.slot.index)]
  {
    if c in rs {
      assert RuntimeOk(program, rs, c);
    }
  }

  // ---------------------------------------------------------------- the frame of one runtime's work

  /** The state an execution works on. */
  datatype World = World(runtimes: Forest, emissions: seq<Emission>, nextOutput: nat, log: map<RuntimeId, seq<Phase>>)

  datatype Emission =
    | Internal(source: RuntimeId, target: RuntimeId, event: string, payload: Value)
    | External(source: RuntimeId, event: string, payload: Value, sequence: nat)
    | ComponentCompleted(child: RuntimeId)
    | ParallelDone(parent: RuntimeId, state: Path)
    | InstanceDone(child: RuntimeId)
    | ComponentFailed(child: RuntimeId, fault: FaultCode)
    | InstanceFailed(child: RuntimeId, fault: FaultCode)

  /** What a runtime did, in order: ran a list of actions, entered a state, left a state. */
  datatype Phase = Acts(site: Site) | Enters(state: Path) | Leaves(state: Path)

  function LogOf(w: World, id: RuntimeId): seq<Phase> {
    if id in w.log then w.log[id] else []
  }

  predicate SameAt(a: World, b: World, id: RuntimeId) {
    && (id in a.runtimes <==> id in b.runtimes)
    && (id in a.runtimes ==> a.runtimes[id] == b.runtimes[id])
    && LogOf(a, id) == LogOf(b, id)
  }

  /** The output number after emitting `es` from number `n` on, when the external ones among
      them take consecutive numbers. */
  function Numbering(n: nat, es: seq<Emission>): Option<nat> {
    if es == [] then Some(n)
    else
      var k := Numbering(n, es[..|es| - 1]);
      var last := es[|es| - 1];
      if k.None? then None
      else if !last.External? then k
      else if last.sequence == k.value then Some(k.value + 1)
      else None
  }

  lemma {:induction false} NumberingJoins(n: nat, x: seq<Emission>, y: seq<Emission>)
    requires Numbering(n, x).Some?
    ensures Numbering(n, x + y) == Numbering(Numbering(n, x).value, y)
  {
    if y == [] {
      assert x + y == x;
    } else {
      assert (x + y)[..|x + y| - 1] == x + y[..|y| - 1];
      NumberingJoins(n, x, y[..|y| - 1]);
    }
  }

  /** Emissions are only added, and each external one took the next output number. */
  predicate Emitted(a: World, b: World) {
    && a.emissions <= b.emissions
    && Numbering(a.nextOutput, b.emissions[|a.emissions|..]) == Some(b.nextOutput)
  }

  lemma EmittedNothing(a: World, b: World)
    requires b.emissions == a.emissions && b.nextOutput == a.nextOutput
    ensures Emitted(a, b)
  {
    assert b.emissions[|a.emissions|..] == [];
  }

  lemma EmittedTail(a: World, b: World, tail: seq<Emission>)
    requires b.emissions == a.emissions + tail && Numbering(a.nextOutput, tail) == Some(b.nextOutput)
    ensures Emitted(a, b)
  {
    assert b.emissions[|a.emissions|..] == tail;
  }

  lemma EmittedTransitive(a: World, b: World, c: World)
    requires Emitted(a, b) && Emitted(b, c)
    ensures Emitted(a, c)
  {
    var x, y := b.emissions[|a.emissions|..], c.emissions[|b.emissions|..];
    assert c.emissions == a.emissions + (x + y);
    NumberingJoins(a.nextOutput, x, y);
    EmittedTail(a, c, x + y);
  }

  /** Isolation: nothing outside the subtree of `r` changes, and emissions are only added. */
  ghost predicate Outside(a: World, b: World, r: RuntimeId) {
    && (forall id {:trigger SameAt(a, b, id)} :: !Within(id, r) ==> SameAt(a, b, id))
    && Emitted(a, b)
  }

  lemma OutsideSelf(a: World, r: RuntimeId)
    ensures Outside(a, a, r)
  {
    EmittedNothing(a, a);
  }

  lemma OutsideTransitive(a: World, b: World, c: World, r: RuntimeId)
    requires Outside(a, b, r) && Outside(b, c, r)
    ensures Outside(a, c, r)
  {
    EmittedTransitive(a, b, c);
    forall id | !Within(id, r) ensures SameAt(a, c, id) {
      assert SameAt(a, b, id) && SameAt(b, c, id);
    }
  }

  lemma OutsideWiden(a: World, b: World, c: RuntimeId, r: RuntimeId)
    requires Outside(a, b, c) && Within(c, r)
    ensures Outside(a, b, r)
  {
    forall id | !Within(id, r) ensures SameAt(a, b, id) {
      if Within(id, c) {
        WithinTransitive(id, c, r);
      }
    }
  }

  /** Apart from `r`, every runtime left is unchanged or has settled. */
  predicate Survivors(program: Program, a: Forest, b: Forest, r: RuntimeId) {
    forall id :: id in b && id != r ==> Survivor(program, a, b, id)
  }

  predicate Survivor(program: Program, a: Forest, b: Forest, id: RuntimeId)
    requires id in b
  {
    (id in a && a[id] == b[id]) || SettledAt(program, b, id)
  }

  lemma SurvivorsTransitive(program: Program, a: Forest, b: Forest, c: Forest, r: RuntimeId)
    requires Survivors(program, a, b, r) && Survivors(program, b, c, r)
    ensures Survivors(program, a, c, r)
  {
    forall id | id in c && id != r ensures Survivor(program, a, c, id) {
      assert Survivor(program, b, c, id);
      if id in b {
        assert Survivor(program, a, b, id);
      }
    }
  }

  /** The component children of `r` are untouched. */
  predicate ComponentsKept(a: Forest, b: Forest, r: RuntimeId) {
    forall id :: id in a && id.Component? && id.owner == r ==> id in b && a[id] == b[id]
  }

  /** Only descendants of `r` have gone, and nothing has come. */
  predicate OnlyRemoved(a: Forest, b: Forest, r: RuntimeId) {
    && b.Keys <= a.Keys
    && (forall id :: id in b && id != r ==> a[id] == b[id])
  }
}
