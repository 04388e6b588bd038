/** The relations between the world before and after a piece of engine work that the
    methods of `Execution` promise, and how they compose. */
module EngineFrames {
  import opened Options
  import opened Statechart
  import opened Runtimes
  import opened RuntimeSteps
  import opened Selection

  /** How a piece of work ended: normally, by a `stop` action, by a step fault, or by a
      Python assertion or recursion error that the engine does not turn into a fault. */
  datatype Flow = Done | Stopped | Raised(code: FaultCode) | Aborted

  datatype View = Plain | WithEvent | OfOwner

  predicate Logged(a: World, b: World, r: RuntimeId, phases: seq<Phase>) {
    LogOf(b, r) == LogOf(a, r) + phases
  }

  lemma LoggedTransitive(a: World, b: World, c: World, r: RuntimeId, x: seq<Phase>, y: seq<Phase>)
    requires Logged(a, b, r, x) && Logged(b, c, r, y)
    ensures Logged(a, c, r, x + y)
  {
    assert LogOf(a, r) + x + y == LogOf(a, r) + (x + y);
  }

  // ---------------------------------------------------------------- actions

  /** Actions of `r` change variables of `r` and its spawn counter, remove instances it
      owns and add settled ones; its components and everything outside stay as they are. */
  ghost predicate Acted(program: Program, a: World, b: World, r: RuntimeId) {
    && Outside(a, b, r)
    && r in a.runtimes && r in b.runtimes
    && SameControl(a.runtimes[r], b.runtimes[r])
    && a.runtimes[r].scopes.Keys == b.runtimes[r].scopes.Keys
    && Survivors(program, a.runtimes, b.runtimes, r)
    && ComponentsKept(a.runtimes, b.runtimes, r)
  }

  lemma ActedSelf(program: Program, a: World, r: RuntimeId)
    requires r in a.runtimes
    ensures Acted(program, a, a, r)
  {
    OutsideSelf(a, r);
  }

  lemma ActedTransitive(program: Program, a: World, b: World, c: World, r: RuntimeId)
    requires Acted(program, a, b, r) && Acted(program, b, c, r)
    ensures Acted(program, a, c, r)
  {
    OutsideTransitive(a, b, c, r);
    SurvivorsTransitive(program, a.runtimes, b.runtimes, c.runtimes, r);
    assert ComponentsKept(a.runtimes, c.runtimes, r);
  }

  lemma ActedFurther(program: Program, a: World, b: World, c: World, r: RuntimeId, phases: seq<Phase>)
    requires Acted(program, a, b, r) && LogOf(a, r) <= LogOf(b, r)
    requires Acted(program, b, c, r) && Logged(b, c, r, phases)
    ensures Acted(program, a, c, r) && LogOf(a, r) <= LogOf(c, r)
    ensures r in c.runtimes && c.runtimes[r].machine == b.runtimes[r].machine && c.runtimes[r].status == b.runtimes[r].status
  {
    ActedTransitive(program, a, b, c, r);
  }

  /** Only the record of `r` differs, and emissions are added. */
  lemma OwnRecord(program: Program, a: World, b: World, r: RuntimeId, y: Runtime)
    requires r in a.runtimes && b.runtimes == a.runtimes[r := y]
    requires (b.emissions == a.emissions && b.nextOutput == a.nextOutput) || Emitted(a, b)
    requires forall id :: id != r ==> LogOf(b, id) == LogOf(a, id)
    ensures Outside(a, b, r) && Survivors(program, a.runtimes, b.runtimes, r)
    ensures ComponentsKept(a.runtimes, b.runtimes, r)
    ensures SameControl(a.runtimes[r], y) && y.scopes.Keys == a.runtimes[r].scopes.Keys ==> Acted(program, a, b, r)
  {
    if b.emissions == a.emissions && b.nextOutput == a.nextOutput {
      EmittedNothing(a, b);
    }
    forall id | id in a.runtimes && id.Component? && id.owner == r ensures id != r {
      ChildNotOwner(id);
    }
  }

  // ---------------------------------------------------------------- removing descendants

  /** The subtree of `c` has gone, with its entry in the owner's component map. */
  ghost predicate CleanedUp(program: Program, a: World, b: World, c: RuntimeId) {
    && b.runtimes == Pruned(program, a.runtimes, c)
    && Emitted(a, b)
    && (forall id {:trigger LogOf(b, id)} :: !Within(id, c) ==> LogOf(b, id) == LogOf(a, id))
  }

  lemma CleanedOutside(program: Program, a: World, b: World, c: RuntimeId, r: RuntimeId)
    requires CleanedUp(program, a, b, c) && !c.Root? && Within(c.owner, r)
    ensures Outside(a, b, r)
  {
    forall id | !Within(id, r) ensures SameAt(a, b, id) {
      if Within(id, c) {
        WithinTransitive(id, c, r);
      }
    }
  }

  /** Some descendants of `r` have gone; its own record lost only component entries. */
  ghost predicate Stripped(a: World, b: World, r: RuntimeId) {
    && Outside(a, b, r)
    && r in a.runtimes && r in b.runtimes
    && b.runtimes[r] == a.runtimes[r].(components := b.runtimes[r].components)
    && OnlyRemoved(a.runtimes, b.runtimes, r)
    && LogOf(b, r) == LogOf(a, r)
  }

  lemma StrippedStep(program: Program, a: World, b: World, c: RuntimeId, r: RuntimeId)
    requires CleanedUp(program, a, b, c) && !c.Root? && c.owner == r && r in a.runtimes && c in a.runtimes
    ensures Stripped(a, b, r)
    ensures Children(b.runtimes, r) == Children(a.runtimes, r) - {c}
  {
    CleanedOutside(program, a, b, c, r);
    OwnerOutside(c, r);
    forall id | id in Children(a.runtimes, r) && id != c ensures id in Children(b.runtimes, r) {
      if Within(id, c) {
        OwnerOutside(c, r);
      }
    }
    assert LogOf(b, r) == LogOf(a, r);
  }

  lemma StrippedTransitive(a: World, b: World, c: World, r: RuntimeId)
    requires Stripped(a, b, r) && Stripped(b, c, r)
    ensures Stripped(a, c, r)
  {
    OutsideTransitive(a, b, c, r);
  }

  /** Cancelling an instance that `r` owns is one of the things actions may do. */
  lemma CancelActed(program: Program, a: World, b: World, c: RuntimeId, r: RuntimeId)
    requires CleanedUp(program, a, b, c) && c.Spawned? && Within(c.owner, r) && r in a.runtimes
    ensures Acted(program, a, b, r) && LogOf(b, r) == LogOf(a, r)
    ensures OnlyRemoved(a.runtimes, b.runtimes, r)
  {
    CleanedOutside(program, a, b, c, r);
    OwnerOutside(c, r);
    assert LogOf(b, r) == LogOf(a, r);
    forall id | id in a.runtimes && id.Component? && id.owner == r
      ensures id in b.runtimes && a.runtimes[id] == b.runtimes[id]
    {
      if Within(id, c) {
        OwnerOutside(c, r);
      }
    }
  }

  // ---------------------------------------------------------------- leaving states

  /** Leaving the active states past the first `n`, innermost first. */
  function LeaveDown(active: seq<Path>, n: nat): seq<Phase> {
    if |active| <= n then []
    else var leaf := active[|active| - 1];
      [Acts(Exit(leaf)), Leaves(leaf)] + LeaveDown(active[..|active| - 1], n)
  }

  /** Entering the states strictly below `boundary` down to `target`, outermost first. */
  function EnterAll(boundary: Path, target: Path): seq<Phase>
    decreases |target|
  {
    if |target| <= |boundary| then []
    else EnterAll(boundary, Parent(target)) + [Enters(target), Acts(Entry(target))]
  }

  predicate LeftRecord(x: Runtime, y: Runtime, n: nat) {
    && n <= |x.active|
    && y == x.(active := x.active[..n], activations := y.activations, scopes := y.scopes, components := y.components)
    && (forall q :: q in y.activations ==> q in x.activations && y.activations[q] == x.activations[q])
    && (forall q :: q in y.scopes ==> q in x.scopes)
  }

  ghost predicate Left(a: World, b: World, r: RuntimeId, n: nat) {
    && Outside(a, b, r)
    && r in a.runtimes && r in b.runtimes
    && LeftRecord(a.runtimes[r], b.runtimes[r], n)
    && OnlyRemoved(a.runtimes, b.runtimes, r)
    && Logged(a, b, r, LeaveDown(a.runtimes[r].active, n))
  }

  lemma LeftSelf(a: World, r: RuntimeId)
    requires r in a.runtimes
    ensures Left(a, a, r, |a.runtimes[r].active|)
  {
    OutsideSelf(a, r);
    assert LogOf(a, r) + [] == LogOf(a, r);
    assert a.runtimes[r].active[..|a.runtimes[r].active|] == a.runtimes[r].active;
  }

  lemma {:induction false} LeaveDownSplit(active: seq<Path>, k: nat, n: nat)
    requires n <= k <= |active|
    ensures LeaveDown(active, k) + LeaveDown(active[..k], n) == LeaveDown(active, n)
  {
    if k == |active| {
      assert active[..k] == active;
    } else {
      var shorter := active[..|active| - 1];
      assert shorter[..k] == active[..k];
      LeaveDownSplit(shorter, k, n);
    }
  }

  lemma LeftTransitive(a: World, b: World, c: World, r: RuntimeId, k: nat, n: nat)
    requires Left(a, b, r, k) && Left(b, c, r, n) && n <= k
    ensures Left(a, c, r, n)
  {
    OutsideTransitive(a, b, c, r);
    assert a.runtimes[r].active[..k][..n] == a.runtimes[r].active[..n];
    LeaveDownSplit(a.runtimes[r].active, k, n);
    LoggedTransitive(a, b, c, r, LeaveDown(a.runtimes[r].active, k), LeaveDown(b.runtimes[r].active, n));
  }

  // ---------------------------------------------------------------- completing

  /** The runtime has completed: an instance is gone, another runtime is empty, and nothing
      it owned is left. */
  predicate Finished(b: Forest, r: RuntimeId) {
    && (if r.Spawned? then r !in b else r in b && b[r].status.Completed?)
    && (forall id :: id in b && Within(id, r) ==> id == r)
  }

  function CompletedForest(a: Forest, r: RuntimeId): Forest {
    map id | id in a && (!Within(id, r) || (id == r && !r.Spawned?)) ::
      if id == r then CompletedRecord(a[id]) else a[id]
  }

  function CompletionEvents(b: Forest, r: RuntimeId): seq<Emission> {
    if r.Root? then []
    else if r.Spawned? then [InstanceDone(r)]
    else [ComponentCompleted(r)] + (if AllComplete(b, r.owner) then [ParallelDone(r.owner, r.slot.state)] else [])
  }

  predicate AllComplete(b: Forest, r: RuntimeId) {
    r in b && forall name :: name in b[r].components ==> b[r].components[name] in b && b[b[r].components[name]].status.Completed?
  }

  predicate EndsWith(all: seq<Emission>, tail: seq<Emission>) {
    |tail| <= |all| && all[|all| - |tail|..] == tail
  }

  ghost predicate Completion(a: World, b: World, r: RuntimeId) {
    && r in a.runtimes
    && b.runtimes == CompletedForest(a.runtimes, r)
    && Outside(a, b, r)
    && Logged(a, b, r, LeaveDown(a.runtimes[r].active, 0))
    && EndsWith(b.emissions, CompletionEvents(b.runtimes, r))
  }

  lemma CompletionFinishes(program: Program, a: World, b: World, r: RuntimeId)
    requires Completion(a, b, r)
    ensures Finished(b.runtimes, r) && Survivors(program, a.runtimes, b.runtimes, r)
  {
  }

  // ---------------------------------------------------------------- entering states

  /** `p` was entered as the new leaf of `r`, with a fresh activation. */
  ghost predicate Entered(program: Program, a: World, b: World, r: RuntimeId, p: Path) {
    && Outside(a, b, r)
    && Survivors(program, a.runtimes, b.runtimes, r)
    && r in a.runtimes && r in b.runtimes
    && EnteredRecord(a.runtimes[r], b.runtimes[r], p)
    && Logged(a, b, r, [Enters(p), Acts(Entry(p))])
  }

  predicate EnteredRecord(x: Runtime, y: Runtime, p: Path) {
    && y.status.Running? && y.machine == x.machine && y.history == x.history
    && y.active == x.active + [p]
    && y.counters == x.counters[p := Next(x.counters, p) + 1]
    && y.activations == x.activations[p := Next(x.counters, p)]
  }

  ghost predicate FinishedBy(program: Program, a: World, b: World, r: RuntimeId) {
    Outside(a, b, r) && Survivors(program, a.runtimes, b.runtimes, r) && Finished(b.runtimes, r)
  }

  lemma FinishedAfter(program: Program, a: World, b: World, c: World, r: RuntimeId)
    requires Outside(a, b, r) && FinishedBy(program, b, c, r)
    ensures FinishedBy(program, a, c, r)
  {
    OutsideTransitive(a, b, c, r);
    forall id | id in c.runtimes && id != r ensures Survivor(program, a.runtimes, c.runtimes, id) {
      assert SameAt(a, c, id);
    }
  }

  // ---------------------------------------------------------------- paths

  /** After walking from `boundary` down to `t`. */
  ghost predicate Walked(x: Runtime, y: Runtime, boundary: Path, t: Path) {
    && y.status.Running? && y.machine == x.machine && y.history == x.history
    && y.active == Chain(t)
    && (forall q {:trigger Kept(x, y, q)} :: q <= boundary ==> Kept(x, y, q))
    && (forall q {:trigger Fresh(x, y, q)} :: Between(boundary, q, t) ==> Fresh(x, y, q))
    && (forall q {:trigger Next(y.counters, q)} :: !Between(boundary, q, t) ==> Next(y.counters, q) == Next(x.counters, q))
  }

  predicate Between(boundary: Path, q: Path, t: Path) {
    boundary <= q && q != boundary && q <= t
  }

  /** The activation of `q` is the one it had. */
  predicate Kept(x: Runtime, y: Runtime, q: Path) {
    q in x.activations && q in y.activations && y.activations[q] == x.activations[q]
  }

  /** The activation of `q` is one that it never had before. */
  predicate Fresh(x: Runtime, y: Runtime, q: Path) {
    q in y.activations && y.activations[q] == Next(x.counters, q)
  }

  ghost predicate WalkedTo(program: Program, a: World, b: World, r: RuntimeId, boundary: Path, t: Path) {
    && Outside(a, b, r)
    && Survivors(program, a.runtimes, b.runtimes, r)
    && r in a.runtimes && r in b.runtimes
    && Walked(a.runtimes[r], b.runtimes[r], boundary, t)
    && Logged(a, b, r, EnterAll(boundary, t))
  }

  lemma WalkedSelf(program: Program, a: World, r: RuntimeId, boundary: Path)
    requires r in a.runtimes && a.runtimes[r].status.Running? && a.runtimes[r].active == Chain(boundary)
    requires a.runtimes[r].activations.Keys == (set q | q in a.runtimes[r].active)
    ensures WalkedTo(program, a, a, r, boundary, boundary)
  {
    OutsideSelf(a, r);
    assert LogOf(a, r) + [] == LogOf(a, r);
    var x := a.runtimes[r];
    forall q | q <= boundary ensures Kept(x, x, q) {
      ChainMember(q, boundary);
    }
    forall q ensures !Between(boundary, q, boundary) {
    }
  }

  lemma WalkedStep(x: Runtime, y: Runtime, z: Runtime, boundary: Path, t: Path, p: Path)
    requires Walked(x, y, boundary, t) && EnteredRecord(y, z, p)
    requires p != [] && Parent(p) == t && boundary <= t
    ensures Walked(x, z, boundary, p)
  {
    ChainGrows(p);
    forall q | q <= boundary ensures Kept(x, z, q) {
      assert Kept(x, y, q);
    }
    forall q | Between(boundary, q, p) ensures Fresh(x, z, q) {
      if q != p {
        PrefixOfParent(q, p);
        assert Fresh(x, y, q);
      } else {
        assert !Between(boundary, p, t);
        assert Next(y.counters, p) == Next(x.counters, p);
      }
    }
    forall q | !Between(boundary, q, p) ensures Next(z.counters, q) == Next(x.counters, q) {
      if Between(boundary, q, t) {
        PrefixOfParent(q, p);
      }
      assert Next(y.counters, q) == Next(x.counters, q);
    }
  }

  lemma WalkedFurther(program: Program, a: World, b: World, c: World, r: RuntimeId, boundary: Path, t: Path, p: Path)
    requires WalkedTo(program, a, b, r, boundary, t) && Entered(program, b, c, r, p)
    requires p != [] && Parent(p) == t && boundary <= t
    ensures WalkedTo(program, a, c, r, boundary, p)
  {
    OutsideTransitive(a, b, c, r);
    SurvivorsTransitive(program, a.runtimes, b.runtimes, c.runtimes, r);
    WalkedStep(a.runtimes[r], b.runtimes[r], c.runtimes[r], boundary, t, p);
    LoggedTransitive(a, b, c, r, EnterAll(boundary, t), [Enters(p), Acts(Entry(p))]);
  }

  /** `r` rests at or below `target`, having kept the states down to `boundary` and freshly
      entered those from there to `target`; at `target` exactly unless it is composite. */
  ghost predicate Arrived(m: Machine, x: Runtime, y: Runtime, boundary: Path, target: Path) {
    && y.status.Running? && y.machine == x.machine && y.history == x.history
    && y.active != [] && Settled(m, y)
    && target <= LeafOf(y)
    && (target in m && !m[target].kind.Composite? ==> LeafOf(y) == target)
    && (forall q {:trigger Kept(x, y, q)} :: q <= boundary ==> Kept(x, y, q))
    && (forall q {:trigger Fresh(x, y, q)} :: Between(boundary, q, target) ==> Fresh(x, y, q))
  }

  lemma ArrivedAfter(m: Machine, x: Runtime, y: Runtime, z: Runtime, boundary: Path, target: Path, d: Path)
    requires Walked(x, y, boundary, target) && Arrived(m, y, z, target, d)
    requires boundary <= target <= d
    ensures Arrived(m, x, z, boundary, d)
  {
    forall q | q <= boundary ensures Kept(x, z, q) {
      assert Kept(x, y, q) && Kept(y, z, q);
    }
    forall q | Between(boundary, q, d) ensures Fresh(x, z, q) {
      if q <= target {
        assert Fresh(x, y, q) && Kept(y, z, q);
      } else {
        assert target == d[..|target|] && q == d[..|q|];
        assert |target| < |q|;
        assert Fresh(y, z, q);
        assert Next(y.counters, q) == Next(x.counters, q);
      }
    }
  }

  /** Where a successful entry leads: `r` completed on the way, or it rests below `target`. */
  ghost predicate Reached(program: Program, a: World, b: World, r: RuntimeId, boundary: Path, target: Path) {
    && Outside(a, b, r)
    && Survivors(program, a.runtimes, b.runtimes, r)
    && r in a.runtimes && a.runtimes[r].machine in program.machines
    && (Finished(b.runtimes, r)
        || (r in b.runtimes && Arrived(program.machines[a.runtimes[r].machine], a.runtimes[r], b.runtimes[r], boundary, target)))
    && LogOf(a, r) + EnterAll(boundary, target) <= LogOf(b, r)
  }

  lemma {:induction false} EnterAllSplit(a: Path, b: Path, c: Path)
    requires a <= b <= c
    ensures EnterAll(a, c) == EnterAll(a, b) + EnterAll(b, c)
  {
    if b == c {
    } else {
      PrefixOfParent(b, c);
      EnterAllSplit(a, b, Parent(c));
    }
  }

  lemma ReachedAfter(program: Program, a: World, b: World, c: World, r: RuntimeId, boundary: Path, target: Path, d: Path)
    requires WalkedTo(program, a, b, r, boundary, target) && Reached(program, b, c, r, target, d)
    requires a.runtimes[r].machine in program.machines && boundary <= target <= d
    ensures Reached(program, a, c, r, boundary, d)
  {
    OutsideTransitive(a, b, c, r);
    SurvivorsTransitive(program, a.runtimes, b.runtimes, c.runtimes, r);
    EnterAllSplit(boundary, target, d);
    assert LogOf(a, r) + EnterAll(boundary, d) == LogOf(a, r) + EnterAll(boundary, target) + EnterAll(target, d);
    if !Finished(c.runtimes, r) {
      ArrivedAfter(program.machines[a.runtimes[r].machine], a.runtimes[r], b.runtimes[r], c.runtimes[r], boundary, target, d);
    }
  }

  // ---------------------------------------------------------------- starting a child

  /** A contained initialization: it touches only the child's subtree and leaves it settled,
      and when it fails the world is the one before it, but for the child's fault and
      exactly one failure event. */
  ghost predicate ContainedStart(program: Program, a: World, b: World, child: RuntimeId) {
    && Outside(a, b, child)
    && Survivors(program, a.runtimes, b.runtimes, child)
    && (child in b.runtimes ==> SettledAt(program, b.runtimes, child))
    && (!child.Spawned? ==> child in b.runtimes)
    && (child in b.runtimes && b.runtimes[child].status.Faulted? ==>
          FailureContained(a, b, child) && !Faultless(program))
  }

  predicate FailureContained(a: World, b: World, child: RuntimeId)
    requires child in b.runtimes
  {
    && child in a.runtimes
    && b.runtimes[child].fault.Some?
    && var fault := b.runtimes[child].fault.value;
       b.runtimes == a.runtimes[child := InitFault(a.runtimes[child], fault)]
       && b.nextOutput == a.nextOutput
       && b.emissions == a.emissions + [FailureEvent(child, fault)]
  }

  function FailureEvent(child: RuntimeId, fault: FaultCode): Emission {
    if child.Component? then ComponentFailed(child, fault) else InstanceFailed(child, fault)
  }

  /** Initialization that did not fault. */
  ghost predicate Started(program: Program, a: World, b: World, r: RuntimeId) {
    && Outside(a, b, r)
    && Survivors(program, a.runtimes, b.runtimes, r)
    && (r in b.runtimes ==> SettledAt(program, b.runtimes, r) && !b.runtimes[r].status.Faulted?)
    && (!r.Spawned? ==> r in b.runtimes)
  }

  /** Spawning an instance is one of the things actions may do. */
  lemma SpawnActed(program: Program, a: World, b: World, c: World, r: RuntimeId, child: RuntimeId, y: Runtime, rt: Runtime)
    requires r in a.runtimes && child.Spawned? && child.owner == r && child !in a.runtimes
    requires SameControl(a.runtimes[r], y) && y.scopes.Keys == a.runtimes[r].scopes.Keys
    requires b == a.(runtimes := a.runtimes[r := y][child := rt])
    requires ContainedStart(program, b, c, child)
    ensures Acted(program, a, c, r) && LogOf(c, r) == LogOf(a, r)
  {
    OwnerOutside(child, r);
    assert Outside(a, b, r) by {
      EmittedNothing(a, b);
      forall id | !Within(id, r) ensures SameAt(a, b, id) {
      }
    }
    OutsideWiden(b, c, child, r);
    OutsideTransitive(a, b, c, r);
    assert SameAt(b, c, r);
    forall id | id in c.runtimes && id != r ensures Survivor(program, a.runtimes, c.runtimes, id) {
      if id != child {
        assert Survivor(program, b.runtimes, c.runtimes, id);
      }
    }
    forall id | id in a.runtimes && id.Component? && id.owner == r
      ensures id in c.runtimes && a.runtimes[id] == c.runtimes[id]
    {
      ChildNotOwner(id);
      SiblingOutside(id, child);
      assert SameAt(b, c, id);
    }
  }

  lemma SiblingOutside(a: RuntimeId, b: RuntimeId)
    requires !a.Root? && !b.Root? && a.owner == b.owner && a != b
    ensures !Within(a, b)
  {
    OwnerOutside(b, b.owner);
  }

  // ---------------------------------------------------------------- the components of a parallel state

  predicate PendingAt(program: Program, b: Forest, r: RuntimeId, p: Path, pending: seq<RuntimeId>, i: nat)
    requires i < |pending| && r in b
  {
    var c := pending[i];
    && c.Component? && c.owner == r && c.slot == Slot(b[r].machine, p, i)
    && c in b && IsNew(program, b[c])
    && b[r].machine in program.machines && p in program.machines[b[r].machine]
    && i < |program.machines[b[r].machine][p].components|
    && b[c].machine == program.machines[b[r].machine][p].components[i].machine
  }

  /** Every placement of `p` up to `n` has a new component; nothing else has changed. */
  ghost predicate AllocatedUpTo(program: Program, a: World, b: World, r: RuntimeId, p: Path, pending: seq<RuntimeId>) {
    && b == a.(runtimes := b.runtimes)
    && r in a.runtimes && r in b.runtimes
    && b.runtimes[r] == a.runtimes[r].(components := b.runtimes[r].components, nextComponent := b.runtimes[r].nextComponent)
    && (forall i {:trigger PendingAt(program, b.runtimes, r, p, pending, i)} ::
          0 <= i < |pending| ==> PendingAt(program, b.runtimes, r, p, pending, i))
    && (forall id :: id in b.runtimes && id != r && id !in pending ==> id in a.runtimes)
    && (forall id :: id in a.runtimes && id != r ==> id in b.runtimes && b.runtimes[id] == a.runtimes[id])
    && (forall id :: id in pending ==> id !in a.runtimes && !id.Root? && id.owner == r)
  }

  ghost predicate InitializedAll(program: Program, a: World, b: World, r: RuntimeId, pending: seq<RuntimeId>) {
    && Outside(a, b, r)
    && r in a.runtimes && r in b.runtimes && a.runtimes[r] == b.runtimes[r]
    && LogOf(b, r) == LogOf(a, r)
    && Survivors(program, a.runtimes, b.runtimes, r)
    && (forall i :: 0 <= i < |pending| ==> pending[i] in b.runtimes && SettledAt(program, b.runtimes, pending[i]))
  }

  /** `p` is the new leaf of `r`, with the components that wait to be started. */
  ghost predicate Opened(program: Program, a: World, b: World, r: RuntimeId, p: Path, pending: seq<RuntimeId>) {
    r in a.runtimes && exists scope :: OpenedWith(program, a, b, r, p, scope, pending)
  }

  ghost predicate OpenedWith(
    program: Program, a: World, b: World, r: RuntimeId, p: Path, scope: Scope, pending: seq<RuntimeId>)
    requires r in a.runtimes
  {
    AllocatedUpTo(program,
                  a.(runtimes := a.runtimes[r := EnterRecord(a.runtimes[r], p, scope)],
                     log := a.log[r := LogOf(a, r) + [Enters(p)]]),
                  b, r, p, pending)
  }

  lemma OpenedFacts(program: Program, a: World, b: World, r: RuntimeId, p: Path, pending: seq<RuntimeId>)
    requires Opened(program, a, b, r, p, pending)
    ensures Outside(a, b, r) && r in a.runtimes && r in b.runtimes
    ensures b.runtimes[r].machine == a.runtimes[r].machine && b.runtimes[r].status == a.runtimes[r].status
  {
    var scope :| OpenedWith(program, a, b, r, p, scope, pending);
    var w1 := a.(runtimes := a.runtimes[r := EnterRecord(a.runtimes[r], p, scope)],
                 log := a.log[r := LogOf(a, r) + [Enters(p)]]);
    EnterOutside(program, a, w1, b, r, p, scope, pending);
  }

  lemma OpenedComposes(
    program: Program, w0: World, w2: World, w3: World, w4: World, r: RuntimeId, p: Path, pending: seq<RuntimeId>)
    requires r in w0.runtimes && w0.runtimes[r].status.Running?
    requires Opened(program, w0, w2, r, p, pending)
    requires Acted(program, w2, w3, r) && Logged(w2, w3, r, [Acts(Entry(p))])
    requires InitializedAll(program, w3, w4, r, pending)
    ensures Entered(program, w0, w4, r, p)
  {
    hide Acted, AllocatedUpTo, InitializedAll, Entered;
    var scope :| OpenedWith(program, w0, w2, r, p, scope, pending);
    var w1 := w0.(runtimes := w0.runtimes[r := EnterRecord(w0.runtimes[r], p, scope)],
                  log := w0.log[r := LogOf(w0, r) + [Enters(p)]]);
    EnterComposes(program, w0, w1, w2, w3, w4, r, p, scope, pending);
  }

  lemma OpenedPending(program: Program, a: World, b: World, c: World, r: RuntimeId, p: Path, pending: seq<RuntimeId>)
    requires Opened(program, a, b, r, p, pending) && Acted(program, b, c, r)
    ensures PendingFrom(program, c.runtimes, r, p, pending, 0)
  {
    hide Acted, AllocatedUpTo;
    var scope :| OpenedWith(program, a, b, r, p, scope, pending);
    var w1 := a.(runtimes := a.runtimes[r := EnterRecord(a.runtimes[r], p, scope)],
                 log := a.log[r := LogOf(a, r) + [Enters(p)]]);
    PendingKept(program, w1, b, c, r, p, pending);
  }

  /** From entry to the last component: the state was entered. */
  lemma EnterComposes(
    program: Program, w0: World, w1: World, w2: World, w3: World, w4: World, r: RuntimeId, p: Path, scope: Scope,
    pending: seq<RuntimeId>)
    requires r in w0.runtimes && w0.runtimes[r].status.Running?
    requires w1 == w0.(runtimes := w0.runtimes[r := EnterRecord(w0.runtimes[r], p, scope)],
                       log := w0.log[r := LogOf(w0, r) + [Enters(p)]])
    requires AllocatedUpTo(program, w1, w2, r, p, pending)
    requires Acted(program, w2, w3, r) && Logged(w2, w3, r, [Acts(Entry(p))])
    requires InitializedAll(program, w3, w4, r, pending)
    ensures Entered(program, w0, w4, r, p)
  {
    EnterOutside(program, w0, w1, w2, r, p, scope, pending);
    OutsideTransitive(w0, w2, w3, r);
    OutsideTransitive(w0, w3, w4, r);
    SurvivorsTransitive(program, w2.runtimes, w3.runtimes, w4.runtimes, r);
    forall id | id in w4.runtimes && id != r ensures Survivor(program, w0.runtimes, w4.runtimes, id) {
      assert Survivor(program, w2.runtimes, w4.runtimes, id);
      if id in pending {
        var i :| 0 <= i < |pending| && pending[i] == id;
      }
    }
    assert LogOf(w4, r) == LogOf(w0, r) + [Enters(p)] + [Acts(Entry(p))];
    assert LogOf(w4, r) == LogOf(w0, r) + [Enters(p), Acts(Entry(p))];
  }

  lemma EnterOutside(
    program: Program, w0: World, w1: World, w2: World, r: RuntimeId, p: Path, scope: Scope, pending: seq<RuntimeId>)
    requires r in w0.runtimes
    requires w1 == w0.(runtimes := w0.runtimes[r := EnterRecord(w0.runtimes[r], p, scope)],
                       log := w0.log[r := LogOf(w0, r) + [Enters(p)]])
    requires AllocatedUpTo(program, w1, w2, r, p, pending)
    ensures Outside(w0, w2, r)
    ensures LogOf(w2, r) == LogOf(w0, r) + [Enters(p)]
  {
    EmittedNothing(w0, w2);
    forall id | id in pending ensures Within(id, r) {
      assert Within(id.owner, r);
    }
    forall id | !Within(id, r) ensures SameAt(w0, w2, id) {
    }
  }

  // ---------------------------------------------------------------- small facts about cleanup

  predicate Silent(a: World, b: World) {
    b.emissions == a.emissions && b.nextOutput == a.nextOutput && b.log == a.log
  }

  lemma SilentAfter(a: World, b: World, c: World)
    requires c == b.(runtimes := c.runtimes)
    ensures Silent(a, b) ==> Silent(a, c)
  {
  }

  lemma OnlyRemovedSelf(a: Forest, r: RuntimeId)
    ensures OnlyRemoved(a, a, r)
  {
  }

  lemma OnlyRemovedTransitive(a: Forest, b: Forest, c: Forest, r: RuntimeId)
    requires OnlyRemoved(a, b, r) && OnlyRemoved(b, c, r)
    ensures OnlyRemoved(a, c, r)
  {
  }

  lemma SubtreeShrinks(a: Forest, b: Forest, r: RuntimeId)
    requires OnlyRemoved(a, b, r)
    ensures Subtree(b, r) <= Subtree(a, r)
  {
  }

  lemma SubtreeBelow(rs: Forest, c: RuntimeId, r: RuntimeId)
    requires r in rs && Within(c, r) && c != r
    ensures Subtree(rs, c) < Subtree(rs, r)
  {
    OwnerOutside(c, r);
    forall id | id in Subtree(rs, c) ensures id in Subtree(rs, r) {
      WithinTransitive(id, c, r);
    }
    assert r in Subtree(rs, r) && r !in Subtree(rs, c);
  }

  lemma PrunedSame(program: Program, a: World, b: World, c: RuntimeId)
    requires Outside(a, b, c) && !c.Root?
    ensures Pruned(program, b.runtimes, c) == Pruned(program, a.runtimes, c)
  {
    forall id | !Within(id, c) ensures SameAt(a, b, id) {
    }
  }

  /** Removing a childless runtime and its entry is pruning it. */
  lemma PrunedLast(program: Program, rs: Forest, c: RuntimeId)
    requires Ok(program, rs) && c in rs && !c.Root? && Children(rs, c) == {}
    ensures c.Component? ==>
              && c.owner in rs
              && ComponentName(program, c.slot) in rs[c.owner].components
              && rs[c.owner].components[ComponentName(program, c.slot)] == c
              && rs[c.owner := DropComponent(rs[c.owner], ComponentName(program, c.slot))] - {c} == Pruned(program, rs, c)
    ensures c.Spawned? ==> rs - {c} == Pruned(program, rs, c)
  {
    Childless(program, rs, c);
    assert RuntimeOk(program, rs, c);
    OwnerOutside(c, c.owner);
  }

  function BoundChildren(rs: Forest, r: RuntimeId, p: Path): set<RuntimeId> {
    set c | c in Children(rs, r) && BoundTo(rs, c, p)
  }

  lemma CompletedSame(a: World, b: World, r: RuntimeId)
    requires Outside(a, b, r) && r in a.runtimes && r in b.runtimes
    requires forall id :: id in b.runtimes && Within(id, r) ==> id == r
    ensures r.Spawned? ==> b.runtimes - {r} == CompletedForest(a.runtimes, r)
    ensures !r.Spawned? ==> b.runtimes[r := CompletedRecord(a.runtimes[r])] == CompletedForest(a.runtimes, r)
  {
    forall id | !Within(id, r) ensures SameAt(a, b, id) {
    }
  }

  // ---------------------------------------------------------------- unfolding one relation at a time

  lemma OutsideAt(a: World, b: World, c: RuntimeId, r: RuntimeId)
    requires Outside(a, b, c) && !Within(r, c)
    ensures SameAt(a, b, r)
  {
  }

  lemma MachineKnown(program: Program, rs: Forest, c: RuntimeId)
    requires Ok(program, rs) && c in rs
    ensures rs[c].machine in program.machines
  {
    assert RuntimeOk(program, rs, c);
  }

  lemma LeafKnown(program: Program, rs: Forest, r: RuntimeId)
    requires Ok(program, rs) && r in rs && rs[r].active != [] && rs[r].machine in program.machines
    ensures LeafOf(rs[r]) in program.machines[rs[r].machine]
    ensures rs[r].active == Chain(LeafOf(rs[r])) && rs[r].activations.Keys == (set q | q in rs[r].active)
  {
    assert RuntimeOk(program, rs, r);
  }

  lemma StrippedSelf(a: World, r: RuntimeId)
    requires r in a.runtimes
    ensures Stripped(a, a, r)
  {
    OutsideSelf(a, r);
  }

  lemma StrippedFacts(a: World, b: World, r: RuntimeId)
    requires Stripped(a, b, r)
    ensures Outside(a, b, r) && r in a.runtimes && r in b.runtimes
    ensures b.runtimes[r] == a.runtimes[r].(components := b.runtimes[r].components)
    ensures OnlyRemoved(a.runtimes, b.runtimes, r) && LogOf(b, r) == LogOf(a, r)
    ensures CompletedRecord(b.runtimes[r]) == CompletedRecord(a.runtimes[r])
  {
  }

  lemma ActedFacts(program: Program, a: World, b: World, r: RuntimeId)
    requires Acted(program, a, b, r)
    ensures Outside(a, b, r) && r in a.runtimes && r in b.runtimes
    ensures SameControl(a.runtimes[r], b.runtimes[r]) && a.runtimes[r].scopes.Keys == b.runtimes[r].scopes.Keys
    ensures Survivors(program, a.runtimes, b.runtimes, r)
  {
  }

  lemma UnboundLeaf(a: Forest, b: Forest, c: Forest, r: RuntimeId, p: Path)
    requires OnlyRemoved(a, b, r) && OnlyRemoved(b, c, r)
    requires Children(b, r) == Children(a, r) - BoundChildren(a, r, p)
    ensures forall k :: k in Children(c, r) ==> !BoundTo(c, k, p)
  {
    forall k | k in Children(c, r) ensures !BoundTo(c, k, p) {
      ChildNotOwner(k);
      assert k in Children(b, r);
    }
  }

  lemma LeftFacts(a: World, b: World, r: RuntimeId, n: nat)
    requires Left(a, b, r, n)
    ensures Outside(a, b, r) && r in a.runtimes && r in b.runtimes
    ensures n <= |a.runtimes[r].active| && b.runtimes[r].active == a.runtimes[r].active[..n]
    ensures b.runtimes[r].status == a.runtimes[r].status && b.runtimes[r].machine == a.runtimes[r].machine
    ensures OnlyRemoved(a.runtimes, b.runtimes, r)
    ensures CompletedRecord(b.runtimes[r]) == CompletedRecord(a.runtimes[r])
  {
  }

  lemma LeftOnce(program: Program, w0: World, w1: World, w2: World, w3: World, r: RuntimeId)
    requires Stripped(w0, w1, r) && w0.runtimes[r].active != []
    requires Acted(program, w1, w2, r) && OnlyRemoved(w1.runtimes, w2.runtimes, r)
    requires w2.runtimes[r].nextSpawn == w1.runtimes[r].nextSpawn
    requires Logged(w1, w2, r, [Acts(Exit(LeafOf(w0.runtimes[r])))])
    requires w3 == w2.(runtimes := w2.runtimes[r := ExitRecord(w2.runtimes[r])],
                       log := Note(w2.log, r, Leaves(LeafOf(w0.runtimes[r]))))
    ensures Left(w0, w3, r, |w0.runtimes[r].active| - 1)
  {
    var active := w0.runtimes[r].active;
    OutsideTransitive(w0, w1, w2, r);
    EmittedNothing(w2, w3);
    EmittedTransitive(w0, w2, w3);
    forall id | !Within(id, r) ensures SameAt(w0, w3, id) {
      assert SameAt(w0, w2, id);
    }
    assert LeaveDown(active[..|active| - 1], |active| - 1) == [];
    assert LeaveDown(active, |active| - 1) == [Acts(Exit(LeafOf(w0.runtimes[r]))), Leaves(LeafOf(w0.runtimes[r]))];
  }

  lemma StillChildless(program: Program, a: Forest, b: Forest, r: RuntimeId)
    requires OnlyRemoved(a, b, r) && Children(a, r) == {} && Ok(program, b)
    ensures Children(b, r) == {}
    ensures forall id :: id in b && Within(id, r) ==> id == r
  {
    assert Children(b, r) <= Children(a, r);
    Childless(program, b, r);
  }

  lemma CleanedUpFrom(program: Program, a: World, b: World, c: World, r: RuntimeId)
    requires Outside(a, b, r) && !r.Root?
    requires c == b.(runtimes := Pruned(program, b.runtimes, r))
    ensures CleanedUp(program, a, c, r)
  {
    PrunedSame(program, a, b, r);
    forall id | !Within(id, r) ensures LogOf(c, id) == LogOf(a, id) {
      assert SameAt(a, b, id);
    }
  }

  lemma SilentOne(n: nat, e: Emission)
    requires !e.External?
    ensures Numbering(n, [e]) == Some(n)
  {
    assert [e][..0] == [];
  }

  lemma CompletionSilent(n: nat, b: Forest, r: RuntimeId)
    ensures Numbering(n, CompletionEvents(b, r)) == Some(n)
  {
    if !r.Root? && !r.Spawned? {
      var done, all := ComponentCompleted(r), ParallelDone(r.owner, r.slot.state);
      SilentOne(n, done);
      SilentOne(n, all);
      NumberingJoins(n, [done], [all]);
      assert [done] + [] == [done];
    } else if r.Spawned? {
      SilentOne(n, InstanceDone(r));
    }
  }

  lemma CompletionFrom(w0: World, w1: World, w2: World, w3: World, r: RuntimeId)
    requires Stripped(w0, w1, r) && Left(w1, w2, r, 0)
    requires w3.runtimes == CompletedForest(w0.runtimes, r)
    requires w3.emissions == w2.emissions + CompletionEvents(w3.runtimes, r) && w3.log == w2.log
    requires w3.nextOutput == w2.nextOutput
    ensures Completion(w0, w3, r)
  {
    CompletionSilent(w2.nextOutput, w3.runtimes, r);
    EmittedTail(w2, w3, CompletionEvents(w3.runtimes, r));
    OutsideTransitive(w0, w1, w2, r);
    EmittedTransitive(w0, w2, w3);
    forall id | !Within(id, r) ensures SameAt(w0, w3, id) {
      assert SameAt(w0, w2, id);
    }
    var tail := CompletionEvents(w3.runtimes, r);
    assert w3.emissions[|w3.emissions| - |tail|..] == tail;
  }

  /** What `cancel` does with the value of its expression: nothing, unless it refers to a
      present spawned instance that `r` owns; that instance's subtree then goes. */
  ghost predicate Cancelled(program: Program, a: World, b: World, r: RuntimeId, v: Option<Value>) {
    && v.Some?
    && if v.value.Reference? && v.value.instance.Spawned? && v.value.instance in a.runtimes
          && Within(v.value.instance, r) && v.value.instance != r
       then CleanedUp(program, a, b, v.value.instance)
       else b == a
  }

  // ---------------------------------------------------------------- contained initialization

  ghost predicate OnlySubtreeDiffers(a: Forest, b: Forest, r: RuntimeId) {
    forall id {:trigger Within(id, r)} :: !Within(id, r) ==>
      (id in a <==> id in b) && (id in a ==> a[id] == b[id])
  }

  lemma OutsideForest(a: World, b: World, r: RuntimeId)
    requires Outside(a, b, r)
    ensures OnlySubtreeDiffers(a.runtimes, b.runtimes, r) && a.emissions <= b.emissions
  {
    forall id | !Within(id, r) ensures (id in a.runtimes <==> id in b.runtimes) && (id in a.runtimes ==> a.runtimes[id] == b.runtimes[id]) {
      assert SameAt(a, b, id);
    }
  }

  /** Dropping what is new and restoring the child restores a forest of which only the
      child's subtree differs. */
  lemma RestoredAll(a: Forest, b: Forest, c: Forest, child: RuntimeId)
    requires child in a && OnlySubtreeDiffers(a, b, child)
    requires forall id :: id in a && Within(id, child) ==> id == child
    requires forall id :: id in c <==> id in b && id in a
    requires forall id :: id in c ==> c[id] == b[id]
    ensures c[child := a[child]] == a
  {
    var d := c[child := a[child]];
    forall id ensures (id in d <==> id in a) && (id in d ==> d[id] == a[id]) {
      if id != child && !Within(id, child) {
        assert id in a <==> id in b;
      }
    }
  }

  lemma NewIsNew(program: Program, id: MachineId, owningActivation: nat, holder: Option<Holder>)
    requires id in program.machines
    ensures IsNew(program, NewRuntime(program.machines[id], id, owningActivation, holder))
  {
  }

  lemma FailedStart(program: Program, a: World, b: World, child: RuntimeId, fault: FaultCode)
    requires child in a.runtimes && !child.Root? && a.runtimes[child].machine in program.machines
    requires b.runtimes == a.runtimes[child := InitFault(a.runtimes[child], fault)] && b.nextOutput == a.nextOutput
    requires b.emissions == a.emissions + [FailureEvent(child, fault)]
    requires forall id {:trigger LogOf(b, id)} :: !Within(id, child) ==> LogOf(b, id) == LogOf(a, id)
    requires !Faultless(program)
    ensures ContainedStart(program, a, b, child)
  {
    assert [FailureEvent(child, fault)][..0] == [];
    EmittedTail(a, b, [FailureEvent(child, fault)]);
    forall id | !Within(id, child) ensures SameAt(a, b, id) {
      assert LogOf(b, id) == LogOf(a, id);
    }
  }

  lemma StartedContained(program: Program, a: World, b: World, child: RuntimeId)
    requires Started(program, a, b, child)
    ensures ContainedStart(program, a, b, child)
  {
  }

  lemma StartedRuns(program: Program, a: World, b: World, r: RuntimeId)
    requires Started(program, a, b, r)
    ensures r in b.runtimes ==> !b.runtimes[r].status.Faulted?
  {
  }

  // ---------------------------------------------------------------- from entry to rest

  lemma EnteredFacts(program: Program, a: World, b: World, r: RuntimeId, p: Path)
    requires Entered(program, a, b, r, p)
    ensures Outside(a, b, r) && Survivors(program, a.runtimes, b.runtimes, r)
    ensures r in a.runtimes && r in b.runtimes && EnteredRecord(a.runtimes[r], b.runtimes[r], p)
  {
  }

  /** A non-composite, non-final entered leaf is at rest. */
  lemma EnteredSettles(program: Program, a: World, b: World, r: RuntimeId, p: Path)
    requires Entered(program, a, b, r, p) && a.runtimes[r].machine in program.machines
    requires p in program.machines[a.runtimes[r].machine]
    requires program.machines[a.runtimes[r].machine][p].kind.Simple? || program.machines[a.runtimes[r].machine][p].kind.Parallel?
    ensures Started(program, a, b, r)
  {
  }

  lemma CompletionStarts(program: Program, a: World, b: World, c: World, r: RuntimeId)
    requires Outside(a, b, r) && Completion(b, c, r) && Ok(program, c.runtimes)
    ensures FinishedBy(program, a, c, r) && Started(program, a, c, r)
  {
    CompletionFinishes(program, b, c, r);
    FinishedAfter(program, a, b, c, r);
    if r in c.runtimes {
      assert RuntimeOk(program, c.runtimes, r);
    }
  }

  lemma FinalReached(program: Program, a: World, b: World, c: World, r: RuntimeId, boundary: Path, target: Path)
    requires target != [] && WalkedTo(program, a, b, r, boundary, Parent(target)) && boundary <= Parent(target)
    requires FinishedBy(program, b, c, r) && a.runtimes[r].machine in program.machines
    requires LogOf(b, r) + [Enters(target), Acts(Entry(target))] <= LogOf(c, r)
    ensures Reached(program, a, c, r, boundary, target)
  {
    FinishedAfter(program, a, b, c, r);
    assert LogOf(a, r) + EnterAll(boundary, Parent(target)) + [Enters(target), Acts(Entry(target))]
        == LogOf(a, r) + EnterAll(boundary, target);
  }

  lemma WalkedReached(program: Program, a: World, b: World, r: RuntimeId, boundary: Path, target: Path)
    requires WalkedTo(program, a, b, r, boundary, target) && a.runtimes[r].machine in program.machines
    requires target in program.machines[a.runtimes[r].machine]
    requires program.machines[a.runtimes[r].machine][target].kind.Simple? || program.machines[a.runtimes[r].machine][target].kind.Parallel?
    ensures Reached(program, a, b, r, boundary, target)
  {
  }

  lemma WalkedFacts(program: Program, a: World, b: World, r: RuntimeId, boundary: Path, t: Path)
    requires WalkedTo(program, a, b, r, boundary, t)
    ensures Outside(a, b, r) && r in a.runtimes && r in b.runtimes
    ensures b.runtimes[r].status.Running? && b.runtimes[r].machine == a.runtimes[r].machine
    ensures b.runtimes[r].active == Chain(t) && LeafOf(b.runtimes[r]) == t
    ensures b.runtimes[r].history == a.runtimes[r].history
  {
  }

  /** Where a composite leads when entered by default or through its history. */
  function Destination(x: Runtime, p: Path, history: bool): Path {
    if history && p in x.history && x.history[p].Some? then x.history[p].value else p
  }

  lemma DestinationBelow(program: Program, rs: Forest, r: RuntimeId, p: Path, history: bool)
    requires Ok(program, rs) && r in rs && rs[r].machine in program.machines
    ensures var d := Destination(rs[r], p, history);
      p <= d && (d != p ==> d in program.machines[rs[r].machine] && RecordOk(program.machines[rs[r].machine], p, d))
    ensures p in program.machines[rs[r].machine] && program.machines[rs[r].machine][p].history.NoHistory? ==>
              Destination(rs[r], p, history) == p
    ensures history && p in rs[r].history && rs[r].history[p].Some? ==> Destination(rs[r], p, history) != p
  {
    assert RuntimeOk(program, rs, r);
  }

  lemma DestinationCases(program: Program, rs: Forest, r: RuntimeId, p: Path, history: bool)
    requires Loaded(program) && Ok(program, rs) && r in rs && rs[r].machine in program.machines
    requires p in program.machines[rs[r].machine]
    ensures var d := Destination(rs[r], p, history);
      && p <= d
      && d == (if history && p in rs[r].history && rs[r].history[p].Some? then rs[r].history[p].value else p)
      && (!program.machines[rs[r].machine][p].kind.Composite? ==> d == p)
  {
    DestinationBelow(program, rs, r, p, history);
    HistoryComposite(program, rs[r].machine, p);
  }

  /** Resting below `target` is resting below the composite it was reached from. */
  lemma ReachedHigher(program: Program, a: World, b: World, r: RuntimeId, p: Path, target: Path)
    requires Reached(program, a, b, r, p, target) && p <= target
    requires p in program.machines[a.runtimes[r].machine] && program.machines[a.runtimes[r].machine][p].kind.Composite?
    ensures Reached(program, a, b, r, p, p)
  {
    assert EnterAll(p, p) == [];
    forall q ensures !Between(p, q, p) {
    }
  }

  /** Actions before an entry do not disturb where it rests. */
  lemma ActedThenReached(program: Program, a: World, b: World, c: World, r: RuntimeId, p: Path)
    requires Acted(program, a, b, r) && LogOf(a, r) <= LogOf(b, r) && Reached(program, b, c, r, p, p)
    ensures Reached(program, a, c, r, p, p)
  {
    assert EnterAll(p, p) == [];
    assert LogOf(b, r) + [] == LogOf(b, r) && LogOf(a, r) + [] == LogOf(a, r);
    OutsideTransitive(a, b, c, r);
    SurvivorsTransitive(program, a.runtimes, b.runtimes, c.runtimes, r);
    if !Finished(c.runtimes, r) {
      var x, y, z := a.runtimes[r], b.runtimes[r], c.runtimes[r];
      forall q | q <= p ensures Kept(x, z, q) {
        assert Kept(y, z, q);
      }
      forall q ensures !Between(p, q, p) {
      }
    }
  }

  lemma FinishedStarts(program: Program, a: World, b: World, r: RuntimeId)
    requires FinishedBy(program, a, b, r) && Ok(program, b.runtimes)
    ensures Started(program, a, b, r)
  {
    if r in b.runtimes {
      assert RuntimeOk(program, b.runtimes, r);
    }
  }

  lemma FinishedFacts(program: Program, a: World, b: World, r: RuntimeId)
    requires FinishedBy(program, a, b, r)
    ensures Finished(b.runtimes, r)
  {
  }

  /** No runtime rests in a final state. */
  lemma FinalFinishes(program: Program, a: World, b: World, r: RuntimeId, boundary: Path, target: Path)
    requires Reached(program, a, b, r, boundary, target) && target in program.machines[a.runtimes[r].machine]
    requires program.machines[a.runtimes[r].machine][target].kind.Final?
    ensures Finished(b.runtimes, r)
  {
  }

  lemma ReachedAfterRoot(program: Program, a: World, b: World, c: World, r: RuntimeId)
    requires Entered(program, a, b, r, []) && Reached(program, b, c, r, [], []) && Ok(program, c.runtimes)
    ensures Started(program, a, c, r)
  {
    OutsideTransitive(a, b, c, r);
    SurvivorsTransitive(program, a.runtimes, b.runtimes, c.runtimes, r);
    if r in c.runtimes {
      assert RuntimeOk(program, c.runtimes, r);
    }
  }

  lemma FinalEntered(program: Program, a: World, b: World, c: World, r: RuntimeId, p: Path)
    requires Entered(program, a, b, r, p) && Completion(b, c, r)
    ensures FinishedBy(program, a, c, r)
    ensures Logged(a, c, r, [Enters(p), Acts(Entry(p))] + LeaveDown(a.runtimes[r].active + [p], 0))
  {
    CompletionFinishes(program, b, c, r);
    FinishedAfter(program, a, b, c, r);
    LoggedTransitive(a, b, c, r, [Enters(p), Acts(Entry(p))], LeaveDown(b.runtimes[r].active, 0));
  }

  // ---------------------------------------------------------------- components one by one

  lemma AllocatedNone(program: Program, a: World, r: RuntimeId, p: Path)
    requires r in a.runtimes
    ensures AllocatedUpTo(program, a, a, r, p, [])
  {
  }

  lemma AllocatedFacts(program: Program, a: World, b: World, r: RuntimeId, p: Path, pending: seq<RuntimeId>)
    requires AllocatedUpTo(program, a, b, r, p, pending)
    ensures r in a.runtimes && r in b.runtimes
    ensures b.runtimes[r] == a.runtimes[r].(components := b.runtimes[r].components, nextComponent := b.runtimes[r].nextComponent)
  {
  }

  lemma PendingOneMore(
    program: Program, a: World, b: World, c: World, r: RuntimeId, p: Path, pending: seq<RuntimeId>, i: nat, child: Runtime,
    j: nat)
    requires AllocatedUpTo(program, a, b, r, p, pending) && j <= i == |pending|
    requires Allocated(program, b.runtimes, r, p, i) !in b.runtimes
    requires c.runtimes == Allocate(program, b.runtimes, r, p, i, child)
    requires b.runtimes[r].machine in program.machines && p in program.machines[b.runtimes[r].machine]
    requires i < |program.machines[b.runtimes[r].machine][p].components|
    requires IsNew(program, child) && child.machine == program.machines[b.runtimes[r].machine][p].components[i].machine
    ensures r in c.runtimes
    ensures PendingAt(program, c.runtimes, r, p, pending + [Allocated(program, b.runtimes, r, p, i)], j)
  {
    hide IsNew;
    ChildNotOwner(Allocated(program, b.runtimes, r, p, i));
    if j < i {
      assert PendingAt(program, b.runtimes, r, p, pending, j);
      ChildNotOwner(pending[j]);
    }
  }

  lemma AllocatedOneMore(
    program: Program, a: World, b: World, c: World, r: RuntimeId, p: Path, pending: seq<RuntimeId>, i: nat, child: Runtime)
    requires AllocatedUpTo(program, a, b, r, p, pending) && i == |pending|
    requires Allocated(program, b.runtimes, r, p, i) !in b.runtimes
    requires c == b.(runtimes := Allocate(program, b.runtimes, r, p, i, child))
    requires b.runtimes[r].machine in program.machines && p in program.machines[b.runtimes[r].machine]
    requires i < |program.machines[b.runtimes[r].machine][p].components|
    requires IsNew(program, child) && child.machine == program.machines[b.runtimes[r].machine][p].components[i].machine
    ensures AllocatedUpTo(program, a, c, r, p, pending + [Allocated(program, b.runtimes, r, p, i)])
  {
    hide IsNew, PendingAt;
    var k := Allocated(program, b.runtimes, r, p, i);
    var all := pending + [k];
    ChildNotOwner(k);
    forall j | 0 <= j < |all| ensures PendingAt(program, c.runtimes, r, p, all, j) {
      PendingOneMore(program, a, b, c, r, p, pending, i, child, j);
    }
  }

  ghost predicate PendingFrom(program: Program, rs: Forest, r: RuntimeId, p: Path, pending: seq<RuntimeId>, i: nat) {
    && r in rs
    && forall j {:trigger PendingAt(program, rs, r, p, pending, j)} ::
         i <= j < |pending| ==> PendingAt(program, rs, r, p, pending, j)
  }

  lemma PendingKept(program: Program, a: World, b: World, c: World, r: RuntimeId, p: Path, pending: seq<RuntimeId>)
    requires AllocatedUpTo(program, a, b, r, p, pending) && Acted(program, b, c, r)
    ensures PendingFrom(program, c.runtimes, r, p, pending, 0)
  {
    forall j | 0 <= j < |pending| ensures PendingAt(program, c.runtimes, r, p, pending, j) {
      assert PendingAt(program, b.runtimes, r, p, pending, j);
    }
  }

  lemma PendingNext(program: Program, rs: Forest, r: RuntimeId, p: Path, pending: seq<RuntimeId>, i: nat)
    requires PendingFrom(program, rs, r, p, pending, i) && i < |pending|
    ensures PendingAt(program, rs, r, p, pending, i)
  {
  }

  ghost predicate InitializedUpTo(program: Program, a: World, b: World, r: RuntimeId, pending: seq<RuntimeId>, i: nat) {
    && Outside(a, b, r)
    && r in a.runtimes && r in b.runtimes && a.runtimes[r] == b.runtimes[r]
    && LogOf(b, r) == LogOf(a, r)
    && Survivors(program, a.runtimes, b.runtimes, r)
    && (forall j :: 0 <= j < i && j < |pending| ==> pending[j] in b.runtimes && SettledAt(program, b.runtimes, pending[j]))
  }

  lemma InitializedStart(program: Program, a: World, r: RuntimeId, pending: seq<RuntimeId>)
    requires r in a.runtimes
    ensures InitializedUpTo(program, a, a, r, pending, 0)
  {
    OutsideSelf(a, r);
  }

  lemma InitializedFacts(program: Program, a: World, b: World, r: RuntimeId, pending: seq<RuntimeId>, i: nat)
    requires InitializedUpTo(program, a, b, r, pending, i)
    ensures Outside(a, b, r) && r in a.runtimes && r in b.runtimes && a.runtimes[r] == b.runtimes[r]
    ensures i == |pending| ==> InitializedAll(program, a, b, r, pending)
  {
  }

  lemma InitializedOneMore(
    program: Program, a: World, b: World, c: World, r: RuntimeId, p: Path, pending: seq<RuntimeId>, i: nat)
    requires InitializedUpTo(program, a, b, r, pending, i) && i < |pending|
    requires AllSlots(r, p, pending) && PendingFrom(program, b.runtimes, r, p, pending, i)
    requires ContainedStart(program, b, c, pending[i])
    ensures InitializedUpTo(program, a, c, r, pending, i + 1)
    ensures PendingFrom(program, c.runtimes, r, p, pending, i + 1)
    ensures r in c.runtimes && c.runtimes[r] == b.runtimes[r]
  {
    var k := pending[i];
    OwnerOutside(k, r);
    OutsideAt(b, c, k, r);
    OutsideWiden(b, c, k, r);
    OutsideTransitive(a, b, c, r);
    forall j | 0 <= j < |pending| && j != i ensures SameAt(b, c, pending[j]) {
      SiblingOutside(pending[j], k);
    }
    forall id | id in c.runtimes && id != r ensures Survivor(program, a.runtimes, c.runtimes, id) {
      if id != k {
        assert Survivor(program, b.runtimes, c.runtimes, id);
        if id in b.runtimes {
          assert Survivor(program, a.runtimes, b.runtimes, id);
        }
      }
    }
    forall j | i + 1 <= j < |pending| ensures PendingAt(program, c.runtimes, r, p, pending, j) {
      assert PendingAt(program, b.runtimes, r, p, pending, j);
      assert SameAt(b, c, pending[j]);
    }
  }

  /** The pending components are those of distinct slots of `p`. */
  predicate AllSlots(r: RuntimeId, p: Path, pending: seq<RuntimeId>) {
    forall i :: 0 <= i < |pending| ==>
      pending[i].Component? && pending[i].owner == r && pending[i].slot.state == p && pending[i].slot.index == i
  }

  lemma PendingSlots(program: Program, rs: Forest, r: RuntimeId, p: Path, pending: seq<RuntimeId>)
    requires PendingFrom(program, rs, r, p, pending, 0)
    ensures AllSlots(r, p, pending)
  {
    forall i | 0 <= i < |pending|
      ensures pending[i].Component? && pending[i].owner == r && pending[i].slot.state == p && pending[i].slot.index == i
    {
      assert PendingAt(program, rs, r, p, pending, i);
    }
  }

  // ---------------------------------------------------------------- transitions

  /** A transition from `source` to `target`: everything below the boundary was left, with
      its history recorded, and the target entered, through its history if asked. */
  ghost predicate Moved(
    program: Program, a: World, b: World, r: RuntimeId, source: Path, target: Path, local: bool, history: bool) {
    && target != []
    && Outside(a, b, r)
    && Survivors(program, a.runtimes, b.runtimes, r)
    && r in a.runtimes && a.runtimes[r].machine in program.machines
    && var m := program.machines[a.runtimes[r].machine];
       var x := a.runtimes[r];
       var boundary := Boundary(source, target, local);
       var z := x.(history := Recorded(m, x, boundary));
       && (Finished(b.runtimes, r)
           || (r in b.runtimes && Arrived(m, z, b.runtimes[r], boundary, Destination(z, target, history))))
       && LogOf(a, r) + LeaveDown(x.active, |boundary| + 1) + EnterAll(boundary, Destination(z, target, history)) <= LogOf(b, r)
  }

  /** Everything strictly below `boundary` was left, after its history was recorded. */
  ghost predicate LeftRecording(program: Program, a: World, b: World, r: RuntimeId, boundary: Path) {
    && r in a.runtimes && a.runtimes[r].machine in program.machines
    && Outside(a, b, r)
    && var z := a.runtimes[r].(history := Recorded(program.machines[a.runtimes[r].machine], a.runtimes[r], boundary));
       Left(a.(runtimes := a.runtimes[r := z]), b, r, |boundary| + 1)
  }

  lemma LeftRecordingFacts(program: Program, a: World, b: World, r: RuntimeId, boundary: Path)
    requires LeftRecording(program, a, b, r, boundary)
    ensures Outside(a, b, r) && r in a.runtimes && r in b.runtimes
    ensures b.runtimes[r].machine == a.runtimes[r].machine && a.runtimes[r].machine in program.machines
    ensures b.runtimes[r].history == Recorded(program.machines[a.runtimes[r].machine], a.runtimes[r], boundary)
  {
  }

  lemma MovedFrom(
    program: Program, w0: World, w2: World, w3: World, r: RuntimeId, source: Path, target: Path, local: bool,
    history: bool)
    requires target != [] && LeftRecording(program, w0, w2, r, Boundary(source, target, local))
    requires r in w2.runtimes
    requires Reached(program, w2, w3, r, Boundary(source, target, local), Destination(w2.runtimes[r], target, history))
    ensures Moved(program, w0, w3, r, source, target, local, history)
  {
    var m := program.machines[w0.runtimes[r].machine];
    var boundary := Boundary(source, target, local);
    var z, y := w0.runtimes[r].(history := Recorded(m, w0.runtimes[r], boundary)), w2.runtimes[r];
    var w1 := w0.(runtimes := w0.runtimes[r := z]);
    OutsideTransitive(w0, w2, w3, r);
    assert Survivors(program, w0.runtimes, w2.runtimes, r) by {
      assert OnlyRemoved(w1.runtimes, w2.runtimes, r);
    }
    SurvivorsTransitive(program, w0.runtimes, w2.runtimes, w3.runtimes, r);
    var d := Destination(z, target, history);
    assert d == Destination(y, target, history);
    if !Finished(w3.runtimes, r) {
      var t := w3.runtimes[r];
      forall q | q <= boundary ensures Kept(z, t, q) {
        assert Kept(y, t, q);
      }
      forall q | Between(boundary, q, d) ensures Fresh(z, t, q) {
        assert Fresh(y, t, q);
      }
    }
  }

  lemma MovedRests(
    program: Program, a: World, b: World, r: RuntimeId, source: Path, target: Path, local: bool, history: bool)
    requires Moved(program, a, b, r, source, target, local, history) && Ok(program, b.runtimes)
    ensures Started(program, a, b, r)
  {
    if r in b.runtimes {
      assert RuntimeOk(program, b.runtimes, r);
    }
  }

  lemma LeavingRecords(program: Program, x: Runtime, boundary: Path, c: Path)
    requires Loaded(program) && x.machine in program.machines && Shape(program.machines[x.machine], x)
    requires x.status.Running? && Settled(program.machines[x.machine], x) && x.active != []
    requires c in x.active && boundary <= c && boundary != c
    requires c in program.machines[x.machine] && program.machines[x.machine][c].history != NoHistory
    ensures c <= Bottom(x.active) && c != Bottom(x.active)
    ensures c in x.history
    ensures Recorded(program.machines[x.machine], x, boundary)[c] == Some(RecordFor(program.machines[x.machine], x, c))
  {
    ChainMember(c, LeafOf(x));
    LoadedNode(program, x.machine, c);
  }

  lemma HistoryRestores(m: Machine, y: Runtime, t: Runtime, boundary: Path, c: Path, record: Path)
    requires Anchored(y.active) && y.active != [] && c !in y.active
    requires c in y.history && y.history[c] == Some(record) && record in m
    requires var z := y.(history := Recorded(m, y, boundary));
      Arrived(m, z, t, boundary, Destination(z, c, true))
    ensures t.active != [] && record <= LeafOf(t)
    ensures !m[record].kind.Composite? ==> LeafOf(t) == record
  {
    ChainMember(c, LeafOf(y));
    assert !Recordable(m, y, boundary, c);
  }

  /** The history round trip. Leaving `x` below `boundary` records its composite `c`; a later
      record `y` of the runtime has the same entry and `c` not active; `t` is where entering
      `c` through its history leads from there. Then a deep composite has exactly the active
      states it was left with, and a shallow one has the direct child it was left with. */
  lemma HistoryRoundTrip(program: Program, x: Runtime, boundary: Path, c: Path, y: Runtime, t: Runtime, boundary': Path)
    requires Loaded(program) && x.machine in program.machines && Shape(program.machines[x.machine], x)
    requires x.status.Running? && Settled(program.machines[x.machine], x) && x.active != []
    requires c in x.active && boundary <= c && boundary != c
    requires c in program.machines[x.machine] && program.machines[x.machine][c].history != NoHistory
    requires Anchored(y.active) && y.active != [] && c !in y.active && Anchored(t.active)
    requires c in y.history && c in x.history
    requires y.history[c] == Recorded(program.machines[x.machine], x, boundary)[c]
    requires var z := y.(history := Recorded(program.machines[x.machine], y, boundary'));
      Arrived(program.machines[x.machine], z, t, boundary', Destination(z, c, true))
    ensures program.machines[x.machine][c].history.Deep? ==> t.active == x.active
    ensures program.machines[x.machine][c].history.Shallow? ==>
              |c| + 1 < |x.active| && x.active[|c| + 1] in t.active
  {
    var m := program.machines[x.machine];
    LeavingRecords(program, x, boundary, c);
    var record := RecordFor(m, x, c);
    AncestorsComposite(program, x.machine, record, LeafOf(x));
    HistoryRestores(m, y, t, boundary', c, record);
    ChainMember(record, LeafOf(t));
  }

  // ---------------------------------------------------------------- one event

  datatype Disposition = Handled | Deferred | NotHandled

  predicate FailureNotice(event: string) {
    event == "determa.component_failed" || event == "determa.spawned_instance_failed"
  }

  /** The truth of a guard, or `None` when its evaluation failed. */
  function Verdict(v: Option<Value>): Option<bool> {
    if v.None? then None else Some(v.value == Truth(true))
  }

  lemma ActedSame(program: Program, a: World, b: World, r: RuntimeId)
    requires Acted(program, a, b, r)
    ensures Outside(a, b, r) && r in a.runtimes && r in b.runtimes
    ensures b.runtimes[r].machine == a.runtimes[r].machine && b.runtimes[r].active == a.runtimes[r].active
    ensures b.runtimes[r].status == a.runtimes[r].status && b.runtimes[r].history == a.runtimes[r].history
  {
  }

  /** Actions leave a settled runtime settled. */
  lemma ActedSettled(program: Program, a: World, b: World, r: RuntimeId)
    requires Acted(program, a, b, r)
    ensures b.runtimes[r].machine == a.runtimes[r].machine && b.runtimes[r].active == a.runtimes[r].active
    ensures b.runtimes[r].status == a.runtimes[r].status
    ensures SettledAt(program, a.runtimes, r) ==> SettledAt(program, b.runtimes, r)
  {
  }

  function Note(log: map<RuntimeId, seq<Phase>>, r: RuntimeId, phase: Phase): map<RuntimeId, seq<Phase>> {
    log[r := (if r in log then log[r] else []) + [phase]]
  }

  const NOBODY: set<RuntimeId> := {}
  const NOWHERE: set<Path> := {}
}
