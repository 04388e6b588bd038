/** Programs without actions, variables and components: there, where an entry ends is a
    function of the guards, the recorded history and the recursion that is left. */
module QuietPrograms {
  import opened Options
  import opened Statechart
  import opened Runtimes
  import opened RuntimeSteps
  import opened EngineFrames
  import opened EngineActions
  import opened EngineTransitions

  datatype Ending = RestsAt(leaf: Path) | Completes | Faults(code: FaultCode) | Crashes

  datatype Finding = Leads(target: Target) | Sticks(code: FaultCode)

  type Records = map<Path, Option<Path>>

  /** Which state the choices from `at` on lead to. */
  function QuietResolve(m: Machine, cel: Evaluator, at: Target, seen: set<Path>): Finding
    decreases m.Keys - seen
  {
    if at.path !in m || !m[at.path].kind.Choice? then Leads(at)
    else if at.path in seen then Sticks(InvariantFault)
    else
      assert at.path in m.Keys - seen;
      match FirstBranch(cel, map[], m[at.path].branches, 0)
      case NoChoice(code) => Sticks(code)
      case Chosen(i) =>
        if m[at.path].branches[i].target.None? then Sticks(InvariantFault)
        else QuietResolve(m, cel, m[at.path].branches[i].target.value, seen + {at.path})
  }

  function StatesUnder(m: Machine, p: Path): set<Path> {
    set q | q in m && p <= q && p != q
  }

  /** Where entering `target` from `boundary` ends. A target outside the boundary fails an
      assertion; one that is the boundary again descends again. */
  function QuietPath(
    m: Machine, cel: Evaluator, h: Records, boundary: Path, target: Path, history: bool, stack: nat): Ending
    decreases stack, StatesUnder(m, boundary), 0
  {
    if !(boundary <= target) || target !in m then Crashes
    else if m[target].kind.Final? then Completes
    else if !m[target].kind.Composite? then RestsAt(target)
    else if target != boundary then
      assert target in StatesUnder(m, boundary) && target !in StatesUnder(m, target);
      QuietDescend(m, cel, h, target, history, stack)
    else if stack == 0 then Crashes
    else QuietDescend(m, cel, h, target, history, stack - 1)
  }

  /** Where descending from the composite `p` ends. */
  function QuietDescend(m: Machine, cel: Evaluator, h: Records, p: Path, history: bool, stack: nat): Ending
    decreases stack, StatesUnder(m, p), 1
  {
    if history && p in h && h[p].Some? then QuietPath(m, cel, h, p, h[p].value, false, stack)
    else if p !in m || m[p].initial.None? || m[p].initial.value.target.None? then Crashes
    else
      match QuietResolve(m, cel, m[p].initial.value.target.value, {})
      case Sticks(code) => Faults(code)
      case Leads(t) => QuietPath(m, cel, h, p, t.path, t.history, stack)
  }

  /** Where creation ends. */
  function QuietRoot(m: Machine, cel: Evaluator, h: Records, stack: nat): Ending {
    if [] !in m then Crashes
    else if m[[]].kind.Final? then Completes
    else if !m[[]].kind.Composite? then RestsAt([])
    else QuietDescend(m, cel, h, [], false, stack)
  }

  /** Where a transition of `x` to `found` ends. */
  function QuietMove(m: Machine, cel: Evaluator, x: Runtime, source: Path, found: Target, local: bool, stack: nat): Ending
    requires found.path != []
  {
    var boundary := Boundary(source, found.path, local);
    var h := Recorded(m, x, boundary);
    if found.path == boundary then QuietDescend(m, cel, h, boundary, found.history, stack)
    else QuietPath(m, cel, h, boundary, found.path, found.history, stack)
  }

  /** Where taking the transition `t` from `x` ends. */
  function QuietTake(m: Machine, cel: Evaluator, x: Runtime, source: Path, t: Transition, stack: nat): Ending {
    if t.target.None? then if x.active == [] then Crashes else RestsAt(LeafOf(x))
    else
      match QuietResolve(m, cel, t.target.value, {})
      case Sticks(code) => Faults(code)
      case Leads(found) => if found.path == [] then Crashes else QuietMove(m, cel, x, source, found, t.local, stack)
  }

  /** A piece of work on `r` ended as foreseen. */
  ghost predicate Ends(flow: Flow, rs: Forest, r: RuntimeId, ending: Ending) {
    match ending
    case RestsAt(leaf) => flow.Done? && r in rs && rs[r].status.Running? && rs[r].active == Chain(leaf)
    case Completes => flow.Done? && Finished(rs, r)
    case Faults(code) => flow == Raised(code)
    case Crashes => flow.Aborted?
  }

  /** There are no variables to see. */
  lemma {:induction false} NothingVisible(program: Program, rs: Forest, r: RuntimeId, p: Path)
    requires Quiet(program) && Ok(program, rs) && r in rs
    ensures Visible(rs[r], p) == map[]
  {
    assert RuntimeOk(program, rs, r);
    if p in rs[r].scopes {
      assert ScopeOk(program.machines[rs[r].machine], p, rs[r].scopes[p]);
      FaultlessAt(program, rs[r].machine, p);
    }
    if p != [] {
      NothingVisible(program, rs, r, Parent(p));
    }
  }

  /** The move depends on the active states and the history alone. */
  lemma QuietMoveSame(m: Machine, cel: Evaluator, x: Runtime, y: Runtime, source: Path, found: Target, local: bool, stack: nat)
    requires x.active == y.active && x.history == y.history && found.path != []
    ensures QuietMove(m, cel, x, source, found, local, stack) == QuietMove(m, cel, y, source, found, local, stack)
  {
    var boundary := Boundary(source, found.path, local);
    assert Recorded(m, x, boundary) == Recorded(m, y, boundary);
  }

  lemma QuietPathCases(
    m: Machine, cel: Evaluator, h: Records, boundary: Path, target: Path, history: bool, stack: nat)
    requires target in m
    ensures QuietPath(m, cel, h, boundary, target, history, stack) ==
            if !(boundary <= target) then Crashes
            else if m[target].kind.Final? then Completes
            else if !m[target].kind.Composite? then RestsAt(target)
            else if target != boundary then QuietDescend(m, cel, h, target, history, stack)
            else if stack == 0 then Crashes
            else QuietDescend(m, cel, h, target, history, stack - 1)
  {
    hide QuietDescend;
  }

  lemma QuietThroughRecord(m: Machine, cel: Evaluator, h: Records, p: Path, stack: nat)
    requires p in h && h[p].Some?
    ensures QuietDescend(m, cel, h, p, true, stack) == QuietPath(m, cel, h, p, h[p].value, false, stack)
  {
  }

  lemma QuietThroughInitial(
    m: Machine, cel: Evaluator, h: Records, p: Path, history: bool, stack: nat, flow: Flow, found: Option<Target>)
    requires !(history && p in h && h[p].Some?)
    requires p in m && m[p].initial.Some? && m[p].initial.value.target.Some?
    requires Finds(flow, found, QuietResolve(m, cel, m[p].initial.value.target.value, {}))
    ensures flow.Done? || flow.Raised?
    ensures flow.Raised? ==>
              forall rs, r {:trigger Ends(flow, rs, r, QuietDescend(m, cel, h, p, history, stack))} ::
                Ends(flow, rs, r, QuietDescend(m, cel, h, p, history, stack))
    ensures flow.Done? ==>
              && found.Some?
              && QuietDescend(m, cel, h, p, history, stack)
                 == QuietPath(m, cel, h, p, found.value.path, found.value.history, stack)
  {
    hide QuietResolve, QuietPath;
  }

  /** Choices were resolved as foreseen. */
  predicate Finds(flow: Flow, found: Option<Target>, finding: Finding) {
    match finding
    case Leads(t) => flow.Done? && found == Some(t)
    case Sticks(code) => flow == Raised(code)
  }

  lemma QuietChoice(
    program: Program, cel: Evaluator, id: MachineId, rs: Forest, r: RuntimeId, source: Path, at: Target, seen: set<Path>)
    requires Ok(program, rs) && r in rs && rs[r].machine == id && id in program.machines
    requires at.path in program.machines[id] && program.machines[id][at.path].kind.Choice?
    ensures Quiet(program) ==> Visible(rs[r], source) == map[]
    ensures Quiet(program) ==> forall i :: 0 <= i < |program.machines[id][at.path].branches| ==>
              program.machines[id][at.path].branches[i].actions == []
    ensures QuietResolve(program.machines[id], cel, at, seen) ==
            if at.path in seen then Sticks(InvariantFault)
            else match FirstBranch(cel, map[], program.machines[id][at.path].branches, 0)
                 case NoChoice(code) => Sticks(code)
                 case Chosen(i) =>
                   var t := program.machines[id][at.path].branches[i].target;
                   if t.None? then Sticks(InvariantFault)
                   else QuietResolve(program.machines[id], cel, t.value, seen + {at.path})
  {
    if Quiet(program) {
      NothingVisible(program, rs, r, source);
    }
    FaultlessAt(program, id, at.path);
  }

  lemma QuietFound(m: Machine, cel: Evaluator, at: Target, seen: set<Path>)
    requires at.path in m && !m[at.path].kind.Choice?
    ensures QuietResolve(m, cel, at, seen) == Leads(at)
  {
  }
}
