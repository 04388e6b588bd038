/** Where compound transitions lead: the choices met on the way, the descent into composites,
    and the place where a `stop` was met. */
module EngineTransitions {
  import opened Options
  import opened Statechart
  import opened Runtimes
  import opened RuntimeSteps
  import opened Selection
  import opened EngineFrames
  import opened EngineActions

  // ---------------------------------------------------------------- choices

  datatype Choosing = Chosen(index: nat) | NoChoice(code: FaultCode)

  /** The first branch, from the `i`th on, whose guard holds, or why there is none. */
  function FirstBranch(cel: Evaluator, scope: Scope, branches: seq<Transition>, i: nat): (c: Choosing)
    requires i <= |branches|
    ensures c.Chosen? ==> i <= c.index < |branches|
    decreases |branches| - i
  {
    if i == |branches| then NoChoice(InvariantFault)
    else if branches[i].guard.None? then Chosen(i)
    else
      var v := cel(branches[i].guard.value, scope, Plain);
      if v.None? then NoChoice(GuardFault)
      else if v.value == Truth(true) then Chosen(i)
      else FirstBranch(cel, scope, branches, i + 1)
  }

  /** A choice that was met, the branch it took, and the worlds before and after the actions
      of that branch. */
  datatype Pick = Pick(at: Target, index: nat, before: World, after: World)

  predicate Chooses(program: Program, cel: Evaluator, r: RuntimeId, source: Path, k: Pick) {
    TakesBranch(program, cel, r, source, k.at.path, k.index, k.before)
  }

  function BranchOf(program: Program, cel: Evaluator, r: RuntimeId, source: Path, k: Pick): Transition
    requires Chooses(program, cel, r, source, k)
  {
    program.machines[k.before.runtimes[r].machine][k.at.path].branches[k.index]
  }

  ghost predicate PickOk(program: Program, cel: Evaluator, r: RuntimeId, source: Path, k: Pick) {
    && Chooses(program, cel, r, source, k)
    && RanAll(program, cel, k.before, k.after, r, source, Branch(k.at.path, k.index),
              BranchOf(program, cel, r, source, k).actions)
  }

  function Met(picks: seq<Pick>): set<Path> {
    set k | k in picks :: k.at.path
  }

  /** Choices lead from `first` to `current`: each takes its first enabled branch, whose
      actions run, and none is met twice. */
  ghost predicate PicksFrom(
    program: Program, cel: Evaluator, r: RuntimeId, source: Path, first: Target, a: World, picks: seq<Pick>,
    current: Target, b: World)
    decreases |picks|
  {
    if picks == [] then current == first && b == a
    else
      var k := picks[|picks| - 1];
      var earlier := picks[..|picks| - 1];
      && PickOk(program, cel, r, source, k) && k.after == b
      && BranchOf(program, cel, r, source, k).target == Some(current)
      && k.at.path !in Met(earlier)
      && PicksFrom(program, cel, r, source, first, a, earlier, k.at, k.before)
  }

  lemma PicksNone(program: Program, cel: Evaluator, r: RuntimeId, source: Path, first: Target, a: World)
    ensures PicksFrom(program, cel, r, source, first, a, [], first, a) && Met([]) == {}
  {
  }

  /** The choice at `at` takes its `i`th branch in the world `w`. */
  predicate TakesBranch(program: Program, cel: Evaluator, r: RuntimeId, source: Path, at: Path, i: nat, w: World) {
    && r in w.runtimes && w.runtimes[r].machine in program.machines
    && var m := program.machines[w.runtimes[r].machine];
       && at in m && m[at].kind.Choice?
       && FirstBranch(cel, Visible(w.runtimes[r], source), m[at].branches, 0) == Chosen(i)
  }

  lemma PickMore(
    program: Program, cel: Evaluator, r: RuntimeId, source: Path, first: Target, a: World, picks: seq<Pick>,
    k: Pick, t: Transition)
    requires PicksFrom(program, cel, r, source, first, a, picks, k.at, k.before) && k.at.path !in Met(picks)
    requires TakesBranch(program, cel, r, source, k.at.path, k.index, k.before)
    requires t == program.machines[k.before.runtimes[r].machine][k.at.path].branches[k.index] && t.target.Some?
    requires RanAll(program, cel, k.before, k.after, r, source, Branch(k.at.path, k.index), t.actions)
    ensures PicksFrom(program, cel, r, source, first, a, picks + [k], t.target.value, k.after)
    ensures Met(picks + [k]) == Met(picks) + {k.at.path}
  {
    hide RanAll, FirstBranch;
    assert (picks + [k])[..|picks|] == picks;
    assert k in picks + [k];
  }

  lemma PickHalts(
    program: Program, cel: Evaluator, r: RuntimeId, source: Path, first: Target, a: World, picks: seq<Pick>,
    k: Pick, t: Transition)
    requires PicksFrom(program, cel, r, source, first, a, picks, k.at, k.before) && k.at.path !in Met(picks)
    requires TakesBranch(program, cel, r, source, k.at.path, k.index, k.before)
    requires t == program.machines[k.before.runtimes[r].machine][k.at.path].branches[k.index]
    requires StopRan(program, cel, k.before, k.after, r, source, Branch(k.at.path, k.index), t.actions)
    ensures ChoicesStopped(program, cel, a, k.after, r, source, first)
  {
    hide StopRan, FirstBranch, PicksFrom;
    assert PickStopped(program, cel, r, source, first, a, picks, k);
  }

  /** The worlds that choices lead through differ by actions alone. */
  lemma {:induction false} PicksActed(
    program: Program, cel: Evaluator, r: RuntimeId, source: Path, first: Target, a: World, picks: seq<Pick>,
    current: Target, b: World)
    requires PicksFrom(program, cel, r, source, first, a, picks, current, b) && r in a.runtimes
    ensures Acted(program, a, b, r)
    decreases |picks|
  {
    hide Acted, RanAll;
    if picks == [] {
      ActedSelf(program, a, r);
    } else {
      var k := picks[|picks| - 1];
      PicksActed(program, cel, r, source, first, a, picks[..|picks| - 1], k.at, k.before);
      RanFacts(program, cel, k.before, b, r, source, Branch(k.at.path, k.index),
               BranchOf(program, cel, r, source, k).actions);
      ActedTransitive(program, a, k.before, b, r);
    }
  }

  /** Why resolving choices faults: a choice is met twice, none of its branches is enabled, a
      guard fails, or an action of the branch it takes faults. */
  ghost predicate StuckAt(
    program: Program, cel: Evaluator, r: RuntimeId, source: Path, first: Target, a: World, picks: seq<Pick>,
    current: Target, b: World, code: FaultCode)
  {
    && PicksFrom(program, cel, r, source, first, a, picks, current, b)
    && r in b.runtimes && b.runtimes[r].machine in program.machines
    && var m := program.machines[b.runtimes[r].machine];
       && current.path in m && m[current.path].kind.Choice?
       && if current.path in Met(picks) then code == InvariantFault
          else match FirstBranch(cel, Visible(b.runtimes[r], source), m[current.path].branches, 0)
               case NoChoice(why) => code == why
               case Chosen(i) =>
                 FailRan(program, cel, b, r, source, Branch(current.path, i), m[current.path].branches[i].actions, code)
  }

  ghost predicate Stuck(
    program: Program, cel: Evaluator, r: RuntimeId, source: Path, first: Target, a: World, code: FaultCode)
  {
    exists picks, current, b :: StuckAt(program, cel, r, source, first, a, picks, current, b, code)
  }

  lemma StuckRepeated(
    program: Program, cel: Evaluator, r: RuntimeId, source: Path, first: Target, a: World, picks: seq<Pick>,
    current: Target, b: World)
    requires PicksFrom(program, cel, r, source, first, a, picks, current, b) && current.path in Met(picks)
    requires r in b.runtimes && b.runtimes[r].machine in program.machines
    requires current.path in program.machines[b.runtimes[r].machine]
    requires program.machines[b.runtimes[r].machine][current.path].kind.Choice?
    ensures Stuck(program, cel, r, source, first, a, InvariantFault)
  {
    hide PicksFrom, FirstBranch, FailRan;
    assert StuckAt(program, cel, r, source, first, a, picks, current, b, InvariantFault);
  }

  lemma StuckChoosing(
    program: Program, cel: Evaluator, r: RuntimeId, source: Path, first: Target, a: World, picks: seq<Pick>,
    current: Target, b: World, code: FaultCode)
    requires PicksFrom(program, cel, r, source, first, a, picks, current, b) && current.path !in Met(picks)
    requires r in b.runtimes && b.runtimes[r].machine in program.machines
    requires current.path in program.machines[b.runtimes[r].machine]
    requires program.machines[b.runtimes[r].machine][current.path].kind.Choice?
    requires FirstBranch(cel, Visible(b.runtimes[r], source),
                         program.machines[b.runtimes[r].machine][current.path].branches, 0) == NoChoice(code)
    ensures Stuck(program, cel, r, source, first, a, code)
  {
    hide PicksFrom, FailRan;
    assert StuckAt(program, cel, r, source, first, a, picks, current, b, code);
  }

  lemma StuckActing(
    program: Program, cel: Evaluator, r: RuntimeId, source: Path, first: Target, a: World, picks: seq<Pick>,
    current: Target, b: World, i: nat, code: FaultCode)
    requires PicksFrom(program, cel, r, source, first, a, picks, current, b) && current.path !in Met(picks)
    requires TakesBranch(program, cel, r, source, current.path, i, b)
    requires FailRan(program, cel, b, r, source, Branch(current.path, i),
                     program.machines[b.runtimes[r].machine][current.path].branches[i].actions, code)
    ensures Stuck(program, cel, r, source, first, a, code)
  {
    hide PicksFrom, FailRan;
    assert StuckAt(program, cel, r, source, first, a, picks, current, b, code);
  }

  // ---------------------------------------------------------------- compound transitions

  /** The actions of `t` ran, and then its target, if it has one, was resolved to `found`. */
  ghost predicate Compound(
    program: Program, cel: Evaluator, a: World, b: World, r: RuntimeId, source: Path, t: Transition, site: Site,
    found: Option<Target>)
  {
    if t.target.None? then
      found.None? && RanAll(program, cel, a, b, r, source, site, t.actions)
    else
      && found.Some?
      && r in b.runtimes && b.runtimes[r].machine in program.machines
      && found.value.path in program.machines[b.runtimes[r].machine]
      && !program.machines[b.runtimes[r].machine][found.value.path].kind.Choice?
      && exists w, picks :: CompoundBy(program, cel, a, w, b, r, source, t, site, picks, found.value)
  }

  ghost predicate CompoundBy(
    program: Program, cel: Evaluator, a: World, w: World, b: World, r: RuntimeId, source: Path, t: Transition,
    site: Site, picks: seq<Pick>, found: Target)
  {
    && t.target.Some?
    && RanAll(program, cel, a, w, r, source, site, t.actions)
    && PicksFrom(program, cel, r, source, t.target.value, w, picks, found, b)
  }

  /** A `stop` was met in the actions of a branch. */
  ghost predicate PickStopped(
    program: Program, cel: Evaluator, r: RuntimeId, source: Path, first: Target, a: World, picks: seq<Pick>, k: Pick)
  {
    && PicksFrom(program, cel, r, source, first, a, picks, k.at, k.before)
    && Chooses(program, cel, r, source, k) && k.at.path !in Met(picks)
    && StopRan(program, cel, k.before, k.after, r, source, Branch(k.at.path, k.index),
               BranchOf(program, cel, r, source, k).actions)
  }

  ghost predicate ChoicesStopped(
    program: Program, cel: Evaluator, a: World, b: World, r: RuntimeId, source: Path, first: Target)
  {
    exists picks, k :: PickStopped(program, cel, r, source, first, a, picks, k) && k.after == b
  }

  /** A `stop` was met in the actions of `t` or of a branch on its way. */
  ghost predicate CompoundStopped(
    program: Program, cel: Evaluator, a: World, b: World, r: RuntimeId, source: Path, t: Transition, site: Site)
  {
    || StopRan(program, cel, a, b, r, source, site, t.actions)
    || exists w :: StoppedAfter(program, cel, a, w, b, r, source, t, site)
  }

  ghost predicate StoppedAfter(
    program: Program, cel: Evaluator, a: World, w: World, b: World, r: RuntimeId, source: Path, t: Transition,
    site: Site)
  {
    && RanAll(program, cel, a, w, r, source, site, t.actions)
    && t.target.Some? && ChoicesStopped(program, cel, w, b, r, source, t.target.value)
  }

  /** The actions of `t` fault, or resolving its target does. */
  ghost predicate CompoundFails(
    program: Program, cel: Evaluator, a: World, r: RuntimeId, source: Path, t: Transition, site: Site, code: FaultCode)
  {
    || FailRan(program, cel, a, r, source, site, t.actions, code)
    || exists w :: StuckAfter(program, cel, a, w, r, source, t, site, code)
  }

  ghost predicate StuckAfter(
    program: Program, cel: Evaluator, a: World, w: World, r: RuntimeId, source: Path, t: Transition, site: Site,
    code: FaultCode)
  {
    && RanAll(program, cel, a, w, r, source, site, t.actions)
    && t.target.Some? && Stuck(program, cel, r, source, t.target.value, w, code)
  }

  // ---------------------------------------------------------------- stops on the way in

  /** The actions that run while states are entered. */
  function OnTheWay(m: Machine, site: Site): seq<Action> {
    match site
    case Entry(p) => if p in m then m[p].entry else []
    case Initial(p) => if p in m && m[p].initial.Some? then m[p].initial.value.actions else []
    case Branch(p, i) => if p in m && i < |m[p].branches| then m[p].branches[i].actions else []
    case _ => []
  }

  ghost predicate StopMetAt(
    program: Program, cel: Evaluator, a: World, v: World, b: World, r: RuntimeId, p: Path, site: Site)
  {
    && Outside(a, v, r)
    && r in v.runtimes && v.runtimes[r].machine in program.machines
    && StopRan(program, cel, v, b, r, p, site, OnTheWay(program.machines[v.runtimes[r].machine], site))
  }

  /** Work on `r` ended at a `stop` in an entry, an initial transition or a choice. */
  ghost predicate Halted(program: Program, cel: Evaluator, a: World, b: World, r: RuntimeId) {
    && Outside(a, b, r)
    && r in a.runtimes && r in b.runtimes && b.runtimes[r].status.Running?
    && b.runtimes[r].machine == a.runtimes[r].machine && a.runtimes[r].machine in program.machines
    && exists v, p, site :: StopMetAt(program, cel, a, v, b, r, p, site)
  }

  lemma HaltedFacts(program: Program, cel: Evaluator, a: World, b: World, r: RuntimeId)
    requires Halted(program, cel, a, b, r)
    ensures Outside(a, b, r) && r in b.runtimes && b.runtimes[r].status.Running?
    ensures b.runtimes[r].machine in program.machines
  {
  }

  lemma HaltedFrom(program: Program, cel: Evaluator, a: World, v: World, b: World, r: RuntimeId, p: Path, site: Site)
    requires Outside(a, b, r) && r in a.runtimes && r in b.runtimes && b.runtimes[r].status.Running?
    requires b.runtimes[r].machine == a.runtimes[r].machine && a.runtimes[r].machine in program.machines
    requires StopMetAt(program, cel, a, v, b, r, p, site)
    ensures Halted(program, cel, a, b, r)
  {
  }

  lemma EntryHalts(program: Program, cel: Evaluator, a: World, v: World, b: World, r: RuntimeId, p: Path)
    requires Outside(a, v, r) && r in a.runtimes && r in v.runtimes && v.runtimes[r].status.Running?
    requires v.runtimes[r].machine == a.runtimes[r].machine && a.runtimes[r].machine in program.machines
    requires p in program.machines[a.runtimes[r].machine]
    requires StopRan(program, cel, v, b, r, p, Entry(p), program.machines[a.runtimes[r].machine][p].entry)
    ensures Halted(program, cel, a, b, r)
  {
    RanFacts(program, cel, v, b, r, p, Entry(p), program.machines[a.runtimes[r].machine][p].entry);
    ActedFacts(program, v, b, r);
    OutsideTransitive(a, v, b, r);
    hide StopRan;
    HaltedFrom(program, cel, a, v, b, r, p, Entry(p));
  }

  lemma HaltedAfter(program: Program, cel: Evaluator, a: World, b: World, c: World, r: RuntimeId)
    requires Outside(a, b, r) && Halted(program, cel, b, c, r)
    requires r in a.runtimes && r in b.runtimes && b.runtimes[r].machine == a.runtimes[r].machine
    ensures Halted(program, cel, a, c, r)
  {
    hide StopRan;
    OutsideTransitive(a, b, c, r);
    var v, p, site :| StopMetAt(program, cel, b, v, c, r, p, site);
    OutsideTransitive(a, b, v, r);
    assert StopMetAt(program, cel, a, v, c, r, p, site);
  }

  /** A `stop` in a branch of a choice on the way in. */
  lemma BranchHalts(
    program: Program, cel: Evaluator, a: World, w: World, r: RuntimeId, p: Path, first: Target, picks: seq<Pick>, k: Pick)
    requires r in a.runtimes && a.runtimes[r].machine in program.machines && a.runtimes[r].status.Running?
    requires Acted(program, a, w, r) && PickStopped(program, cel, r, p, first, w, picks, k)
    ensures Halted(program, cel, a, k.after, r)
  {
    var site := Branch(k.at.path, k.index);
    var actions := BranchOf(program, cel, r, p, k).actions;
    ActedSame(program, a, w, r);
    PicksActed(program, cel, r, p, first, w, picks, k.at, k.before);
    ActedTransitive(program, a, w, k.before, r);
    ActedSame(program, a, k.before, r);
    RanFacts(program, cel, k.before, k.after, r, p, site, actions);
    ActedTransitive(program, a, k.before, k.after, r);
    ActedSame(program, a, k.after, r);
    hide Acted, Outside, Survivors, StopRan, RanAll, PicksFrom, Logged;
    assert OnTheWay(program.machines[a.runtimes[r].machine], site) == actions;
    HaltedFrom(program, cel, a, k.before, k.after, r, p, site);
  }

  /** A `stop` while the initial transition of a composite is resolved. */
  lemma InitialHalts(program: Program, cel: Evaluator, a: World, b: World, r: RuntimeId, p: Path, t: Transition)
    requires r in a.runtimes && a.runtimes[r].machine in program.machines && a.runtimes[r].status.Running?
    requires p in program.machines[a.runtimes[r].machine]
    requires program.machines[a.runtimes[r].machine][p].initial == Some(t)
    requires CompoundStopped(program, cel, a, b, r, p, t, Initial(p))
    ensures Halted(program, cel, a, b, r)
  {
    hide Acted, Outside, Survivors, StopRan, RanAll, PickStopped, Logged, Halted;
    if StopRan(program, cel, a, b, r, p, Initial(p), t.actions) {
      RanFacts(program, cel, a, b, r, p, Initial(p), t.actions);
      ActedSame(program, a, b, r);
      OutsideSelf(a, r);
      HaltedFrom(program, cel, a, a, b, r, p, Initial(p));
    } else {
      var w :| StoppedAfter(program, cel, a, w, b, r, p, t, Initial(p));
      RanFacts(program, cel, a, w, r, p, Initial(p), t.actions);
      var picks, k :| PickStopped(program, cel, r, p, t.target.value, w, picks, k) && k.after == b;
      BranchHalts(program, cel, a, w, r, p, t.target.value, picks, k);
    }
  }

  // ---------------------------------------------------------------- descents

  /** One composite on the way down: left through its record, or through its initial
      transition, whose choices found a state. */
  datatype Hop =
    | ByRecord(arrived: World)
    | ByInitial(arrived: World, found: Target, picked: World)

  /** From `boundary` to `target` and, through the composites of the route, to rest. */
  ghost predicate EnteredBy(
    program: Program, cel: Evaluator, a: World, b: World, r: RuntimeId, boundary: Path, target: Path, history: bool,
    route: seq<Hop>)
    decreases |route|, 1
  {
    && r in a.runtimes && a.runtimes[r].machine in program.machines
    && target in program.machines[a.runtimes[r].machine]
    && boundary <= target
    && if !program.machines[a.runtimes[r].machine][target].kind.Composite? then
         route == [] && Reached(program, a, b, r, boundary, target)
       else
         && route != [] && WalkedTo(program, a, route[0].arrived, r, boundary, target)
         && DescendedBy(program, cel, route[0].arrived, b, r, target, history, route)
  }

  /** Down from the composite `p`: through its record when asked for it and there is one,
      otherwise through what its initial transition finds. */
  ghost predicate DescendedBy(
    program: Program, cel: Evaluator, a: World, b: World, r: RuntimeId, p: Path, history: bool, route: seq<Hop>)
    decreases |route|, 0
  {
    && route != [] && route[0].arrived == a
    && r in a.runtimes && a.runtimes[r].machine in program.machines
    && p in program.machines[a.runtimes[r].machine]
    && var initial := program.machines[a.runtimes[r].machine][p].initial;
       if history && p in a.runtimes[r].history && a.runtimes[r].history[p].Some? then
         && route[0].ByRecord?
         && EnteredBy(program, cel, a, b, r, p, a.runtimes[r].history[p].value, false, route[1..])
       else
         && route[0].ByInitial? && initial.Some?
         && Compound(program, cel, a, route[0].picked, r, p, initial.value, Initial(p), Some(route[0].found))
         && EnteredBy(program, cel, route[0].picked, b, r, p, route[0].found.path, route[0].found.history, route[1..])
  }

  ghost predicate EnteredThrough(
    program: Program, cel: Evaluator, a: World, b: World, r: RuntimeId, boundary: Path, target: Path, history: bool)
  {
    exists route :: EnteredBy(program, cel, a, b, r, boundary, target, history, route)
  }

  ghost predicate DescendedThrough(
    program: Program, cel: Evaluator, a: World, b: World, r: RuntimeId, p: Path, history: bool)
  {
    exists route :: DescendedBy(program, cel, a, b, r, p, history, route)
  }

  lemma EnteredLeaf(
    program: Program, cel: Evaluator, a: World, b: World, r: RuntimeId, boundary: Path, target: Path, history: bool)
    requires Reached(program, a, b, r, boundary, target) && boundary <= target
    requires r in a.runtimes && a.runtimes[r].machine in program.machines
    requires target in program.machines[a.runtimes[r].machine]
    requires !program.machines[a.runtimes[r].machine][target].kind.Composite?
    ensures EnteredThrough(program, cel, a, b, r, boundary, target, history)
  {
    assert EnteredBy(program, cel, a, b, r, boundary, target, history, []);
  }

  lemma EnteredComposite(
    program: Program, cel: Evaluator, a: World, w: World, b: World, r: RuntimeId, boundary: Path, target: Path,
    history: bool)
    requires WalkedTo(program, a, w, r, boundary, target) && boundary <= target
    requires r in a.runtimes && a.runtimes[r].machine in program.machines
    requires target in program.machines[a.runtimes[r].machine]
    requires program.machines[a.runtimes[r].machine][target].kind.Composite?
    requires DescendedThrough(program, cel, w, b, r, target, history)
    ensures EnteredThrough(program, cel, a, b, r, boundary, target, history)
  {
    hide WalkedTo;
    var route :| DescendedBy(program, cel, w, b, r, target, history, route);
    assert EnteredBy(program, cel, a, b, r, boundary, target, history, route);
  }

  lemma DescendedRecord(
    program: Program, cel: Evaluator, a: World, b: World, r: RuntimeId, p: Path)
    requires r in a.runtimes && a.runtimes[r].machine in program.machines
    requires p in program.machines[a.runtimes[r].machine]
    requires p in a.runtimes[r].history && a.runtimes[r].history[p].Some?
    requires EnteredThrough(program, cel, a, b, r, p, a.runtimes[r].history[p].value, false)
    ensures DescendedThrough(program, cel, a, b, r, p, true)
  {
    var route :| EnteredBy(program, cel, a, b, r, p, a.runtimes[r].history[p].value, false, route);
    var longer := [ByRecord(a)] + route;
    assert longer[1..] == route;
    assert DescendedBy(program, cel, a, b, r, p, true, longer);
  }

  lemma DescendedInitial(
    program: Program, cel: Evaluator, a: World, v: World, b: World, r: RuntimeId, p: Path, history: bool, found: Target)
    requires r in a.runtimes && a.runtimes[r].machine in program.machines
    requires p in program.machines[a.runtimes[r].machine]
    requires !(history && p in a.runtimes[r].history && a.runtimes[r].history[p].Some?)
    requires program.machines[a.runtimes[r].machine][p].initial.Some?
    requires Compound(program, cel, a, v, r, p, program.machines[a.runtimes[r].machine][p].initial.value, Initial(p), Some(found))
    requires EnteredThrough(program, cel, v, b, r, p, found.path, found.history)
    ensures DescendedThrough(program, cel, a, b, r, p, history)
  {
    hide Compound;
    var route :| EnteredBy(program, cel, v, b, r, p, found.path, found.history, route);
    var longer := [ByInitial(a, found, v)] + route;
    assert longer[1..] == route;
    assert DescendedBy(program, cel, a, b, r, p, history, longer);
  }

  // ---------------------------------------------------------------- transitions

  /** The states below the boundary were left, and then `found` was entered or, when it is the
      boundary itself, descended into. */
  ghost predicate Landed(
    program: Program, cel: Evaluator, a: World, b: World, r: RuntimeId, source: Path, found: Target, local: bool)
  {
    found.path != [] && exists v :: LandedFrom(program, cel, a, v, b, r, found, Boundary(source, found.path, local))
  }

  ghost predicate LandedFrom(
    program: Program, cel: Evaluator, a: World, v: World, b: World, r: RuntimeId, found: Target, boundary: Path)
  {
    && LeftRecording(program, a, v, r, boundary)
    && if found.path == boundary then DescendedThrough(program, cel, v, b, r, boundary, found.history)
       else EnteredThrough(program, cel, v, b, r, boundary, found.path, found.history)
  }

  /** A selected transition: its actions run, its target is resolved, and the state found is
      moved to. */
  ghost predicate Took(
    program: Program, cel: Evaluator, a: World, w: World, b: World, r: RuntimeId, source: Path, t: Transition,
    site: Site, found: Option<Target>)
  {
    && Acted(program, a, w, r)
    && LogOf(a, r) + [Acts(site)] <= LogOf(w, r)
    && Compound(program, cel, a, w, r, source, t, site, found)
    && if found.None? then b == w
       else
         && Moved(program, w, b, r, source, found.value.path, t.local, found.value.history)
         && Landed(program, cel, w, b, r, source, found.value, t.local)
  }

  /** A `stop` was met while the transition was resolved or, from `w` on, while its target was
      entered; the runtime completed from there. */
  ghost predicate StoppedAt(
    program: Program, cel: Evaluator, a: World, w: World, v: World, b: World, r: RuntimeId, source: Path,
    t: Transition, site: Site)
  {
    && Outside(a, v, r)
    && Completion(v, b, r)
    && (|| CompoundStopped(program, cel, a, v, r, source, t, site)
        || (t.target.Some? && HaltedMoving(program, cel, a, w, v, r, source, t, site)))
  }

  ghost predicate HaltedMoving(
    program: Program, cel: Evaluator, a: World, w: World, v: World, r: RuntimeId, source: Path, t: Transition,
    site: Site)
  {
    && Halted(program, cel, w, v, r)
    && exists found :: Compound(program, cel, a, w, r, source, t, site, Some(found))
  }

  /** What handling an event leaves of the world: isolation, and everything settled. */
  ghost predicate Performed(
    program: Program, cel: Evaluator, a: World, b: World, r: RuntimeId, source: Path, t: Transition, site: Site)
  {
    && Started(program, a, b, r)
    && (|| (exists w, found :: Took(program, cel, a, w, b, r, source, t, site, found))
        || (exists w, v :: StoppedAt(program, cel, a, w, v, b, r, source, t, site)))
  }

  ghost predicate PerformedBy(
    program: Program, cel: Evaluator, a: World, b: World, r: RuntimeId, event: string, s: Selection)
  {
    && s.Selected?
    && r in a.runtimes && a.runtimes[r].machine in program.machines
    && var ts := Handlers(program.machines[a.runtimes[r].machine], s.source, event);
       s.index < |ts| && Performed(program, cel, a, b, r, s.source, ts[s.index], Handler(s.source, event, s.index))
  }

  lemma {:induction false} PicksStart(
    program: Program, cel: Evaluator, r: RuntimeId, source: Path, first: Target, a: World, picks: seq<Pick>,
    current: Target, b: World)
    requires PicksFrom(program, cel, r, source, first, a, picks, current, b) && picks != []
    ensures picks[0].at == first && picks[0].before == a && Chooses(program, cel, r, source, picks[0])
    decreases |picks|
  {
    hide RanAll;
    if |picks| > 1 {
      var k := picks[|picks| - 1];
      PicksStart(program, cel, r, source, first, a, picks[..|picks| - 1], k.at, k.before);
    }
  }

  /** A transition whose target is no choice goes to that target, right after its actions. */
  lemma TookDirect(
    program: Program, cel: Evaluator, a: World, w: World, b: World, r: RuntimeId, source: Path, t: Transition,
    site: Site, found: Option<Target>)
    requires Took(program, cel, a, w, b, r, source, t, site, found) && t.target.Some?
    requires r in a.runtimes && a.runtimes[r].machine in program.machines
    requires t.target.value.path in program.machines[a.runtimes[r].machine]
    requires !program.machines[a.runtimes[r].machine][t.target.value.path].kind.Choice?
    ensures found == t.target
    ensures RanAll(program, cel, a, w, r, source, site, t.actions)
  {
    hide RanAll, Moved, Landed, PicksFrom;
    var v, picks :| CompoundBy(program, cel, a, v, w, r, source, t, site, picks, found.value);
    RanFacts(program, cel, a, v, r, source, site, t.actions);
    ActedSame(program, a, v, r);
    if picks != [] {
      PicksStart(program, cel, r, source, t.target.value, v, picks, found.value, w);
      assert false;
    }
    PicksDone(program, cel, r, source, t.target.value, v, found.value, w);
  }

  lemma PicksDone(
    program: Program, cel: Evaluator, r: RuntimeId, source: Path, first: Target, a: World, current: Target, b: World)
    requires PicksFrom(program, cel, r, source, first, a, [], current, b)
    ensures current == first && b == a
  {
  }

  lemma StayedPerforms(
    program: Program, cel: Evaluator, a: World, w: World, r: RuntimeId, source: Path, t: Transition, site: Site)
    requires Acted(program, a, w, r) && LogOf(a, r) + [Acts(site)] <= LogOf(w, r)
    requires Compound(program, cel, a, w, r, source, t, site, None)
    requires SettledAt(program, w.runtimes, r) && a.runtimes[r].status.Running?
    ensures Performed(program, cel, a, w, r, source, t, site)
  {
    hide Compound;
    assert Took(program, cel, a, w, w, r, source, t, site, None);
  }

  lemma MovedPerforms(
    program: Program, cel: Evaluator, a: World, w: World, b: World, r: RuntimeId, source: Path, t: Transition,
    site: Site, found: Target)
    requires Acted(program, a, w, r) && LogOf(a, r) + [Acts(site)] <= LogOf(w, r)
    requires Compound(program, cel, a, w, r, source, t, site, Some(found))
    requires Moved(program, w, b, r, source, found.path, t.local, found.history) && Ok(program, b.runtimes)
    requires Landed(program, cel, w, b, r, source, found, t.local)
    ensures Performed(program, cel, a, b, r, source, t, site)
  {
    hide Compound, Landed;
    assert Took(program, cel, a, w, b, r, source, t, site, Some(found));
    MovedRests(program, w, b, r, source, found.path, t.local, found.history);
    OutsideTransitive(a, w, b, r);
    SurvivorsTransitive(program, a.runtimes, w.runtimes, b.runtimes, r);
  }

  lemma StopPerforms(
    program: Program, cel: Evaluator, a: World, w: World, v: World, b: World, r: RuntimeId, source: Path,
    t: Transition, site: Site)
    requires StoppedAt(program, cel, a, w, v, b, r, source, t, site) && Started(program, a, b, r)
    ensures Performed(program, cel, a, b, r, source, t, site)
  {
  }

  // ---------------------------------------------------------------- how work faults

  /** Cleaning up what `p` holds faults, or an exit action of `p` does. */
  ghost predicate ExitFails(program: Program, cel: Evaluator, a: World, r: RuntimeId, p: Path, code: FaultCode) {
    || (code == CascadeFault && !Inert(program) && BoundChildren(a.runtimes, r, p) != {})
    || exists v :: ExitActionFails(program, cel, a, v, r, p, code)
  }

  ghost predicate ExitActionFails(
    program: Program, cel: Evaluator, a: World, v: World, r: RuntimeId, p: Path, code: FaultCode)
  {
    && Stripped(a, v, r) && v.runtimes[r].machine in program.machines
    && p in program.machines[v.runtimes[r].machine]
    && FailRan(program, cel, v, r, p, Exit(p), program.machines[v.runtimes[r].machine][p].exit, code)
  }

  /** Some of the active states were left; leaving the next faults. */
  ghost predicate LeaveFails(program: Program, cel: Evaluator, a: World, r: RuntimeId, code: FaultCode) {
    exists v, k :: LeaveFailsAt(program, cel, a, v, r, k, code)
  }

  ghost predicate LeaveFailsAt(
    program: Program, cel: Evaluator, a: World, v: World, r: RuntimeId, k: nat, code: FaultCode)
  {
    && Left(a, v, r, k) && v.runtimes[r].active != []
    && ExitFails(program, cel, v, r, LeafOf(v.runtimes[r]), code)
  }

  /** Completing faults: a descendant does while it is cleaned up, or a state while it is left. */
  ghost predicate CompleteFails(program: Program, cel: Evaluator, a: World, r: RuntimeId, code: FaultCode) {
    || (code == CascadeFault && !Inert(program) && Children(a.runtimes, r) != {})
    || exists v :: Stripped(a, v, r) && LeaveFails(program, cel, v, r, code)
  }

  /** The bindings of the `i`th component fail, after the earlier components have started. */
  ghost predicate ComponentFails(
    program: Program, cel: Evaluator, a: World, v: World, r: RuntimeId, p: Path, pending: seq<RuntimeId>, i: nat)
  {
    && i < |pending| && InitializedUpTo(program, a, v, r, pending, i)
    && v.runtimes[r].machine in program.machines && p in program.machines[v.runtimes[r].machine]
    && i < |program.machines[v.runtimes[r].machine][p].components|
    && var c := program.machines[v.runtimes[r].machine][p].components[i];
       Launches(program, c.machine, c.bindings)
       && BindingsFail(program, cel, v.runtimes[r], p, OfOwner, c.machine, c.bindings)
  }

  ghost predicate ComponentsFail(
    program: Program, cel: Evaluator, a: World, r: RuntimeId, p: Path, pending: seq<RuntimeId>)
  {
    exists v, i :: ComponentFails(program, cel, a, v, r, p, pending, i)
  }

  /** Why entering `p` faults: a variable lacks a value, an entry action faults, a component's
      bindings do, or completing at a final state does. */
  ghost predicate EntryFails(
    program: Program, cel: Evaluator, a: World, r: RuntimeId, p: Path, bindings: Scope, code: FaultCode)
  {
    && r in a.runtimes && a.runtimes[r].machine in program.machines && p in program.machines[a.runtimes[r].machine]
    && (|| (code == InvariantFault && InitialScope(program.machines[a.runtimes[r].machine][p], bindings).None?)
        || (exists v, pending :: EntryActionFails(program, cel, a, v, r, p, pending, code))
        || (code == ActionFault && exists v, w, pending :: StartFails(program, cel, a, v, w, r, p, pending))
        || (program.machines[a.runtimes[r].machine][p].kind.Final?
            && exists v :: Entered(program, a, v, r, p) && CompleteFails(program, cel, v, r, code)))
  }

  ghost predicate EntryActionFails(
    program: Program, cel: Evaluator, a: World, v: World, r: RuntimeId, p: Path, pending: seq<RuntimeId>, code: FaultCode)
    requires r in a.runtimes && a.runtimes[r].machine in program.machines && p in program.machines[a.runtimes[r].machine]
  {
    && Opened(program, a, v, r, p, pending)
    && FailRan(program, cel, v, r, p, Entry(p), program.machines[a.runtimes[r].machine][p].entry, code)
  }

  ghost predicate StartFails(
    program: Program, cel: Evaluator, a: World, v: World, w: World, r: RuntimeId, p: Path, pending: seq<RuntimeId>)
    requires r in a.runtimes && a.runtimes[r].machine in program.machines && p in program.machines[a.runtimes[r].machine]
  {
    && Opened(program, a, v, r, p, pending)
    && RanAll(program, cel, v, w, r, p, Entry(p), program.machines[a.runtimes[r].machine][p].entry)
    && ComponentsFail(program, cel, w, r, p, pending)
  }

  lemma ScopeFaults(program: Program, cel: Evaluator, a: World, r: RuntimeId, p: Path, bindings: Scope)
    requires r in a.runtimes && a.runtimes[r].machine in program.machines && p in program.machines[a.runtimes[r].machine]
    requires InitialScope(program.machines[a.runtimes[r].machine][p], bindings).None?
    ensures EntryFails(program, cel, a, r, p, bindings, InvariantFault)
  {
    hide InitialScope;
  }

  lemma EntryActionFaults(
    program: Program, cel: Evaluator, a: World, v: World, r: RuntimeId, p: Path, bindings: Scope,
    pending: seq<RuntimeId>, code: FaultCode)
    requires r in a.runtimes && a.runtimes[r].machine in program.machines && p in program.machines[a.runtimes[r].machine]
    requires Opened(program, a, v, r, p, pending)
    requires FailRan(program, cel, v, r, p, Entry(p), program.machines[a.runtimes[r].machine][p].entry, code)
    ensures EntryFails(program, cel, a, r, p, bindings, code)
  {
    hide InitialScope, Opened, FailRan;
    assert EntryActionFails(program, cel, a, v, r, p, pending, code);
  }

  lemma StartFaults(
    program: Program, cel: Evaluator, a: World, v: World, w: World, r: RuntimeId, p: Path, bindings: Scope,
    pending: seq<RuntimeId>)
    requires r in a.runtimes && a.runtimes[r].machine in program.machines && p in program.machines[a.runtimes[r].machine]
    requires Opened(program, a, v, r, p, pending)
    requires RanAll(program, cel, v, w, r, p, Entry(p), program.machines[a.runtimes[r].machine][p].entry)
    requires ComponentsFail(program, cel, w, r, p, pending)
    ensures EntryFails(program, cel, a, r, p, bindings, ActionFault)
  {
    hide InitialScope, Opened, RanAll, ComponentsFail;
    assert StartFails(program, cel, a, v, w, r, p, pending);
  }

  lemma FinalFaults(
    program: Program, cel: Evaluator, a: World, v: World, r: RuntimeId, p: Path, bindings: Scope, code: FaultCode)
    requires r in a.runtimes && a.runtimes[r].machine in program.machines && p in program.machines[a.runtimes[r].machine]
    requires program.machines[a.runtimes[r].machine][p].kind.Final?
    requires Entered(program, a, v, r, p) && CompleteFails(program, cel, v, r, code)
    ensures EntryFails(program, cel, a, r, p, bindings, code)
  {
    hide InitialScope, Entered, CompleteFails;
  }

  /** A state on the way from `boundary` down to `target` faults on entry. */
  ghost predicate WalkFails(
    program: Program, cel: Evaluator, a: World, r: RuntimeId, boundary: Path, target: Path, code: FaultCode)
  {
    exists v, t :: WalkFailsAt(program, cel, a, v, r, boundary, t, target, code)
  }

  ghost predicate WalkFailsAt(
    program: Program, cel: Evaluator, a: World, v: World, r: RuntimeId, boundary: Path, t: Path, target: Path,
    code: FaultCode)
  {
    && boundary <= t <= target && t != target
    && WalkedTo(program, a, v, r, boundary, t)
    && EntryFails(program, cel, v, r, target[..|t| + 1], map[], code)
  }

  ghost predicate EnterFailsBy(
    program: Program, cel: Evaluator, a: World, r: RuntimeId, boundary: Path, target: Path, history: bool,
    route: seq<Hop>, code: FaultCode)
    decreases |route|, 1
  {
    || WalkFails(program, cel, a, r, boundary, target, code)
    || (route != []
        && WalkedTo(program, a, route[0].arrived, r, boundary, target)
        && DescendFailsBy(program, cel, route[0].arrived, r, target, history, route, code))
  }

  /** Why descending from `p` faults: what the way down meets does. */
  ghost predicate DescendFailsBy(
    program: Program, cel: Evaluator, a: World, r: RuntimeId, p: Path, history: bool, route: seq<Hop>, code: FaultCode)
    decreases |route|, 0
  {
    && route != [] && route[0].arrived == a
    && r in a.runtimes && a.runtimes[r].machine in program.machines
    && p in program.machines[a.runtimes[r].machine]
    && var initial := program.machines[a.runtimes[r].machine][p].initial;
       if history && p in a.runtimes[r].history && a.runtimes[r].history[p].Some? then
         EnterFailsBy(program, cel, a, r, p, a.runtimes[r].history[p].value, false, route[1..], code)
       else
         && initial.Some? && route[0].ByInitial?
         && (|| CompoundFails(program, cel, a, r, p, initial.value, Initial(p), code)
             || (&& Compound(program, cel, a, route[0].picked, r, p, initial.value, Initial(p), Some(route[0].found))
                 && EnterFailsBy(program, cel, route[0].picked, r, p, route[0].found.path, route[0].found.history,
                                 route[1..], code)))
  }

  ghost predicate EnterFails(
    program: Program, cel: Evaluator, a: World, r: RuntimeId, boundary: Path, target: Path, history: bool, code: FaultCode)
  {
    exists route :: EnterFailsBy(program, cel, a, r, boundary, target, history, route, code)
  }

  ghost predicate DescendFails(
    program: Program, cel: Evaluator, a: World, r: RuntimeId, p: Path, history: bool, code: FaultCode)
  {
    exists route :: DescendFailsBy(program, cel, a, r, p, history, route, code)
  }

  lemma WalkFaults(
    program: Program, cel: Evaluator, a: World, r: RuntimeId, boundary: Path, target: Path, history: bool, code: FaultCode)
    requires WalkFails(program, cel, a, r, boundary, target, code)
    ensures EnterFails(program, cel, a, r, boundary, target, history, code)
  {
    hide WalkFails;
    assert EnterFailsBy(program, cel, a, r, boundary, target, history, [], code);
  }

  lemma DescentFaults(
    program: Program, cel: Evaluator, a: World, w: World, r: RuntimeId, boundary: Path, target: Path, history: bool,
    code: FaultCode)
    requires WalkedTo(program, a, w, r, boundary, target) && DescendFails(program, cel, w, r, target, history, code)
    ensures EnterFails(program, cel, a, r, boundary, target, history, code)
  {
    hide WalkedTo, WalkFails;
    var route :| DescendFailsBy(program, cel, w, r, target, history, route, code);
    assert EnterFailsBy(program, cel, a, r, boundary, target, history, route, code);
  }

  lemma RecordFaults(program: Program, cel: Evaluator, a: World, r: RuntimeId, p: Path, code: FaultCode)
    requires r in a.runtimes && a.runtimes[r].machine in program.machines
    requires p in program.machines[a.runtimes[r].machine]
    requires p in a.runtimes[r].history && a.runtimes[r].history[p].Some?
    requires EnterFails(program, cel, a, r, p, a.runtimes[r].history[p].value, false, code)
    ensures DescendFails(program, cel, a, r, p, true, code)
  {
    var route :| EnterFailsBy(program, cel, a, r, p, a.runtimes[r].history[p].value, false, route, code);
    var longer := [ByRecord(a)] + route;
    assert longer[1..] == route;
    assert DescendFailsBy(program, cel, a, r, p, true, longer, code);
  }

  lemma InitialFaults(
    program: Program, cel: Evaluator, a: World, r: RuntimeId, p: Path, history: bool, code: FaultCode)
    requires r in a.runtimes && a.runtimes[r].machine in program.machines
    requires p in program.machines[a.runtimes[r].machine]
    requires !(history && p in a.runtimes[r].history && a.runtimes[r].history[p].Some?)
    requires program.machines[a.runtimes[r].machine][p].initial.Some?
    requires CompoundFails(program, cel, a, r, p, program.machines[a.runtimes[r].machine][p].initial.value, Initial(p), code)
    ensures DescendFails(program, cel, a, r, p, history, code)
  {
    hide CompoundFails, Compound;
    assert DescendFailsBy(program, cel, a, r, p, history, [ByInitial(a, Target(p, false), a)], code);
  }

  lemma FoundFaults(
    program: Program, cel: Evaluator, a: World, v: World, r: RuntimeId, p: Path, history: bool, found: Target,
    code: FaultCode)
    requires r in a.runtimes && a.runtimes[r].machine in program.machines
    requires p in program.machines[a.runtimes[r].machine]
    requires !(history && p in a.runtimes[r].history && a.runtimes[r].history[p].Some?)
    requires program.machines[a.runtimes[r].machine][p].initial.Some?
    requires Compound(program, cel, a, v, r, p, program.machines[a.runtimes[r].machine][p].initial.value, Initial(p), Some(found))
    requires EnterFails(program, cel, v, r, p, found.path, found.history, code)
    ensures DescendFails(program, cel, a, r, p, history, code)
  {
    hide CompoundFails, Compound;
    var route :| EnterFailsBy(program, cel, v, r, p, found.path, found.history, route, code);
    var longer := [ByInitial(a, found, v)] + route;
    assert longer[1..] == route;
    assert DescendFailsBy(program, cel, a, r, p, history, longer, code);
  }

  /** Why initialization faults: entering the root or descending from it does, or completing
      after a `stop`. */
  ghost predicate InitFails(
    program: Program, cel: Evaluator, a: World, r: RuntimeId, bindings: Scope, code: FaultCode)
  {
    || RootFails(program, cel, a, r, bindings, code)
    || exists v :: Halted(program, cel, a, v, r) && CompleteFails(program, cel, v, r, code)
  }

  ghost predicate RootFails(program: Program, cel: Evaluator, a: World, r: RuntimeId, bindings: Scope, code: FaultCode) {
    || EntryFails(program, cel, a, r, [], bindings, code)
    || exists v :: Entered(program, a, v, r, []) && DescendFails(program, cel, v, r, [], false, code)
  }

  /** Why a transition that has found its target faults: leaving up to the boundary does, or
      entering the target. */
  ghost predicate MoveFails(
    program: Program, cel: Evaluator, a: World, r: RuntimeId, source: Path, found: Target, local: bool, code: FaultCode)
  {
    && found.path != []
    && r in a.runtimes && a.runtimes[r].machine in program.machines
    && var boundary := Boundary(source, found.path, local);
       var z := a.runtimes[r].(history := Recorded(program.machines[a.runtimes[r].machine], a.runtimes[r], boundary));
       || LeaveFails(program, cel, a.(runtimes := a.runtimes[r := z]), r, code)
       || exists v :: MoveFailsFrom(program, cel, a, v, r, found, boundary, code)
  }

  ghost predicate MoveFailsFrom(
    program: Program, cel: Evaluator, a: World, v: World, r: RuntimeId, found: Target, boundary: Path, code: FaultCode)
  {
    && LeftRecording(program, a, v, r, boundary)
    && if found.path == boundary then DescendFails(program, cel, v, r, boundary, found.history, code)
       else EnterFails(program, cel, v, r, boundary, found.path, found.history, code)
  }

  /** Why taking a transition faults: resolving it does, moving to what it found, or completing
      after a `stop`. */
  ghost predicate TakeFails(
    program: Program, cel: Evaluator, a: World, r: RuntimeId, source: Path, t: Transition, site: Site, code: FaultCode)
  {
    || CompoundFails(program, cel, a, r, source, t, site, code)
    || (exists w, found :: FoundFails(program, cel, a, w, r, source, t, site, found, code))
    || (exists w, v :: StopFails(program, cel, a, w, v, r, source, t, site, code))
  }

  ghost predicate FoundFails(
    program: Program, cel: Evaluator, a: World, w: World, r: RuntimeId, source: Path, t: Transition, site: Site,
    found: Target, code: FaultCode)
  {
    && Compound(program, cel, a, w, r, source, t, site, Some(found))
    && MoveFails(program, cel, w, r, source, found, t.local, code)
  }

  ghost predicate StopFails(
    program: Program, cel: Evaluator, a: World, w: World, v: World, r: RuntimeId, source: Path, t: Transition,
    site: Site, code: FaultCode)
  {
    && CompleteFails(program, cel, v, r, code)
    && (|| CompoundStopped(program, cel, a, v, r, source, t, site)
        || HaltedMoving(program, cel, a, w, v, r, source, t, site))
  }
}
