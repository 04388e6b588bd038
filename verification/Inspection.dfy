/** Candidate inspection (`inspection.py`): what an event may lead to whatever the guards say,
    and a bounded evaluation of the guards that are reached. */
module Inspection {
  import opened Options
  import opened Statechart
  import opened Selection
  import CelValues
  import Cel

  datatype Disposition = HandledNow | DeferredLater | UnhandledEvent

  /** One active state, innermost first: its transitions for the event, and whether it defers it. */
  datatype Level = Level(state: Path, branches: seq<Transition>, defers: bool)

  function LevelsFrom(m: Machine, p: Path, event: string): seq<Level> {
    [Level(p, Handlers(m, p, event), Deferring(m, p, event))]
    + if p == [] then [] else LevelsFrom(m, Parent(p), event)
  }

  function DispositionOf(s: Selection): Disposition {
    match s
    case Selected(_, _) => HandledNow
    case Defers => DeferredLater
    case _ => UnhandledEvent
  }

  // ---------------------------------------------------------------- structural inspection

  predicate Unguarded(level: Level) {
    exists i :: 0 <= i < |level.branches| && level.branches[i].guard.None?
  }

  /** What one level makes of the dispositions that the levels outside it allow. */
  function Through(level: Level, outer: set<Disposition>): set<Disposition> {
    if level.branches != [] then
      if Unguarded(level) then {HandledNow}
      else if level.defers then {HandledNow, DeferredLater}
      else outer + {HandledNow}
    else if level.defers then {DeferredLater}
    else outer
  }

  function Possible(levels: seq<Level>): set<Disposition> {
    if levels == [] then {UnhandledEvent} else Through(levels[0], Possible(levels[1..]))
  }

  /** `_structural`: from the outermost level inwards. */
  method Structural(levels: seq<Level>) returns (possible: set<Disposition>)
    ensures possible == Possible(levels)
  {
    possible := {UnhandledEvent};
    var i := |levels|;
    while i > 0
      invariant 0 <= i <= |levels|
      invariant possible == Possible(levels[i..])
    {
      i := i - 1;
      var level := levels[i];
      assert levels[i..][0] == level && levels[i..][1..] == levels[i + 1..];
      if level.branches != [] {
        var j := 0;
        while j < |level.branches| && level.branches[j].guard.Some?
          invariant 0 <= j <= |level.branches|
          invariant forall k :: 0 <= k < j ==> level.branches[k].guard.Some?
        {
          j := j + 1;
        }
        if j < |level.branches| {
          possible := {HandledNow};
        } else {
          possible := possible + {HandledNow};
          if level.defers {
            possible := {HandledNow, DeferredLater};
          }
        }
      } else if level.defers {
        possible := {DeferredLater};
      }
    }
  }

  /** Every guard evaluates to a truth value. */
  ghost predicate Truthful(guards: Guards) {
    forall p, i :: guards(p, i).Some?
  }

  lemma {:induction false} ScanAll(guards: Guards, p: Path, ts: seq<Transition>, i: nat, truth: bool)
    requires i <= |ts| && forall j :: guards(p, j) == Some(truth)
    ensures truth || (forall j :: i <= j < |ts| ==> ts[j].guard.Some?) ==>
              ScanFrom(guards, p, ts, i) == if truth && i < |ts| then Enabled(i) else NoneEnabled
    decreases |ts| - i
  {
    if i < |ts| && !truth {
      ScanAll(guards, p, ts, i + 1, truth);
    }
  }

  lemma {:induction false} ScanTruthful(guards: Guards, p: Path, ts: seq<Transition>, i: nat)
    requires i <= |ts| && Truthful(guards)
    ensures !ScanFrom(guards, p, ts, i).ScanRaises?
    ensures ScanFrom(guards, p, ts, i).Enabled? ==> i < |ts|
    ensures (exists j :: i <= j < |ts| && ts[j].guard.None?) ==> ScanFrom(guards, p, ts, i).Enabled?
    decreases |ts| - i
  {
    if i < |ts| {
      ScanTruthful(guards, p, ts, i + 1);
    }
  }

  /** Guards that say the same from `p` outwards select the same. */
  lemma {:induction false} OnlyOuterGuards(m: Machine, a: Guards, b: Guards, p: Path, event: string)
    requires forall q, i :: |q| <= |p| ==> a(q, i) == b(q, i)
    ensures SelectFrom(m, a, p, event) == SelectFrom(m, b, p, event)
  {
    OnlyOwnGuards(a, b, p, Handlers(m, p, event), 0);
    if p != [] {
      OnlyOuterGuards(m, a, b, Parent(p), event);
    }
  }

  lemma {:induction false} OnlyOwnGuards(a: Guards, b: Guards, p: Path, ts: seq<Transition>, i: nat)
    requires i <= |ts| && forall j :: a(p, j) == b(p, j)
    ensures ScanFrom(a, p, ts, i) == ScanFrom(b, p, ts, i)
    decreases |ts| - i
  {
    if i < |ts| {
      OnlyOwnGuards(a, b, p, ts, i + 1);
    }
  }

  /** Each disposition that the search finds is a structural one. */
  lemma {:induction false} FoundIsPossible(m: Machine, guards: Guards, p: Path, event: string)
    requires Truthful(guards)
    ensures DispositionOf(SelectFrom(m, guards, p, event)) in Possible(LevelsFrom(m, p, event))
    ensures !SelectFrom(m, guards, p, event).GuardRaises?
  {
    ScanTruthful(guards, p, Handlers(m, p, event), 0);
    var levels := LevelsFrom(m, p, event);
    if p != [] {
      FoundIsPossible(m, guards, Parent(p), event);
      assert levels[1..] == LevelsFrom(m, Parent(p), event);
    } else {
      assert levels[1..] == [];
    }
  }

  /** The guards `outer`, but all those of `p` say `truth`. */
  function With(outer: Guards, p: Path, truth: bool): Guards {
    (q: Path, i: nat) => if q == p then Some(truth) else outer(q, i)
  }

  /** Each structural disposition is found for some truth values of the guards. */
  lemma {:induction false} PossibleIsFound(m: Machine, p: Path, event: string, d: Disposition) returns (guards: Guards)
    requires d in Possible(LevelsFrom(m, p, event))
    ensures Truthful(guards) && DispositionOf(SelectFrom(m, guards, p, event)) == d
  {
    var levels := LevelsFrom(m, p, event);
    var level := levels[0];
    var ts := Handlers(m, p, event);
    var all: Guards := (q: Path, i: nat) => Some(true);
    var none: Guards := (q: Path, i: nat) => Some(false);
    assert levels[1..] == if p == [] then [] else LevelsFrom(m, Parent(p), event);
    ScanAll(all, p, ts, 0, true);
    if ts != [] && d == HandledNow {
      return all;
    }
    ScanAll(none, p, ts, 0, false);
    if level.defers || p == [] {
      return none;
    }
    var outer := PossibleIsFound(m, Parent(p), event, d);
    guards := With(outer, p, false);
    ScanAll(guards, p, ts, 0, false);
    OnlyOuterGuards(m, guards, outer, Parent(p), event);
  }

  /** Structural inspection is exact: it gives the dispositions that the search of a dispatch
      can reach over all truth values of the guards, and no other. */
  lemma StructuralExact(m: Machine, p: Path, event: string, d: Disposition)
    ensures d in Possible(LevelsFrom(m, p, event)) <==>
              exists guards: Guards :: Truthful(guards) && DispositionOf(SelectFrom(m, guards, p, event)) == d
  {
    if d in Possible(LevelsFrom(m, p, event)) {
      var guards := PossibleIsFound(m, p, event, d);
    }
    forall guards: Guards | Truthful(guards) && DispositionOf(SelectFrom(m, guards, p, event)) == d
      ensures d in Possible(LevelsFrom(m, p, event))
    {
      FoundIsPossible(m, guards, p, event);
    }
  }

  // ---------------------------------------------------------------- semantic inspection

  datatype Inspected = Found(disposition: Disposition) | LimitExceeded(at: Path) | GuardFailure(at: Path)

  /** What each guard costs and how it ends, and whether it fits the caps on its size. */
  datatype Evidence = Evidence(runs: (Path, nat) -> CelValues.Step, capped: (Path, nat) -> bool)

  /** What a dispatch would learn of the guards. */
  function GuardsOf(e: Evidence): Guards {
    (p: Path, i: nat) =>
      if e.runs(p, i).outcome.Ok? && e.runs(p, i).outcome.value.Bool?
      then Some(e.runs(p, i).outcome.value.truth)
      else None
  }

  /** The guards that the search evaluates, their steps together, and whether all fit the caps. */
  datatype Need = Need(guards: nat, steps: nat, capped: bool)

  predicate Within(n: Need, guards: nat, steps: nat) {
    n.guards <= guards && n.steps <= steps && n.capped
  }

  /** What the search needs from the `i`th transition of `p` on. */
  function NeedFrom(m: Machine, e: Evidence, p: Path, event: string, i: nat): Need
    requires i <= |Handlers(m, p, event)|
    decreases |p|, |Handlers(m, p, event)| - i
  {
    var ts := Handlers(m, p, event);
    if i == |ts| then
      if Deferring(m, p, event) || p == [] then Need(0, 0, true) else NeedFrom(m, e, Parent(p), event, 0)
    else if ts[i].guard.None? then Need(0, 0, true)
    else if GuardsOf(e)(p, i) != Some(false) then Need(1, e.runs(p, i).cost, e.capped(p, i))
    else
      var rest := NeedFrom(m, e, p, event, i + 1);
      Need(1 + rest.guards, e.runs(p, i).cost + rest.steps, e.capped(p, i) && rest.capped)
  }

  /** What is found does not depend on guards that were not reached: making every other guard
      evaluate keeps the selection, so the disposition is a structural one. */
  function Completed(guards: Guards): Guards {
    (p: Path, i: nat) => if guards(p, i).Some? then guards(p, i) else Some(false)
  }

  lemma {:induction false} CompletedScan(guards: Guards, p: Path, ts: seq<Transition>, i: nat)
    requires i <= |ts| && !ScanFrom(guards, p, ts, i).ScanRaises?
    ensures ScanFrom(Completed(guards), p, ts, i) == ScanFrom(guards, p, ts, i)
    decreases |ts| - i
  {
    if i < |ts| && ts[i].guard.Some? && guards(p, i) == Some(false) {
      CompletedScan(guards, p, ts, i + 1);
    }
  }

  lemma {:induction false} SelectedIsPossible(m: Machine, guards: Guards, p: Path, event: string)
    requires !SelectFrom(m, guards, p, event).GuardRaises?
    ensures SelectFrom(m, Completed(guards), p, event) == SelectFrom(m, guards, p, event)
    ensures DispositionOf(SelectFrom(m, guards, p, event)) in Possible(LevelsFrom(m, p, event))
  {
    CompletedScan(guards, p, Handlers(m, p, event), 0);
    if ScanFrom(guards, p, Handlers(m, p, event), 0).NoneEnabled? && !Deferring(m, p, event) && p != [] {
      SelectedIsPossible(m, guards, Parent(p), event);
    }
    FoundIsPossible(m, Completed(guards), p, event);
  }

  /** The loop of `inspect_candidate` in semantic mode, within limits on the number of guards
      and on their evaluation steps. What it finds is what a dispatch would select, and one of
      the structural dispositions; the limits are exceeded exactly when they are below what the
      search needs. */
  method Inspect(m: Machine, e: Evidence, leaf: Path, event: string, maximumGuards: nat, maximumSteps: nat)
    returns (inspected: Inspected)
    ensures var selection := SelectFrom(m, GuardsOf(e), leaf, event);
      && (inspected.Found? ==>
            !selection.GuardRaises? && inspected.disposition == DispositionOf(selection))
      && (inspected.GuardFailure? ==> selection.GuardRaises?)
    ensures inspected.Found? ==> inspected.disposition in Possible(LevelsFrom(m, leaf, event))
    ensures inspected.LimitExceeded? <==> !Within(NeedFrom(m, e, leaf, event, 0), maximumGuards, maximumSteps)
  {
    if !SelectFrom(m, GuardsOf(e), leaf, event).GuardRaises? {
      SelectedIsPossible(m, GuardsOf(e), leaf, event);
    }
    ghost var enough := Within(NeedFrom(m, e, leaf, event, 0), maximumGuards, maximumSteps);
    var guards: nat, remaining: nat := maximumGuards, maximumSteps;
    var current := leaf;
    while true
      invariant SelectFrom(m, GuardsOf(e), current, event) == SelectFrom(m, GuardsOf(e), leaf, event)
      invariant enough <==> Within(NeedFrom(m, e, current, event, 0), guards, remaining)
      decreases |current|
    {
      var ts := Handlers(m, current, event);
      var i := 0;
      while i < |ts|
        invariant 0 <= i <= |ts|
        invariant ScanFrom(GuardsOf(e), current, ts, i) == ScanFrom(GuardsOf(e), current, ts, 0)
        invariant enough <==> Within(NeedFrom(m, e, current, event, i), guards, remaining)
      {
        if ts[i].guard.None? {
          return Found(HandledNow);
        }
        if guards == 0 {
          return LimitExceeded(current);
        }
        guards := guards - 1;
        var verdict := Cel.Judged(e.runs(current, i), e.capped(current, i), remaining);
        if verdict.Exceeded? {
          return LimitExceeded(current);
        }
        if verdict.Fails? {
          return GuardFailure(current);
        }
        remaining := remaining - verdict.spent;
        if verdict.truth {
          return Found(HandledNow);
        }
        i := i + 1;
      }
      if Deferring(m, current, event) {
        return Found(DeferredLater);
      }
      if current == [] {
        return Found(UnhandledEvent);
      }
      current := Parent(current);
    }
  }
}
