/** Which transition an event selects: the level-by-level search of `process`, as a function
    of what the guards say. */
module Selection {
  import opened Options
  import opened Statechart

  /** A guard that was evaluated gives a truth value; one that failed gives `None`. */
  type Guards = (Path, nat) -> Option<bool>

  datatype Selection = Selected(source: Path, index: nat) | Defers | Unhandled | GuardRaises

  datatype Scan = Enabled(index: nat) | NoneEnabled | ScanRaises

  /** The first enabled transition of one state, from the `i`th on. */
  function ScanFrom(guards: Guards, p: Path, ts: seq<Transition>, i: nat): Scan
    requires i <= |ts|
    decreases |ts| - i
  {
    if i == |ts| then NoneEnabled
    else if ts[i].guard.None? then Enabled(i)
    else if guards(p, i).None? then ScanRaises
    else if guards(p, i).value then Enabled(i)
    else ScanFrom(guards, p, ts, i + 1)
  }

  function Handlers(m: Machine, p: Path, event: string): seq<Transition> {
    if p in m && event in m[p].handlers then m[p].handlers[event] else []
  }

  predicate Deferring(m: Machine, p: Path, event: string) {
    p in m && event in m[p].deferred
  }

  /** From the state `p` outwards. */
  function SelectFrom(m: Machine, guards: Guards, p: Path, event: string): Selection {
    match ScanFrom(guards, p, Handlers(m, p, event), 0)
    case Enabled(i) => Selected(p, i)
    case ScanRaises => GuardRaises
    case NoneEnabled =>
      if Deferring(m, p, event) then Defers
      else if p == [] then Unhandled
      else SelectFrom(m, guards, Parent(p), event)
  }

  lemma {:induction false} ScanEnabled(guards: Guards, p: Path, ts: seq<Transition>, i: nat)
    requires i <= |ts|
    ensures var s := ScanFrom(guards, p, ts, i);
      s.Enabled? ==> i <= s.index < |ts| && (ts[s.index].guard.Some? ==> guards(p, s.index) == Some(true))
    decreases |ts| - i
  {
    if i < |ts| && ts[i].guard.Some? && guards(p, i) == Some(false) {
      ScanEnabled(guards, p, ts, i + 1);
    }
  }

  /** The selected source is the state or an ancestor, and its guard holds. */
  lemma {:induction false} SelectFromAbove(m: Machine, guards: Guards, p: Path, event: string)
    ensures var s := SelectFrom(m, guards, p, event);
      s.Selected? ==>
        && s.source <= p && s.source in m
        && s.index < |Handlers(m, s.source, event)|
        && (Handlers(m, s.source, event)[s.index].guard.Some? ==> guards(s.source, s.index) == Some(true))
  {
    ScanEnabled(guards, p, Handlers(m, p, event), 0);
    if ScanFrom(guards, p, Handlers(m, p, event), 0).NoneEnabled? && !Deferring(m, p, event) && p != [] {
      SelectFromAbove(m, guards, Parent(p), event);
    }
  }

  lemma {:induction false} NoGuards(guards: Guards, p: Path, ts: seq<Transition>, i: nat)
    requires i <= |ts| && forall j :: 0 <= j < |ts| ==> ts[j].guard.None?
    ensures !ScanFrom(guards, p, ts, i).ScanRaises?
  {
  }

  /** Without guards, no guard fails. */
  lemma {:induction false} FaultlessSelection(program: Program, id: MachineId, guards: Guards, p: Path, event: string)
    requires Faultless(program) && id in program.machines
    ensures !SelectFrom(program.machines[id], guards, p, event).GuardRaises?
  {
    NoGuards(guards, p, Handlers(program.machines[id], p, event), 0);
    if p != [] {
      FaultlessSelection(program, id, guards, Parent(p), event);
    }
  }
}
