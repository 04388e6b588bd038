/** One run-to-completion execution of `engine.py`: actions, entry and exit of states,
    starting and cleaning up children, and contained initialization faults.

    The evaluator is a parameter. Children are visited in some order; the source sorts
    them. Exceptions are the `Flow` a method returns, and `stack` is the recursion that the
    interpreter still allows. */
module Engine {
  import opened Options
  import opened Statechart
  import opened Runtimes
  import opened RuntimeSteps
  import opened EngineFrames
  import opened EngineActions
  import opened EngineTransitions
  import opened QuietPrograms
  import opened Selection

  class Execution {
    const program: Program
    const cel: Evaluator
    const dispatching: bool
    var runtimes: Forest
    var emissions: seq<Emission>
    var nextOutput: nat
    ghost var log: map<RuntimeId, seq<Phase>>

    constructor (
      program: Program, cel: Evaluator, dispatching: bool,
      runtimes: Forest, nextOutput: nat)
      ensures this.program == program && this.cel == cel && this.dispatching == dispatching
      ensures Now() == World(runtimes, [], nextOutput, map[])
    {
      this.program, this.cel, this.dispatching := program, cel, dispatching;
      this.runtimes, this.emissions, this.nextOutput, this.log := runtimes, [], nextOutput, map[];
    }

    ghost function Now(): World
      reads this
    {
      World(runtimes, emissions, nextOutput, log)
    }

    /** The loader has accepted the program, the forest is well formed and `r` runs. */
    ghost predicate Ready(r: RuntimeId)
      reads this
    {
      && Loaded(program) && Ok(program, runtimes)
      && r in runtimes && runtimes[r].status.Running? && runtimes[r].machine in program.machines
    }

    function Evaluate(r: RuntimeId, p: Path, view: View, e: Expression): Option<Value>
      requires r in runtimes
      reads `runtimes
    {
      Evaluated(cel, runtimes[r], p, view, e)
    }

    // -------------------------------------------------------------- actions

    method AssignVariable(r: RuntimeId, p: Path, view: View, name: Name, value: Expression) returns (flow: Flow)
      requires Ready(r)
      modifies this
      ensures flow.Done? || flow.Raised?
      ensures Ok(program, runtimes) && Acted(program, old(Now()), Now(), r)
      ensures Now() == old(Now()).(runtimes := runtimes)
      ensures flow.Done? ==> AssignEffect(program, cel, old(Now()), Now(), r, p, view, name, value)
      ensures OnlyRemoved(old(runtimes), runtimes, r) && runtimes[r].nextSpawn == old(runtimes[r].nextSpawn)
      ensures flow.Raised? ==> runtimes == old(runtimes)
      ensures flow.Raised? ==> AssignFails(program, cel, old(Now()), r, p, view, name, value, flow.code)
    {
      hide Ok, Faultless, Acted, Survivors, Outside;
      ActedSelf(program, Now(), r);
      var m := program.machines[runtimes[r].machine];
      var v := Evaluate(r, p, view, value);
      if v.None? {
        return Raised(ActionFault);
      }
      var slot := VariableSlot(m, runtimes[r], p, name);
      if slot.None? {
        return Raised(InvariantFault);
      }
      if !Matches(v.value, m[slot.value].variables[name]) {
        return Raised(ActionFault);
      }
      AssignedOk(program, runtimes, r, slot.value, name, v.value);
      var y := Assigned(runtimes[r], slot.value, name, v.value);
      runtimes := runtimes[r := y];
      OwnRecord(program, old(Now()), Now(), r, y);
      return Done;
    }

    /** `_target_eligibility`, walking up the owners. */
    method CheckEligible(id: RuntimeId) returns (eligible: bool)
      ensures eligible == Eligible(runtimes, id)
    {
      if id !in runtimes || !runtimes[id].status.Running? {
        return false;
      }
      var current := id;
      while !current.Root?
        invariant OwnersSound(runtimes, id) == OwnersSound(runtimes, current)
        decreases Height(current)
      {
        if current.owner !in runtimes || runtimes[current.owner].status.Faulted? {
          return false;
        }
        current := current.owner;
      }
      return true;
    }

    method ResolveAll(r: RuntimeId, p: Path, view: View, recipients: seq<Recipient>)
      returns (flow: Flow, all: seq<Resolution>)
      requires r in runtimes
      ensures flow.Done? || flow.Raised?
      ensures flow.Done? ==> all == ResolvedAll(cel, runtimes, r, p, view, recipients)
      ensures flow.Done? <==> Accepted(ResolvedAll(cel, runtimes, r, p, view, recipients))
      ensures flow.Raised? ==> ResolveFails(cel, runtimes, r, p, view, recipients, flow.code)
    {
      var values: seq<Value> := [];
      all := [];
      while |values| < |recipients|
        invariant |values| <= |recipients|
        invariant forall i :: 0 <= i < |values| ==> RecipientValue(cel, runtimes[r], p, view, recipients[i]) == Some(values[i])
      {
        var value := RecipientValue(cel, runtimes[r], p, view, recipients[|values|]);
        if value.None? {
          assert RecipientFails(cel, runtimes[r], p, view, recipients);
          return Raised(ActionFault), [];
        }
        values := values + [value.value];
      }
      while |all| < |recipients|
        invariant |all| <= |recipients|
        invariant forall i :: 0 <= i < |all| ==> all[i] == Resolved(cel, runtimes, r, p, view, recipients[i]) && !all[i].Refused?
      {
        var resolution := Resolve(runtimes, r, recipients[|all|], values[|all|]);
        if resolution.Refused? {
          assert FirstRefusal(ResolvedAll(cel, runtimes, r, p, view, recipients), |all|, resolution.code);
          return Raised(resolution.code), [];
        }
        all := all + [resolution];
      }
      return Done, all;
    }

    method EmitAll(r: RuntimeId, event: string, payload: Value, all: seq<Resolution>)
      modifies `emissions, `nextOutput
      ensures emissions == old(emissions) + Sent(r, event, payload, all, old(nextOutput))
      ensures nextOutput == old(nextOutput) + OutwardCount(all)
    {
      var i := 0;
      while i < |all|
        invariant 0 <= i <= |all|
        invariant emissions == old(emissions) + Sent(r, event, payload, all[..i], old(nextOutput))
        invariant nextOutput == old(nextOutput) + OutwardCount(all[..i])
      {
        assert all[..i + 1][..i] == all[..i];
        match all[i] {
          case Delivered(target) =>
            emissions := emissions + [Internal(r, target, event, payload)];
          case Outward =>
            emissions := emissions + [External(r, event, payload, nextOutput)];
            nextOutput := nextOutput + 1;
          case Refused(_) =>
        }
        i := i + 1;
      }
      assert all[..i] == all;
    }

    /** All recipients are resolved before anything is emitted. */
    method SendEvent(r: RuntimeId, p: Path, view: View, event: string, payload: Expression, recipients: seq<Recipient>)
      returns (flow: Flow)
      requires r in runtimes
      modifies `emissions, `nextOutput
      ensures flow.Done? || flow.Raised?
      ensures flow.Raised? ==> emissions == old(emissions) && nextOutput == old(nextOutput)
      ensures Emitted(old(Now()), Now())
      ensures flow.Done? ==> SendEffect(cel, old(Now()), Now(), r, p, view, event, payload, recipients)
      ensures flow.Done? <==>
                Evaluate(r, p, view, payload).Some? && Accepted(ResolvedAll(cel, runtimes, r, p, view, recipients))
      ensures flow.Raised? ==>
                if Evaluate(r, p, view, payload).None? then flow.code == ActionFault
                else ResolveFails(cel, runtimes, r, p, view, recipients, flow.code)
    {
      hide Sent, OutwardCount, Numbering, ResolvedAll, Emitted, Visible, Accepted, ResolveFails;
      EmittedNothing(Now(), Now());
      var v := Evaluate(r, p, view, payload);
      if v.None? {
        return Raised(ActionFault);
      }
      var all;
      flow, all := ResolveAll(r, p, view, recipients);
      if flow.Done? {
        SentNumbered(r, event, v.value, all, nextOutput);
        EmitAll(r, event, v.value, all);
        EmittedTail(old(Now()), Now(), Sent(r, event, v.value, all, old(nextOutput)));
      }
    }

    /** `owns_descendant`, walking up the owners. */
    method OwnsDescendant(r: RuntimeId, id: RuntimeId) returns (owns: bool)
      requires Ok(program, runtimes) && id in runtimes
      ensures owns <==> Within(id, r) && id != r
    {
      var current := id;
      while !current.Root?
        invariant current in runtimes
        invariant Within(id, r) && id != r <==> Within(current, r) && current != r
        decreases Height(current)
      {
        assert RuntimeOk(program, runtimes, current);
        OwnerOutside(current, current.owner);
        if current.owner == r {
          OwnerOutside(current, r);
          return true;
        }
        current := current.owner;
      }
      return false;
    }

    method PerformAction(r: RuntimeId, p: Path, site: Site, i: nat, action: Action, stack: nat) returns (flow: Flow)
      requires Ready(r) && RunnableAt(program, runtimes[r].machine, site, action)
      requires site.Exit? ==> stack == 0
      modifies this
      ensures flow.Done? || flow.Stopped? ==> Ok(program, runtimes) && Acted(program, old(Now()), Now(), r)
      ensures flow.Done? || flow.Stopped? ==> LogOf(Now(), r) == LogOf(old(Now()), r)
      ensures flow.Raised? ==> r in runtimes && Outside(old(Now()), Now(), r)
      ensures flow.Aborted? ==> !Contained(program)
      ensures flow.Stopped? <==> action.Stop?
      ensures flow.Done? || flow.Stopped? ==> ActionEffect(program, cel, old(Now()), Now(), r, p, site, i, action)
      ensures flow.Raised? ==> ActionFails(program, cel, old(Now()), r, p, site, action, flow.code)
      ensures site.Exit? ==> !flow.Aborted?
      ensures site.Exit? && flow.Done? ==>
                OnlyRemoved(old(runtimes), runtimes, r) && runtimes[r].nextSpawn == old(runtimes[r].nextSpawn)
      decreases site.Handler?, Level(program, runtimes[r].machine, site),
        if site.Exit? then Subtree(runtimes, r) else NOBODY, stack, NOWHERE, 1
    {
      hide Ok, Inert, Loaded, NodeOk, UniqueComponents, Contained, Acted, Survivors, Outside, OnlyRemoved,
        AssignEffect, SendEffect, SpawnEffect, Cancelled, AssignFails, ResolveFails, SpawnFails, CancelFails;
      ghost var w0 := Now();
      ActedSelf(program, w0, r);
      RankKnown(program, runtimes[r].machine);
      match action {
        case Assign(name, value) =>
          flow := AssignVariable(r, p, ViewOf(site), name, value);
        case Send(event, payload, recipients) =>
          flow := SendEvent(r, p, ViewOf(site), event, payload, recipients);
          OnlyRemovedSelf(runtimes, r);
          OwnRecord(program, w0, Now(), r, runtimes[r]);
        case Spawn(machine, bindings, bindTo) =>
          flow := SpawnInstance(r, p, ActionSite(runtimes[r].machine, site, i), machine, bindings, bindTo, stack);
        case Cancel(reference) =>
          flow := CancelInstance(r, p, ViewOf(site), reference);
        case Stop =>
          flow := Stopped;
      }
    }

    method CancelInstance(r: RuntimeId, p: Path, view: View, reference: Expression) returns (flow: Flow)
      requires Ready(r)
      modifies this
      ensures flow.Done? || flow.Raised?
      ensures flow.Done? ==> Ok(program, runtimes) && Acted(program, old(Now()), Now(), r)
      ensures flow.Done? ==> LogOf(Now(), r) == LogOf(old(Now()), r)
      ensures flow.Done? ==> OnlyRemoved(old(runtimes), runtimes, r) && runtimes[r] == old(runtimes[r])
      ensures flow.Done? ==> Cancelled(program, old(Now()), Now(), r, old(Evaluate(r, p, view, reference)))
      ensures flow.Raised? ==> r in runtimes && Outside(old(Now()), Now(), r)
      ensures flow.Raised? ==> CancelFails(program, old(Now()), r, old(Evaluate(r, p, view, reference)), flow.code)
      decreases false, 0, Subtree(runtimes, r), 0, NOWHERE, 0
    {
      hide Ok, Faultless, Acted, Survivors, Outside;
      ghost var w0 := Now();
      ActedSelf(program, w0, r);
      OutsideSelf(w0, r);
      var v := Evaluate(r, p, view, reference);
      if v.None? {
        return Raised(ActionFault);
      }
      if !v.value.Reference? || v.value.instance !in runtimes || !v.value.instance.Spawned? {
        return Done;
      }
      var id := v.value.instance;
      var owns := OwnsDescendant(r, id);
      if !owns {
        return Done;
      }
      SubtreeBelow(runtimes, id, r);
      flow := CleanupDescendant(id, false);
      if flow.Raised? {
        OutsideWiden(w0, Now(), id, r);
        OwnerOutside(id, r);
        OutsideAt(w0, Now(), id, r);
      } else {
        CancelActed(program, w0, Now(), id, r);
        OwnerOutside(id, r);
      }
    }

    // -------------------------------------------------------------- cleaning up

    /** `cleanup_descendant`: a fault on the way becomes a cascade fault. */
    method CleanupDescendant(c: RuntimeId, frozen: bool) returns (flow: Flow)
      requires Loaded(program) && Ok(program, runtimes) && c in runtimes && !c.Root?
      modifies this
      ensures flow.Done? || flow == Raised(CascadeFault)
      ensures flow.Done? ==> Ok(program, runtimes) && CleanedUp(program, old(Now()), Now(), c)
      ensures flow.Raised? ==> c in runtimes && Outside(old(Now()), Now(), c)
      ensures flow.Raised? || flow.Stopped? ==> !Inert(program)
      ensures frozen || old(runtimes[c].status.Faulted?) ==> flow.Done? && Silent(old(Now()), Now())
      decreases false, 0, Subtree(runtimes, c), 0, NOWHERE, 8
    {
      hide Ok, Inert, CleanedUp, Outside, Silent;
      flow := CleanupRuntime(c, frozen);
      if flow.Raised? {
        flow := Raised(CascadeFault);
      }
    }

    /** `cleanup_runtime`: descendants first, then the runtime's own states innermost first,
        unless it or a runtime above it has faulted; then it is disposed of. */
    method CleanupRuntime(c: RuntimeId, frozen: bool) returns (flow: Flow)
      requires Loaded(program) && Ok(program, runtimes) && c in runtimes && !c.Root?
      modifies this
      ensures flow.Done? || flow.Raised?
      ensures flow.Done? ==> Ok(program, runtimes) && CleanedUp(program, old(Now()), Now(), c)
      ensures flow.Raised? ==> c in runtimes && Outside(old(Now()), Now(), c)
      ensures flow.Raised? || flow.Stopped? ==> !Inert(program)
      ensures flow.Done? && !frozen && old(runtimes[c].status.Running?) ==>
                Logged(old(Now()), Now(), c, LeaveDown(old(runtimes[c].active), 0))
      ensures frozen || old(runtimes[c].status.Faulted?) ==> flow.Done? && Silent(old(Now()), Now())
      decreases false, 0, Subtree(runtimes, c), 0, NOWHERE, 7
    {
      hide Ok, Inert, Outside, Silent;
      ghost var w0 := Now();
      var still := frozen || runtimes[c].status.Faulted?;
      flow := CleanupChildren(c, Children(runtimes, c), still);
      if !flow.Done? {
        return;
      }
      ghost var w1 := Now();
      if runtimes[c].status.Running? && !still {
        MachineKnown(program, runtimes, c);
        SubtreeShrinks(w0.runtimes, w1.runtimes, c);
        flow := ExitTo(c, 0);
        OutsideTransitive(w0, w1, Now(), c);
        if !flow.Done? {
          return;
        }
        StillChildless(program, w1.runtimes, runtimes, c);
      }
      ghost var w2 := Now();
      PrunedSame(program, w0, w2, c);
      PrunedLast(program, runtimes, c);
      PrunedOk(program, runtimes, c);
      if c.Component? {
        var name := ComponentName(program, c.slot);
        if c.owner in runtimes && name in runtimes[c.owner].components && runtimes[c.owner].components[name] == c {
          runtimes := runtimes[c.owner := DropComponent(runtimes[c.owner], name)];
        }
      }
      runtimes := runtimes - {c};
      CleanedUpFrom(program, w0, w2, Now(), c);
      SilentAfter(w0, w2, Now());
    }

    /** Cleans up some of the children of `r`. */
    method CleanupChildren(r: RuntimeId, children: set<RuntimeId>, frozen: bool) returns (flow: Flow)
      requires Loaded(program) && Ok(program, runtimes) && r in runtimes && children <= Children(runtimes, r)
      modifies this
      ensures flow.Done? || flow == Raised(CascadeFault)
      ensures flow.Done? ==> Ok(program, runtimes) && Stripped(old(Now()), Now(), r)
      ensures flow.Done? ==> Children(runtimes, r) == Children(old(runtimes), r) - children
      ensures flow.Raised? ==> r in runtimes && Outside(old(Now()), Now(), r)
      ensures children == {} ==> flow.Done?
      ensures flow.Raised? || flow.Stopped? ==> !Inert(program)
      ensures frozen ==> flow.Done? && Silent(old(Now()), Now())
      decreases false, 0, Subtree(runtimes, r), 0, NOWHERE, 4
    {
      hide Ok, Inert, Outside, Stripped;
      ghost var w0 := Now();
      StrippedSelf(w0, r);
      var rest := children;
      while rest != {}
        invariant rest <= children
        invariant Ok(program, runtimes) && Stripped(w0, Now(), r)
        invariant Children(runtimes, r) == Children(w0.runtimes, r) - (children - rest)
        invariant frozen ==> Silent(w0, Now())
      {
        var c :| c in rest;
        ghost var w1 := Now();
        StrippedFacts(w0, w1, r);
        assert c in Children(runtimes, r);
        OwnerOutside(c, r);
        SubtreeShrinks(w0.runtimes, w1.runtimes, r);
        SubtreeBelow(w1.runtimes, c, r);
        flow := CleanupDescendant(c, frozen);
        if flow.Raised? {
          OutsideAt(w1, Now(), c, r);
          OutsideWiden(w1, Now(), c, r);
          OutsideTransitive(w0, w1, Now(), r);
          return;
        }
        StrippedStep(program, w1, Now(), c, r);
        StrippedTransitive(w0, w1, Now(), r);
        rest := rest - {c};
      }
      flow := Done;
    }

    /** `exit_state`: clean up what the state holds, run its exit actions, leave it. */
    method ExitState(r: RuntimeId, p: Path) returns (flow: Flow)
      requires Ready(r) && runtimes[r].active != [] && p == LeafOf(runtimes[r])
      modifies this
      ensures flow.Done? || flow.Raised?
      ensures flow.Done? ==> Ok(program, runtimes) && Left(old(Now()), Now(), r, |old(runtimes[r].active)| - 1)
      ensures flow.Raised? ==> r in runtimes && Outside(old(Now()), Now(), r)
      ensures flow.Raised? ==> ExitFails(program, cel, old(Now()), r, p, flow.code)
      ensures flow.Raised? || flow.Stopped? ==> !Inert(program)
      decreases false, 0, Subtree(runtimes, r), 0, NOWHERE, 5
    {
      hide Ok, Inert, Outside, Stripped, Acted, Left, RanAll, FailRan, Loaded, Logged, Runnable;
      ghost var w0 := Now();
      flow := CleanupChildren(r, BoundChildren(runtimes, r, p), false);
      if !flow.Done? {
        return;
      }
      ghost var w1 := Now();
      StrippedFacts(w0, w1, r);
      SubtreeShrinks(w0.runtimes, w1.runtimes, r);
      LeafKnown(program, runtimes, r);
      LoadedExit(program, runtimes[r].machine, p);
      flow := RunActions(r, p, Exit(p), program.machines[runtimes[r].machine][p].exit, 0);
      if !flow.Done? {
        OutsideTransitive(w0, w1, Now(), r);
        assert ExitActionFails(program, cel, w0, w1, r, p, flow.code);
        return;
      }
      ghost var w2 := Now();
      ActedFacts(program, w1, w2, r);
      UnboundLeaf(w0.runtimes, w1.runtimes, w2.runtimes, r, p);
      ExitOk(program, runtimes, r);
      runtimes := runtimes[r := ExitRecord(runtimes[r])];
      log := Note(log, r, Leaves(p));
      LeftOnce(program, w0, w1, w2, Now(), r);
    }

    /** Leaves the active states past the first `n`, innermost first. */
    method ExitTo(r: RuntimeId, n: nat) returns (flow: Flow)
      requires Ready(r) && n <= |runtimes[r].active|
      modifies this
      ensures flow.Done? || flow.Raised?
      ensures flow.Done? ==> Ok(program, runtimes) && Left(old(Now()), Now(), r, n)
      ensures flow.Raised? ==> r in runtimes && Outside(old(Now()), Now(), r)
      ensures flow.Raised? ==> LeaveFails(program, cel, old(Now()), r, flow.code)
      ensures flow.Raised? || flow.Stopped? ==> !Inert(program)
      decreases false, 0, Subtree(runtimes, r), 0, NOWHERE, 6
    {
      hide Ok, Inert, Outside, Left, ExitFails;
      ghost var w0 := Now();
      LeftSelf(w0, r);
      LeftFacts(w0, w0, r, |runtimes[r].active|);
      while |runtimes[r].active| > n
        invariant r in runtimes && n <= |runtimes[r].active|
        invariant Left(w0, Now(), r, |runtimes[r].active|)
        invariant Ready(r)
        decreases |if r in runtimes then runtimes[r].active else []|
      {
        ghost var w1 := Now();
        ghost var k := |runtimes[r].active|;
        LeftFacts(w0, w1, r, k);
        SubtreeShrinks(w0.runtimes, w1.runtimes, r);
        flow := ExitState(r, LeafOf(runtimes[r]));
        if flow.Raised? {
          OutsideTransitive(w0, w1, Now(), r);
          assert LeaveFailsAt(program, cel, w0, w1, r, k, flow.code);
          return;
        }
        LeftFacts(w1, Now(), r, k - 1);
        LeftTransitive(w0, w1, Now(), r, k, k - 1);
      }
      flow := Done;
    }

    /** `emit_component_completion` and `emit_spawned_completion`. */
    method EmitCompletion(r: RuntimeId)
      modifies `emissions
      ensures emissions == old(emissions) + CompletionEvents(runtimes, r)
    {
      if r.Spawned? {
        emissions := emissions + [InstanceDone(r)];
      } else if r.Component? {
        emissions := emissions + [ComponentCompleted(r)];
        if AllComplete(runtimes, r.owner) {
          emissions := emissions + [ParallelDone(r.owner, r.slot.state)];
        }
      }
    }

    /** `complete_runtime`: descendants, then all states, then the completion events. */
    method CompleteRuntime(r: RuntimeId) returns (flow: Flow)
      requires Ready(r)
      modifies this
      ensures flow.Done? || flow.Raised?
      ensures flow.Done? ==> Ok(program, runtimes) && Completion(old(Now()), Now(), r)
      ensures flow.Raised? ==> r in runtimes && Outside(old(Now()), Now(), r)
      ensures flow.Raised? ==> CompleteFails(program, cel, old(Now()), r, flow.code)
      ensures flow.Raised? || flow.Stopped? ==> !Inert(program)
      decreases false, 0, Subtree(runtimes, r), 0, NOWHERE, 7
    {
      hide Ok, Inert, Outside, Stripped, Left, Completion, AllComplete, Emitted, CompletedRecord, LeaveFails;
      ghost var w0 := Now();
      flow := CleanupChildren(r, Children(runtimes, r), false);
      if !flow.Done? {
        return;
      }
      ghost var w1 := Now();
      StrippedFacts(w0, w1, r);
      SubtreeShrinks(w0.runtimes, w1.runtimes, r);
      flow := ExitTo(r, 0);
      if !flow.Done? {
        OutsideTransitive(w0, w1, Now(), r);
        return;
      }
      ghost var w2 := Now();
      LeftFacts(w1, w2, r, 0);
      OutsideTransitive(w0, w1, w2, r);
      StillChildless(program, w1.runtimes, w2.runtimes, r);
      CompletedSame(w0, w2, r);
      if r.Spawned? {
        PrunedLast(program, runtimes, r);
        PrunedOk(program, runtimes, r);
        EmitCompletion(r);
        runtimes := runtimes - {r};
      } else {
        CompleteOk(program, runtimes, r);
        runtimes := runtimes[r := runtimes[r].(status := Completed)];
        EmitCompletion(r);
      }
      CompletionFrom(w0, w1, w2, Now(), r);
    }

    // -------------------------------------------------------------- running actions

    /** `run_actions`: the actions of one site in order, up to a fault or a `stop`. */
    method RunActions(r: RuntimeId, p: Path, site: Site, actions: seq<Action>, stack: nat) returns (flow: Flow)
      requires Ready(r) && Runnable(program, runtimes[r].machine, site, actions)
      requires site.Exit? ==> stack == 0
      modifies this
      ensures flow.Done? || flow.Stopped? ==> Ok(program, runtimes) && Acted(program, old(Now()), Now(), r)
      ensures flow.Done? || flow.Stopped? ==> Logged(old(Now()), Now(), r, [Acts(site)])
      ensures flow.Done? ==> RanAll(program, cel, old(Now()), Now(), r, p, site, actions)
      ensures flow.Stopped? ==> StopRan(program, cel, old(Now()), Now(), r, p, site, actions)
      ensures flow.Raised? ==> FailRan(program, cel, old(Now()), r, p, site, actions, flow.code)
      ensures actions == [] ==> flow.Done?
      ensures flow.Raised? ==> r in runtimes && Outside(old(Now()), Now(), r)
      ensures flow.Aborted? ==> !Contained(program)
      ensures site.Exit? ==> flow.Done? || flow.Raised?
      ensures site.Exit? && flow.Done? ==>
                OnlyRemoved(old(runtimes), runtimes, r) && runtimes[r].nextSpawn == old(runtimes[r].nextSpawn)
      decreases site.Handler?, Level(program, runtimes[r].machine, site),
        if site.Exit? then Subtree(runtimes, r) else NOBODY, stack, NOWHERE, 2
    {
      hide Ok, Loaded, Contained, Acted, Survivors, Outside, OnlyRemoved, Ran, ActionEffect, ActionFails, RanAll, StopRan,
        FailRan, Spans, Logged, Runnable;
      ghost var w0 := Now();
      ghost var id := runtimes[r].machine;
      log := Note(log, r, Acts(site));
      RanNothing(program, cel, Now(), r, p, site, actions);
      ActionsStart(program, w0, Now(), r, site);
      ghost var trail := [Now()];
      var i := 0;
      while i < |actions|
        invariant 0 <= i <= |actions|
        invariant Ready(r) && runtimes[r].machine == id
        invariant Acted(program, w0, Now(), r) && Logged(w0, Now(), r, [Acts(site)])
        invariant |trail| == i + 1 && Spans(trail, w0, Now(), r, site) && Ran(program, cel, trail, r, p, site, actions)
        invariant site.Exit? ==> OnlyRemoved(w0.runtimes, runtimes, r) && runtimes[r].nextSpawn == w0.runtimes[r].nextSpawn
      {
        ghost var w2 := Now();
        if site.Exit? {
          SubtreeShrinks(w0.runtimes, w2.runtimes, r);
        }
        RunnableHere(program, id, site, actions, i);
        flow := PerformAction(r, p, site, i, actions[i], stack);
        if flow.Done? || flow.Stopped? {
          ActedMore(program, w0, w2, Now(), r, site);
          RanMore(program, cel, trail, w0, w2, Now(), r, p, site, actions);
          trail := trail + [Now()];
          RanAlong(program, cel, trail, w0, Now(), r, p, site, actions);
        }
        if flow.Raised? {
          FailAlong(program, cel, trail, w0, w2, r, p, site, actions, flow.code);
          ActedFacts(program, w0, w2, r);
          OutsideTransitive(w0, w2, Now(), r);
        }
        if !flow.Done? {
          return;
        }
        if site.Exit? {
          OnlyRemovedTransitive(w0.runtimes, w2.runtimes, runtimes, r);
        }
        i := i + 1;
      }
      RanAlong(program, cel, trail, w0, Now(), r, p, site, actions);
      flow := Done;
    }

    // -------------------------------------------------------------- starting children

    /** `evaluate_author_bindings`; a variable that is not supplied keeps its own default. */
    method EvaluateBindings(
      r: RuntimeId, p: Path, view: View, machine: MachineId, bindings: map<Name, Expression>)
      returns (values: Option<Scope>)
      requires r in runtimes && Launches(program, machine, bindings)
      ensures values.Some? ==> values.value.Keys == bindings.Keys && BindingsOk(program.machines[machine], values.value)
      ensures values.Some? ==> forall x :: x in bindings ==> Evaluate(r, p, view, bindings[x]) == Some(values.value[x])
      ensures values.None? <==> BindingsFail(program, cel, runtimes[r], p, view, machine, bindings)
      ensures bindings == map[] ==> values.Some?
    {
      var rest := bindings.Keys;
      var done: Scope := map[];
      while rest != {}
        invariant rest <= bindings.Keys && done.Keys == bindings.Keys - rest
        invariant BindingsOk(program.machines[machine], done)
        invariant forall x :: x in done ==> !BindingFails(program, cel, runtimes[r], p, view, machine, x, bindings[x])
        invariant forall x :: x in done ==> Evaluate(r, p, view, bindings[x]) == Some(done[x])
      {
        var x :| x in rest;
        var v := Evaluate(r, p, view, bindings[x]);
        if v.None? || !Matches(v.value, program.machines[machine][[]].variables[x]) {
          assert BindingFails(program, cel, runtimes[r], p, view, machine, x, bindings[x]);
          return None;
        }
        done := done[x := v.value];
        rest := rest - {x};
      }
      return Some(done);
    }

    /** `spawn`. */
    method SpawnInstance(
      r: RuntimeId, p: Path, action: ActionSite, machine: MachineId, bindings: map<Name, Expression>,
      bindTo: Option<Name>, stack: nat)
      returns (flow: Flow)
      requires Ready(r) && Launches(program, machine, bindings) && !action.site.Exit?
      requires !action.site.Handler? ==> Below(program, runtimes[r].machine, machine)
      modifies this
      ensures !flow.Stopped?
      ensures flow.Done? ==> Ok(program, runtimes) && Acted(program, old(Now()), Now(), r)
      ensures flow.Done? ==> LogOf(Now(), r) == LogOf(old(Now()), r)
      ensures flow.Done? ==> SpawnEffect(program, old(Now()), Now(), r, p, action, machine, bindTo)
      ensures flow.Raised? ==> SpawnFails(program, cel, old(Now()), r, p, machine, bindings, bindTo, flow.code)
      ensures flow.Raised? ==> r in runtimes && Outside(old(Now()), Now(), r)
      ensures flow.Aborted? ==> !Contained(program)
      decreases action.site.Handler?, Level(program, runtimes[r].machine, action.site), NOBODY, stack, NOWHERE, 0
    {
      hide Ok, Loaded, Contained, Acted, Survivors, Outside, ContainedStart, IsNew, SpawnFails, Spawning, Bindable;
      ghost var w0 := Now();
      RankKnown(program, runtimes[r].machine);
      var child, values;
      flow, child, values := NewInstance(r, p, action, machine, bindings, bindTo);
      if flow.Raised? {
        return;
      }
      ghost var w1 := Now();
      flow := InitializeContained(child, values, stack);
      if flow.Done? {
        SpawnedActed(program, w0, w1, Now(), r, child, machine, p, bindTo);
      }
    }

    /** The part of `spawn` before the instance starts. */
    method NewInstance(
      r: RuntimeId, p: Path, action: ActionSite, machine: MachineId, bindings: map<Name, Expression>,
      bindTo: Option<Name>)
      returns (flow: Flow, child: RuntimeId, values: Scope)
      requires Ready(r) && Launches(program, machine, bindings)
      modifies `runtimes
      ensures flow.Done? || flow.Raised?
      ensures child == Spawned(r, action, old(runtimes[r]).nextSpawn) && child !in old(runtimes)
      ensures flow.Done? ==>
                && Ok(program, runtimes) && Bindable(program, old(runtimes), r, p, bindTo)
                && runtimes == Spawning(program, old(runtimes), r, child, machine, p, bindTo)
                && child in runtimes && runtimes[child].machine == machine && IsNew(program, runtimes[child])
                && BindingsOk(program.machines[machine], values)
      ensures flow.Raised? ==> SpawnFails(program, cel, old(Now()), r, p, machine, bindings, bindTo, flow.code)
      ensures flow.Raised? ==> r in runtimes && Outside(old(Now()), Now(), r)
    {
      hide Ok, Loaded, Outside, Acted, Survivors, IsNew, BindingsFail, BindFails, Visible, HolderOk, Assigned, VariableSlot;
      ghost var w0 := Now();
      child := Spawned(r, action, runtimes[r].nextSpawn);
      ChildCounted(program, runtimes, child);
      ChildNotOwner(child);
      var evaluated := EvaluateBindings(r, p, if dispatching then WithEvent else Plain, machine, bindings);
      values := if evaluated.Some? then evaluated.value else map[];
      SpentSpawnOk(program, runtimes, r);
      runtimes := runtimes[r := SpentSpawn(runtimes[r])];
      OwnRecord(program, w0, Now(), r, runtimes[r]);
      if evaluated.None? {
        return Raised(ActionFault), child, values;
      }
      var holder: Option<Holder> := None;
      if bindTo.Some? {
        BindableSame(program, w0.runtimes, runtimes, r, p, bindTo.value);
        flow, holder := BindReference(r, p, bindTo.value, child);
        OwnRecord(program, w0, Now(), r, runtimes[r]);
        if flow.Raised? {
          return;
        }
      }
      if child in runtimes {
        return Raised(InvariantFault), child, values;
      }
      var rt := NewRuntime(program.machines[machine], machine, 0, holder);
      NewIsNew(program, machine, 0, holder);
      SpawnedChildOk(program, runtimes, child, rt);
      runtimes := runtimes[child := rt];
      flow := Done;
    }

    /** The `bind_to` part of `spawn`: an empty reference variable takes the new identity. */
    method BindReference(r: RuntimeId, p: Path, name: Name, child: RuntimeId) returns (flow: Flow, holder: Option<Holder>)
      requires Ready(r)
      modifies `runtimes
      ensures flow.Done? || flow.Raised?
      ensures flow.Raised? ==> runtimes == old(runtimes) && BindFails(program, old(runtimes), r, p, name, flow.code)
      ensures flow.Done? ==> Ok(program, runtimes) && Bindable(program, old(runtimes), r, p, Some(name))
      ensures flow.Done? ==>
                var slot := VariableSlot(program.machines[old(runtimes[r].machine)], old(runtimes[r]), p, name).value;
                && holder == Some(Holder(slot, old(runtimes[r]).activations[slot], name))
                && runtimes == old(runtimes)[r := Assigned(old(runtimes[r]), slot, name, Reference(child))]
                && SameControl(old(runtimes[r]), runtimes[r]) && runtimes[r].scopes.Keys == old(runtimes[r].scopes.Keys)
                && HolderOk(program.machines[old(runtimes[r].machine)], runtimes[r], holder.value)
    {
      hide Ok, Loaded;
      holder := None;
      var slot := VariableSlot(program.machines[runtimes[r].machine], runtimes[r], p, name);
      if slot.None? {
        return Raised(InvariantFault), None;
      }
      EmptyIsReference(program, runtimes, r, slot.value, name);
      if !runtimes[r].scopes[slot.value][name].Null? {
        return Raised(BindingNotEmpty), None;
      }
      AssignedOk(program, runtimes, r, slot.value, name, Reference(child));
      holder := Some(Holder(slot.value, runtimes[r].activations[slot.value], name));
      runtimes := runtimes[r := Assigned(runtimes[r], slot.value, name, Reference(child))];
      flow := Done;
    }

    /** Initializes a child that its owner has just made; a step fault on the way is rolled
        back and leaves the child faulted. */
    method InitializeContained(child: RuntimeId, bindings: Scope, stack: nat) returns (flow: Flow)
      requires Loaded(program) && Ok(program, runtimes) && child in runtimes && !child.Root?
      requires IsNew(program, runtimes[child]) && BindingsOk(program.machines[runtimes[child].machine], bindings)
      modifies this
      ensures flow.Done? || flow.Aborted?
      ensures flow.Done? ==> Ok(program, runtimes) && ContainedStart(program, old(Now()), Now(), child)
      ensures flow.Aborted? ==> !Contained(program)
      ensures flow.Done? && child in runtimes && runtimes[child].status.Faulted? ==>
                && runtimes[child].fault.Some?
                && InitFails(program, cel, old(Now()), child, bindings, runtimes[child].fault.value)
      decreases false, Level(program, runtimes[child].machine, Entry([])), NOBODY, stack,
        program.machines[runtimes[child].machine].Keys, 11
    {
      hide Ok, Faultless, Survivors, Outside, Started, ContainedStart, InitFails;
      ghost var w0 := Now();
      var snapshot, output, before := runtimes, nextOutput, |emissions|;
      NewChildless(program, runtimes, child);
      Childless(program, runtimes, child);
      flow := InitializeRuntime(child, bindings, stack);
      if flow.Raised? {
        OutsideForest(w0, Now(), child);
        ghost var w1 := Now();
        RestoreContained(snapshot, output, child);
        emissions := emissions[..before];
        var fault := flow.code;
        InitFaultOk(program, runtimes, child, fault);
        runtimes := runtimes[child := InitFault(runtimes[child], fault)];
        emissions := emissions + [FailureEvent(child, fault)];
        forall id {:trigger LogOf(Now(), id)} | !Within(id, child) ensures LogOf(Now(), id) == LogOf(w0, id) {
          OutsideAt(w0, w1, child, id);
        }
        FailedStart(program, w0, Now(), child, fault);
        flow := Done;
      } else if flow.Done? {
        StartedContained(program, w0, Now(), child);
        StartedRuns(program, w0, Now(), child);
      }
    }

    /** `restore_contained` restores only the child, the runtimes made since and the output
        counter. As initialization has touched nothing else, that is the whole snapshot. */
    method RestoreContained(snapshot: Forest, output: nat, child: RuntimeId)
      requires child in runtimes && child in snapshot
      requires forall id :: id in snapshot && Within(id, child) ==> id == child
      requires OnlySubtreeDiffers(snapshot, runtimes, child)
      modifies `runtimes, `nextOutput
      ensures runtimes == snapshot && nextOutput == output
    {
      var rest := runtimes.Keys;
      ghost var was := runtimes;
      while rest != {}
        invariant rest <= was.Keys && child in runtimes
        invariant forall id :: id in runtimes <==> id in was && (id in rest || id in snapshot)
        invariant forall id :: id in runtimes ==> runtimes[id] == was[id]
      {
        var id :| id in rest;
        rest := rest - {id};
        if id !in snapshot {
          runtimes := runtimes - {id};
        }
      }
      RestoredAll(snapshot, was, runtimes, child);
      runtimes := runtimes[child := snapshot[child]];
      nextOutput := output;
    }

    /** `initialize_runtime`. */
    method InitializeRuntime(r: RuntimeId, bindings: Scope, stack: nat) returns (flow: Flow)
      requires Ready(r) && runtimes[r].active == [] && BindingsOk(program.machines[runtimes[r].machine], bindings)
      modifies this
      ensures !flow.Stopped?
      ensures flow.Done? ==> Ok(program, runtimes) && Started(program, old(Now()), Now(), r)
      ensures flow.Raised? ==> r in runtimes && Outside(old(Now()), Now(), r)
      ensures flow.Raised? ==> InitFails(program, cel, old(Now()), r, bindings, flow.code)
      ensures flow.Raised? || flow.Stopped? ==> !Faultless(program)
      ensures flow.Aborted? ==> !Contained(program)
      ensures Quiet(program) ==>
                Ends(flow, runtimes, r, QuietRoot(program.machines[old(runtimes[r].machine)], cel, old(runtimes[r].history), stack))
      decreases false, Level(program, runtimes[r].machine, Entry([])), NOBODY, stack,
        program.machines[runtimes[r].machine].Keys, 10
    {
      hide Ok, Faultless, Inert, Quiet, QuietRoot, Ends, Survivors, Outside, Started, Completion, Halted,
        RootFails, CompleteFails;
      QuietIsInert(program);
      ghost var w0 := Now();
      LoadedNode(program, runtimes[r].machine, []);
      flow := EnterRoot(r, bindings, stack);
      if flow.Stopped? {
        ghost var w1 := Now();
        HaltedFacts(program, cel, w0, w1, r);
        flow := CompleteRuntime(r);
        if flow.Done? {
          CompletionStarts(program, w0, w1, Now(), r);
        } else {
          OutsideTransitive(w0, w1, Now(), r);
        }
      }
    }

    /** `enter_state` of a root, with the descent that only a root makes there. */
    method EnterRoot(r: RuntimeId, bindings: Scope, stack: nat) returns (flow: Flow)
      requires Ready(r) && runtimes[r].active == [] && BindingsOk(program.machines[runtimes[r].machine], bindings)
      requires NodeOk(program, runtimes[r].machine, [])
      modifies this
      ensures flow.Done? ==> Ok(program, runtimes) && Started(program, old(Now()), Now(), r)
      ensures flow.Stopped? ==> Ok(program, runtimes) && Halted(program, cel, old(Now()), Now(), r)
      ensures flow.Raised? ==> r in runtimes && Outside(old(Now()), Now(), r)
      ensures flow.Raised? ==> RootFails(program, cel, old(Now()), r, bindings, flow.code)
      ensures flow.Raised? || flow.Stopped? ==> !Faultless(program)
      ensures flow.Aborted? ==> !Contained(program)
      ensures Quiet(program) ==> !flow.Stopped?
      ensures Quiet(program) ==>
                Ends(flow, runtimes, r, QuietRoot(program.machines[old(runtimes[r].machine)], cel, old(runtimes[r].history), stack))
      decreases false, Level(program, runtimes[r].machine, Entry([])), NOBODY, stack,
        program.machines[runtimes[r].machine].Keys, 9
    {
      hide Ok, Faultless, Inert, Quiet, QuietDescend, Survivors, Outside, Started, Entered, FinishedBy, Reached, Halted,
        DescendedThrough, EntryFails, DescendFails;
      QuietIsInert(program);
      ghost var w0 := Now();
      var m := program.machines[runtimes[r].machine];
      flow := EnterState(r, [], bindings, stack);
      if !flow.Done? {
        return;
      }
      ghost var w1 := Now();
      if m[[]].kind.Final? {
        FinishedStarts(program, w0, w1, r);
        FinishedFacts(program, w0, w1, r);
        return;
      }
      EnteredFacts(program, w0, w1, r, []);
      if !m[[]].kind.Composite? {
        EnteredSettles(program, w0, w1, r, []);
        return;
      }
      flow := DescendComposite(r, [], false, stack);
      if flow.Done? {
        ReachedAfterRoot(program, w0, w1, Now(), r);
      } else if flow.Stopped? {
        HaltedAfter(program, cel, w0, w1, Now(), r);
      } else if flow.Raised? {
        OutsideTransitive(w0, w1, Now(), r);
      }
    }

    // -------------------------------------------------------------- entering

    /** `enter_state`, without descending. */
    method EnterState(r: RuntimeId, p: Path, bindings: Scope, stack: nat) returns (flow: Flow)
      requires Ready(r) && Enterable(runtimes[r], p)
      requires p in program.machines[runtimes[r].machine] && !program.machines[runtimes[r].machine][p].kind.Choice?
      requires if p == [] then BindingsOk(program.machines[runtimes[r].machine], bindings) else bindings == map[]
      modifies this
      ensures flow.Done? ==> Ok(program, runtimes)
      ensures flow.Done? && !program.machines[old(runtimes[r].machine)][p].kind.Final? ==>
                Entered(program, old(Now()), Now(), r, p)
      ensures flow.Done? && program.machines[old(runtimes[r].machine)][p].kind.Final? ==>
                && FinishedBy(program, old(Now()), Now(), r)
                && Logged(old(Now()), Now(), r, [Enters(p), Acts(Entry(p))] + LeaveDown(old(runtimes[r].active) + [p], 0))
      ensures flow.Stopped? ==> Ok(program, runtimes) && Halted(program, cel, old(Now()), Now(), r)
      ensures flow.Raised? ==> r in runtimes && Outside(old(Now()), Now(), r)
      ensures flow.Raised? ==> EntryFails(program, cel, old(Now()), r, p, bindings, flow.code)
      ensures flow.Raised? || flow.Stopped? ==> !Inert(program)
      ensures Quiet(program) ==> flow.Done?
      ensures flow.Aborted? ==> !Contained(program)
      decreases false, Level(program, runtimes[r].machine, Entry([])), NOBODY, stack, NOWHERE, 5
    {
      hide Ok, Inert, Quiet, Survivors, Outside, Acted, Entered, Completion, FinishedBy, InitializedAll, Halted, RanAll,
        StopRan, FailRan, Loaded, Opened, PendingFrom, Logged, LeaveDown, Contained, Runnable, Enterable, EnteredRecord,
        InitialScope, CompleteFails, ComponentsFail, EntryFails;
      ghost var w0 := Now();
      OutsideSelf(w0, r);
      var m := program.machines[runtimes[r].machine];
      LoadedEntry(program, runtimes[r].machine, p, bindings);
      var pending;
      flow, pending := OpenState(r, p, bindings);
      if !flow.Done? {
        ScopeFaults(program, cel, w0, r, p, bindings);
        return;
      }
      ghost var w2 := Now();
      OpenedFacts(program, w0, w2, r, p, pending);
      flow := RunActions(r, p, Entry(p), m[p].entry, stack);
      if flow.Raised? {
        OutsideTransitive(w0, w2, Now(), r);
        EntryActionFaults(program, cel, w0, w2, r, p, bindings, pending, flow.code);
        return;
      }
      if flow.Aborted? {
        return;
      }
      ghost var w3 := Now();
      ActedSame(program, w2, w3, r);
      OutsideTransitive(w0, w2, w3, r);
      if flow.Stopped? {
        EntryHalts(program, cel, w0, w2, w3, r, p);
        return;
      }
      OpenedPending(program, w0, w2, w3, r, p, pending);
      InitializedStart(program, w3, r, []);
      InitializedFacts(program, w3, w3, r, [], 0);
      if m[p].kind.Parallel? {
        flow := InitializeComponents(r, p, pending, stack);
        if !flow.Done? {
          if flow.Raised? {
            OutsideTransitive(w0, w3, Now(), r);
            StartFaults(program, cel, w0, w2, w3, r, p, bindings, pending);
          }
          return;
        }
      }
      ghost var w4 := Now();
      OpenedComposes(program, w0, w2, w3, w4, r, p, pending);
      EnteredFacts(program, w0, w4, r, p);
      if m[p].kind.Final? {
        flow := CompleteRuntime(r);
        if flow.Done? {
          FinalEntered(program, w0, w4, Now(), r, p);
        } else {
          OutsideTransitive(w0, w4, Now(), r);
          FinalFaults(program, cel, w0, w4, r, p, bindings, flow.code);
        }
      }
    }

    /** The first part of `enter_state`: the new leaf with its variables, and its components. */
    method OpenState(r: RuntimeId, p: Path, bindings: Scope) returns (flow: Flow, pending: seq<RuntimeId>)
      requires Ready(r) && Enterable(runtimes[r], p)
      requires p in program.machines[runtimes[r].machine] && !program.machines[runtimes[r].machine][p].kind.Choice?
      requires if p == [] then BindingsOk(program.machines[runtimes[r].machine], bindings) else bindings == map[]
      modifies this
      ensures flow == if InitialScope(program.machines[old(runtimes[r].machine)][p], bindings).Some? then Done
                      else Raised(InvariantFault)
      ensures flow.Raised? ==> Now() == old(Now())
      ensures flow.Done? ==>
                && Ok(program, runtimes) && Opened(program, old(Now()), Now(), r, p, pending)
                && |pending| == |program.machines[old(runtimes[r].machine)][p].components|
    {
      hide Ok, Loaded, ScopeOk, InitialScope, EnterRecord, AllocatedUpTo, Enterable, Runnable, Contained;
      ghost var w0 := Now();
      var m := program.machines[runtimes[r].machine];
      var scope := InitialScope(m[p], bindings);
      LoadedEntry(program, runtimes[r].machine, p, bindings);
      pending := [];
      if scope.None? {
        return Raised(InvariantFault), pending;
      }
      EnterOk(program, runtimes, r, p, scope.value);
      EnterFields(runtimes[r], p, scope.value);
      runtimes := runtimes[r := EnterRecord(runtimes[r], p, scope.value)];
      log := Note(log, r, Enters(p));
      ghost var w1 := Now();
      assert Children(runtimes, r) == Children(w0.runtimes, r);
      AllocatedNone(program, w1, r, p);
      if m[p].kind.Parallel? {
        pending := AllocateComponents(r, p);
      }
      assert OpenedWith(program, w0, Now(), r, p, scope.value, pending);
      flow := Done;
    }

    /** `allocate_components`: one new component for every placement of a parallel state. */
    method AllocateComponents(r: RuntimeId, p: Path) returns (pending: seq<RuntimeId>)
      requires Ready(r) && p in program.machines[runtimes[r].machine] && p in runtimes[r].activations
      requires forall c :: c in Children(runtimes, r) && c.Component? ==> c.slot.state != p
      modifies `runtimes
      ensures Ok(program, runtimes)
      ensures AllocatedUpTo(program, old(Now()), Now(), r, p, pending)
      ensures |pending| == |program.machines[old(runtimes[r].machine)][p].components|
    {
      hide Ok, Faultless, AllocatedUpTo;
      ghost var w0 := Now();
      var placements := program.machines[runtimes[r].machine][p].components;
      var activation := runtimes[r].activations[p];
      pending := [];
      AllocatedNone(program, w0, r, p);
      LoadedNode(program, runtimes[r].machine, p);
      while |pending| < |placements|
        invariant |pending| <= |placements|
        invariant Ok(program, runtimes) && AllocatedUpTo(program, w0, Now(), r, p, pending)
        invariant forall c :: c in Children(runtimes, r) && c.Component? && c.slot.state == p ==> c.slot.index < |pending|
      {
        ghost var w1 := Now();
        AllocatedFacts(program, w0, w1, r, p, pending);
        var i := |pending|;
        var c := Allocated(program, runtimes, r, p, i);
        var machine := placements[i].machine;
        var child := NewRuntime(program.machines[machine], machine, activation, None);
        NewIsNew(program, machine, activation, None);
        AllocateOk(program, runtimes, r, p, i, child);
        SlotFree(program, runtimes, r, p, i);
        runtimes := Allocate(program, runtimes, r, p, i, child);
        AllocatedOneMore(program, w0, w1, Now(), r, p, pending, i, child);
        pending := pending + [c];
      }
    }

    /** Starts the components of a parallel state, one after the other. */
    method InitializeComponents(r: RuntimeId, p: Path, pending: seq<RuntimeId>, stack: nat) returns (flow: Flow)
      requires Ready(r) && p in program.machines[runtimes[r].machine]
      requires PendingFrom(program, runtimes, r, p, pending, 0)
      modifies this
      ensures flow.Done? || flow.Raised? || flow.Aborted?
      ensures flow.Done? ==> Ok(program, runtimes) && InitializedAll(program, old(Now()), Now(), r, pending)
      ensures flow.Raised? ==> r in runtimes && Outside(old(Now()), Now(), r)
      ensures flow.Raised? ==> flow.code == ActionFault && ComponentsFail(program, cel, old(Now()), r, p, pending)
      ensures flow.Raised? || flow.Stopped? ==> !Inert(program)
      ensures pending == [] ==> flow.Done?
      ensures flow.Aborted? ==> !Contained(program)
      decreases false, Level(program, runtimes[r].machine, Entry([])), NOBODY, stack, NOWHERE, 3
    {
      hide Ok, Inert, Survivors, Outside, ContainedStart, InitializedUpTo, PendingFrom, NodeOk, BindingsFail;
      ghost var w0 := Now();
      ghost var id := runtimes[r].machine;
      var placements := program.machines[runtimes[r].machine][p].components;
      InitializedStart(program, w0, r, pending);
      PendingSlots(program, runtimes, r, p, pending);
      var i := 0;
      while i < |pending|
        invariant 0 <= i <= |pending|
        invariant Ready(r) && runtimes[r].machine == id
        invariant InitializedUpTo(program, w0, Now(), r, pending, i)
        invariant PendingFrom(program, runtimes, r, p, pending, i)
      {
        ghost var w1 := Now();
        PendingNext(program, runtimes, r, p, pending, i);
        FaultlessAt(program, id, p);
        LoadedPlacement(program, id, p, i);
        var c := pending[i];
        var values := EvaluateBindings(r, p, OfOwner, placements[i].machine, placements[i].bindings);
        if values.None? {
          InitializedFacts(program, w0, w1, r, pending, i);
          assert ComponentFails(program, cel, w0, w1, r, p, pending, i);
          return Raised(ActionFault);
        }
        flow := InitializeContained(c, values.value, stack);
        if flow.Aborted? {
          return;
        }
        InitializedOneMore(program, w0, w1, Now(), r, p, pending, i);
        i := i + 1;
      }
      InitializedFacts(program, w0, Now(), r, pending, i);
      flow := Done;
    }

    /** `enter_path`: enters the states from below `boundary` down to `target`, then descends
        if that is a composite. Walking up from a target outside `boundary` runs off the
        root; a target that is `boundary` itself descends again. */
    method EnterPath(r: RuntimeId, boundary: Path, target: Path, history: bool, stack: nat) returns (flow: Flow)
      requires Ready(r) && runtimes[r].active == Chain(boundary)
      requires target in program.machines[runtimes[r].machine] && !program.machines[runtimes[r].machine][target].kind.Choice?
      requires Contained(program) ==> boundary <= target && boundary != target
      requires program.machines[runtimes[r].machine][target].kind.Composite? || boundary != target
      modifies this
      ensures flow.Done? ==> Ok(program, runtimes) && boundary <= target
      ensures !(boundary <= target) ==> flow.Aborted?
      ensures flow.Done? ==>
                Reached(program, old(Now()), Now(), r, boundary, Destination(old(runtimes[r]), target, history))
      ensures flow.Done? ==> EnteredThrough(program, cel, old(Now()), Now(), r, boundary, target, history)
      ensures Quiet(program) ==>
                && !flow.Stopped?
                && Ends(flow, runtimes, r,
                        QuietPath(program.machines[old(runtimes[r].machine)], cel, old(runtimes[r].history), boundary, target, history, stack))
      ensures flow.Stopped? ==> Ok(program, runtimes) && Halted(program, cel, old(Now()), Now(), r)
      ensures flow.Raised? ==> r in runtimes && Outside(old(Now()), Now(), r)
      ensures flow.Raised? ==> EnterFails(program, cel, old(Now()), r, boundary, target, history, flow.code)
      ensures flow.Raised? || flow.Stopped? ==> !Faultless(program)
      ensures flow.Aborted? ==> !Contained(program)
      decreases false, Level(program, runtimes[r].machine, Entry([])), NOBODY, stack,
        StatesBelow(program, runtimes[r].machine, boundary), 7
    {
      hide Ok, Faultless, Inert, Quiet, QuietDescend, Survivors, Outside, Halted, Reached, WalkedTo, Contained,
        DescendedThrough, EnteredThrough, Destination, RecordOk, Loaded, NodeOk, MachineOk, Level, QuietPath,
        WalkFails, EnterFails, DescendFails;
      QuietIsInert(program);
      QuietPathCases(program.machines[runtimes[r].machine], cel, runtimes[r].history, boundary, target, history, stack);
      ghost var w0 := Now();
      ghost var id := runtimes[r].machine;
      var m := program.machines[runtimes[r].machine];
      DestinationCases(program, runtimes, r, target, history);
      if !(boundary <= target) {
        return Aborted;
      }
      var completed;
      flow, completed := WalkPath(r, boundary, target, stack);
      if !flow.Done? {
        if flow.Raised? {
          WalkFaults(program, cel, w0, r, boundary, target, history, flow.code);
        }
        return;
      }
      if completed {
        EnteredLeaf(program, cel, w0, Now(), r, boundary, target, history);
        FinalFinishes(program, w0, Now(), r, boundary, target);
        return;
      }
      ghost var w1 := Now();
      WalkedFacts(program, w0, w1, r, boundary, target);
      DestinationCases(program, runtimes, r, target, history);
      if !m[target].kind.Composite? {
        WalkedReached(program, w0, w1, r, boundary, target);
        EnteredLeaf(program, cel, w0, w1, r, boundary, target, history);
        return;
      }
      if target == boundary {
        if stack == 0 {
          return Aborted;
        }
        flow := DescendComposite(r, target, history, stack - 1);
      } else {
        BelowShrinks(program, id, boundary, target);
        flow := DescendComposite(r, target, history, stack);
      }
      if flow.Done? {
        EnteredComposite(program, cel, w0, w1, Now(), r, boundary, target, history);
        ReachedAfter(program, w0, w1, Now(), r, boundary, target, Destination(w0.runtimes[r], target, history));
      } else if flow.Stopped? {
        HaltedAfter(program, cel, w0, w1, Now(), r);
      } else if flow.Raised? {
        OutsideTransitive(w0, w1, Now(), r);
        DescentFaults(program, cel, w0, w1, r, boundary, target, history, flow.code);
      }
    }

    /** The loop of `enter_path`. A final target completes the runtime. */
    method WalkPath(r: RuntimeId, boundary: Path, target: Path, stack: nat) returns (flow: Flow, completed: bool)
      requires Ready(r) && runtimes[r].active == Chain(boundary) && boundary <= target
      requires target in program.machines[runtimes[r].machine] && !program.machines[runtimes[r].machine][target].kind.Choice?
      modifies this
      ensures flow.Done? ==> Ok(program, runtimes)
      ensures flow.Done? && completed ==>
                && Reached(program, old(Now()), Now(), r, boundary, target)
                && program.machines[old(runtimes[r].machine)][target].kind.Final?
      ensures flow.Done? && !completed ==>
                && Ready(r) && WalkedTo(program, old(Now()), Now(), r, boundary, target)
                && (target != boundary ==> !program.machines[old(runtimes[r].machine)][target].kind.Final?)
      ensures flow.Stopped? ==> Ok(program, runtimes) && Halted(program, cel, old(Now()), Now(), r)
      ensures flow.Raised? ==> r in runtimes && Outside(old(Now()), Now(), r)
      ensures flow.Raised? ==> WalkFails(program, cel, old(Now()), r, boundary, target, flow.code)
      ensures flow.Raised? || flow.Stopped? ==> !Inert(program)
      ensures Quiet(program) ==> flow.Done?
      ensures flow.Aborted? ==> !Contained(program)
      decreases false, Level(program, runtimes[r].machine, Entry([])), NOBODY, stack, NOWHERE, 6
    {
      hide Ok, Inert, Quiet, Survivors, Outside, Entered, FinishedBy, Halted, Reached, WalkedTo, Contained, EntryFails,
        Loaded;
      ghost var w0 := Now();
      ghost var id := runtimes[r].machine;
      var m := program.machines[runtimes[r].machine];
      AncestorsComposite(program, id, boundary, target);
      LeafKnown(program, runtimes, r);
      WalkedSelf(program, w0, r, boundary);
      completed := false;
      var t := boundary;
      while t != target
        invariant boundary <= t <= target
        invariant Ready(r) && WalkedTo(program, w0, Now(), r, boundary, t)
        invariant runtimes[r].machine == id
        invariant t in m && (t != boundary ==> !m[t].kind.Final?)
        decreases |target| - |t|
      {
        ghost var w1 := Now();
        WalkedFacts(program, w0, w1, r, boundary, t);
        var node := target[..|t| + 1];
        assert Parent(node) == t;
        AncestorsComposite(program, id, node, target);
        flow := EnterState(r, node, map[], stack);
        if !flow.Done? {
          if flow.Stopped? {
            HaltedAfter(program, cel, w0, w1, Now(), r);
          } else if flow.Raised? {
            OutsideTransitive(w0, w1, Now(), r);
            assert WalkFailsAt(program, cel, w0, w1, r, boundary, t, target, flow.code);
          }
          return;
        }
        if m[node].kind.Final? {
          FinalReached(program, w0, w1, Now(), r, boundary, target);
          completed := true;
          return;
        }
        WalkedFurther(program, w0, w1, Now(), r, boundary, t, node);
        EnteredFacts(program, w1, Now(), r, node);
        t := node;
      }
      flow := Done;
    }

    /** `descend_composite`: through the recorded entry when asked for it and there is one,
        otherwise through the initial transition. */
    method DescendComposite(r: RuntimeId, p: Path, history: bool, stack: nat) returns (flow: Flow)
      requires Ready(r) && runtimes[r].active == Chain(p)
      requires p in program.machines[runtimes[r].machine] && program.machines[runtimes[r].machine][p].kind.Composite?
      modifies this
      ensures flow.Done? ==> Ok(program, runtimes)
      ensures flow.Done? ==> Reached(program, old(Now()), Now(), r, p, Destination(old(runtimes[r]), p, history))
      ensures flow.Done? ==> DescendedThrough(program, cel, old(Now()), Now(), r, p, history)
      ensures Quiet(program) ==>
                && !flow.Stopped?
                && Ends(flow, runtimes, r,
                        QuietDescend(program.machines[old(runtimes[r].machine)], cel, old(runtimes[r].history), p, history, stack))
      ensures flow.Stopped? ==> Ok(program, runtimes) && Halted(program, cel, old(Now()), Now(), r)
      ensures flow.Raised? ==> r in runtimes && Outside(old(Now()), Now(), r)
      ensures flow.Raised? ==> DescendFails(program, cel, old(Now()), r, p, history, flow.code)
      ensures flow.Raised? || flow.Stopped? ==> !Faultless(program)
      ensures flow.Aborted? ==> !Contained(program)
      decreases false, Level(program, runtimes[r].machine, Entry([])), NOBODY, stack,
        StatesBelow(program, runtimes[r].machine, p), 9
    {
      hide Ok, Faultless, Quiet, QuietPath, QuietDescend, Survivors, Outside, Halted, Reached, EnteredThrough,
        DescendedThrough, Contained, Loaded, Destination, RecordOk, Ends, StatesBelow,
        EnterFails, DescendFails;
      ghost var w0 := Now();
      var id := runtimes[r].machine;
      DestinationCases(program, runtimes, r, p, history);
      if history && p in runtimes[r].history && runtimes[r].history[p].Some? {
        var destination := runtimes[r].history[p].value;
        RecordRests(program, runtimes, r, p);
        DestinationCases(program, runtimes, r, destination, false);
        QuietThroughRecord(program.machines[id], cel, runtimes[r].history, p, stack);
        flow := EnterPath(r, p, destination, false, stack);
        if flow.Done? {
          DescendedRecord(program, cel, w0, Now(), r, p);
        } else if flow.Raised? {
          RecordFaults(program, cel, w0, r, p, flow.code);
        }
        return;
      }
      flow := DescendInitial(r, p, history, stack);
    }

    /** The second part of `descend_composite`: through the initial transition. */
    method DescendInitial(r: RuntimeId, p: Path, ghost history: bool, stack: nat) returns (flow: Flow)
      requires Ready(r) && runtimes[r].active == Chain(p)
      requires p in program.machines[runtimes[r].machine] && program.machines[runtimes[r].machine][p].kind.Composite?
      requires !(history && p in runtimes[r].history && runtimes[r].history[p].Some?)
      modifies this
      ensures flow.Done? ==> Ok(program, runtimes)
      ensures flow.Done? ==> Reached(program, old(Now()), Now(), r, p, p)
      ensures flow.Done? ==> DescendedThrough(program, cel, old(Now()), Now(), r, p, history)
      ensures Quiet(program) ==>
                && !flow.Stopped?
                && Ends(flow, runtimes, r,
                        QuietDescend(program.machines[old(runtimes[r].machine)], cel, old(runtimes[r].history), p, history, stack))
      ensures flow.Stopped? ==> Ok(program, runtimes) && Halted(program, cel, old(Now()), Now(), r)
      ensures flow.Raised? ==> r in runtimes && Outside(old(Now()), Now(), r)
      ensures flow.Raised? ==> DescendFails(program, cel, old(Now()), r, p, history, flow.code)
      ensures flow.Raised? || flow.Stopped? ==> !Faultless(program)
      ensures flow.Aborted? ==> !Contained(program)
      decreases false, Level(program, runtimes[r].machine, Entry([])), NOBODY, stack,
        StatesBelow(program, runtimes[r].machine, p), 8
    {
      hide Ok, Faultless, Quiet, QuietPath, QuietDescend, QuietResolve, Finds, Survivors, Outside, Halted, Reached, Acted,
        Compound, CompoundStopped, CompoundFails, EnteredThrough, DescendedThrough, Outcomes, Contained, Loaded, Destination, RecordOk, Ends,
        Runnable, Resolves, StatesBelow, EnterFails, DescendFails;
      ghost var w0 := Now();
      var id := runtimes[r].machine;
      LoadedInitial(program, id, p);
      var initial := program.machines[id][p].initial.value;
      var found;
      flow, found := ResolveCompound(r, p, initial, Initial(p), stack);
      if Quiet(program) {
        QuietThroughInitial(program.machines[id], cel, w0.runtimes[r].history, p, history, stack, flow, found);
      }
      if !flow.Done? {
        if flow.Stopped? {
          InitialHalts(program, cel, w0, Now(), r, p, initial);
        } else if flow.Raised? {
          InitialFaults(program, cel, w0, r, p, history, flow.code);
        }
        return;
      }
      ghost var w1 := Now();
      ActedSame(program, w0, w1, r);
      var target := found.value;
      ContainedInitial(program, id, p, target.path);
      DestinationCases(program, runtimes, r, target.path, target.history);
      flow := EnterPath(r, p, target.path, target.history, stack);
      if flow.Done? {
        DescendedInitial(program, cel, w0, w1, Now(), r, p, history, target);
        ReachedHigher(program, w1, Now(), r, p, Destination(w1.runtimes[r], target.path, target.history));
        ActedThenReached(program, w0, w1, Now(), r, p);
      } else if flow.Stopped? {
        HaltedAfter(program, cel, w0, w1, Now(), r);
      } else if flow.Raised? {
        OutsideTransitive(w0, w1, Now(), r);
        FoundFaults(program, cel, w0, w1, r, p, history, target, flow.code);
      }
    }

    // -------------------------------------------------------------- compound transitions

    /** The first branch of a choice whose guard holds. */
    method SelectBranch(r: RuntimeId, source: Path, branches: seq<Transition>) returns (flow: Flow, index: nat)
      requires r in runtimes
      ensures flow.Done? || flow.Raised?
      ensures flow.Done? ==>
                && index < |branches|
                && Holds(r, source, branches[index].guard)
                && forall i :: 0 <= i < index ==> Passed(r, source, branches[i].guard)
      ensures FirstBranch(cel, Visible(runtimes[r], source), branches, 0)
              == if flow.Done? then Chosen(index) else NoChoice(flow.code)
    {
      index := 0;
      while index < |branches|
        invariant 0 <= index <= |branches|
        invariant FirstBranch(cel, Visible(runtimes[r], source), branches, index)
               == FirstBranch(cel, Visible(runtimes[r], source), branches, 0)
        invariant forall i :: 0 <= i < index ==> Passed(r, source, branches[i].guard)
      {
        if branches[index].guard.None? {
          return Done, index;
        }
        var v := Evaluate(r, source, Plain, branches[index].guard.value);
        if v.None? {
          return Raised(GuardFault), index;
        }
        if v.value == Truth(true) {
          return Done, index;
        }
        index := index + 1;
      }
      return Raised(InvariantFault), index;
    }

    /** The guard was evaluated and did not hold. */
    predicate Passed(r: RuntimeId, source: Path, guard: Option<Expression>)
      requires r in runtimes
      reads `runtimes
    {
      && guard.Some?
      && Evaluate(r, source, Plain, guard.value).Some?
      && Evaluate(r, source, Plain, guard.value) != Some(Truth(true))
    }

    predicate Holds(r: RuntimeId, source: Path, guard: Option<Expression>)
      requires r in runtimes
      reads `runtimes
    {
      guard.None? || Evaluate(r, source, Plain, guard.value) == Some(Truth(true))
    }

    /** `resolve_compound_transition`: the transition's actions, then choices until a state
        that is none. */
    method ResolveCompound(r: RuntimeId, source: Path, transition: Transition, site: Site, stack: nat)
      returns (flow: Flow, found: Option<Target>)
      requires Ready(r) && !site.Exit? && Runnable(program, runtimes[r].machine, site, transition.actions)
      requires Resolves(program.machines[runtimes[r].machine], transition)
      modifies this
      ensures flow.Done? || flow.Stopped? ==> Ok(program, runtimes) && Acted(program, old(Now()), Now(), r)
      ensures flow.Done? || flow.Stopped? ==> LogOf(old(Now()), r) + [Acts(site)] <= LogOf(Now(), r)
      ensures flow.Done? ==> (found.None? <==> transition.target.None?)
      ensures flow.Done? ==> Compound(program, cel, old(Now()), Now(), r, source, transition, site, found)
      ensures flow.Stopped? ==> CompoundStopped(program, cel, old(Now()), Now(), r, source, transition, site)
      ensures flow.Raised? ==> CompoundFails(program, cel, old(Now()), r, source, transition, site, flow.code)
      ensures flow.Done? && found.Some? ==>
                var m := program.machines[old(runtimes[r].machine)];
                && found.value.path in m && found.value.path != [] && !m[found.value.path].kind.Choice?
                && found.value.path in Outcomes(m, transition.target.value.path, {})
      ensures Quiet(program) && transition.actions == [] ==>
                if transition.target.None? then flow.Done?
                else Finds(flow, found, QuietResolve(program.machines[old(runtimes[r].machine)], cel, transition.target.value, {}))
      ensures flow.Raised? ==> r in runtimes && Outside(old(Now()), Now(), r)
      ensures flow.Raised? || flow.Stopped? ==> !Faultless(program) || transition.actions != []
      ensures flow.Aborted? ==> !Contained(program)
      decreases site.Handler?, Level(program, runtimes[r].machine, site), NOBODY, stack, NOWHERE, 4
    {
      hide Ok, Faultless, Quiet, QuietResolve, Survivors, Outside, Acted, Outcomes, Ran, RanAll, StopRan, FailRan,
        PicksFrom, Stuck, ChoicesStopped;
      ghost var w0 := Now();
      found := None;
      flow := RunActions(r, source, site, transition.actions, stack);
      if !flow.Done? || transition.target.None? {
        return;
      }
      ghost var w1 := Now();
      ActedFacts(program, w0, w1, r);
      var target;
      flow, target := ResolveChoices(r, source, transition.target.value, stack);
      if flow.Done? || flow.Stopped? {
        ActedTransitive(program, w0, w1, Now(), r);
        ActedFacts(program, w0, Now(), r);
      } else if flow.Raised? {
        OutsideTransitive(w0, w1, Now(), r);
        assert StuckAfter(program, cel, w0, w1, r, source, transition, site, flow.code);
      }
      if flow.Done? {
        found := Some(target);
        ghost var picks :| PicksFrom(program, cel, r, source, transition.target.value, w1, picks, target, Now());
        assert CompoundBy(program, cel, w0, w1, Now(), r, source, transition, site, picks, target);
      } else if flow.Stopped? {
        assert StoppedAfter(program, cel, w0, w1, Now(), r, source, transition, site);
      }
    }

    /** The loop over choices; a choice met twice is a fault. */
    method ResolveChoices(r: RuntimeId, source: Path, first: Target, stack: nat)
      returns (flow: Flow, found: Target)
      requires Ready(r) && first.path in program.machines[runtimes[r].machine] && first.path != []
      modifies this
      ensures flow.Done? || flow.Stopped? ==> Ok(program, runtimes) && Acted(program, old(Now()), Now(), r)
      ensures flow.Done? || flow.Stopped? ==> LogOf(old(Now()), r) <= LogOf(Now(), r)
      ensures flow.Done? ==> exists picks :: PicksFrom(program, cel, r, source, first, old(Now()), picks, found, Now())
      ensures flow.Stopped? ==> ChoicesStopped(program, cel, old(Now()), Now(), r, source, first)
      ensures flow.Raised? ==> Stuck(program, cel, r, source, first, old(Now()), flow.code)
      ensures flow.Done? ==>
                var m := program.machines[old(runtimes[r].machine)];
                && found.path in m && found.path != [] && !m[found.path].kind.Choice?
                && found.path in Outcomes(m, first.path, {})
      ensures Quiet(program) ==>
                Finds(flow, Some(found), QuietResolve(program.machines[old(runtimes[r].machine)], cel, first, {}))
      ensures flow.Raised? ==> r in runtimes && Outside(old(Now()), Now(), r)
      ensures flow.Raised? || flow.Stopped? ==> !Faultless(program)
      ensures flow.Aborted? ==> !Contained(program)
      decreases false, Level(program, runtimes[r].machine, Entry([])), NOBODY, stack, NOWHERE, 3
    {
      hide Ok, Faultless, Quiet, QuietResolve, Loaded, Contained, Runnable, Survivors, Outside, Acted, Outcomes, RanAll,
        StopRan, FailRan, PicksFrom, Stuck, ChoicesStopped, FirstBranch, Logged;
      ghost var w0 := Now();
      var id := runtimes[r].machine;
      var m := program.machines[id];
      found := first;
      var seen: set<Path> := {};
      ghost var picks: seq<Pick> := [];
      PicksNone(program, cel, r, source, first, w0);
      ActedSelf(program, w0, r);
      while m[found.path].kind.Choice?
        invariant found.path in m && found.path != []
        invariant Ready(r) && runtimes[r].machine == id
        invariant Acted(program, w0, Now(), r)
        invariant LogOf(w0, r) <= LogOf(Now(), r)
        invariant Outcomes(m, found.path, seen) <= Outcomes(m, first.path, {})
        invariant PicksFrom(program, cel, r, source, first, w0, picks, found, Now()) && seen == Met(picks)
        invariant Quiet(program) ==> QuietResolve(m, cel, found, seen) == QuietResolve(m, cel, first, {})
        decreases m.Keys - seen
      {
        ghost var w1 := Now();
        ActedSame(program, w0, w1, r);
        ChoiceFaults(program, id, found.path);
        QuietChoice(program, cel, id, runtimes, r, source, found, seen);
        if found.path in seen {
          StuckRepeated(program, cel, r, source, first, w0, picks, found, w1);
          return Raised(InvariantFault), found;
        }
        var index;
        flow, index := SelectBranch(r, source, m[found.path].branches);
        if flow.Raised? {
          StuckChoosing(program, cel, r, source, first, w0, picks, found, w1, flow.code);
          return flow, found;
        }
        LoadedBranch(program, id, found.path, index);
        var branch := m[found.path].branches[index];
        assert TakesBranch(program, cel, r, source, found.path, index, w1);
        flow := RunActions(r, source, Branch(found.path, index), branch.actions, stack);
        ghost var k := Pick(found, index, w1, Now());
        if flow.Raised? {
          OutsideTransitive(w0, w1, Now(), r);
          StuckActing(program, cel, r, source, first, w0, picks, found, w1, index, flow.code);
        }
        if flow.Stopped? {
          PickHalts(program, cel, r, source, first, w0, picks, k, branch);
        }
        if flow.Done? || flow.Stopped? {
          ActedFurther(program, w0, w1, Now(), r, [Acts(Branch(found.path, index))]);
        }
        if !flow.Done? {
          return flow, found;
        }
        OutcomesStep(m, found.path, seen, index);
        PickMore(program, cel, r, source, first, w0, picks, k, branch);
        picks := picks + [k];
        assert found.path in m.Keys - seen;
        seen := seen + {found.path};
        found := branch.target.value;
      }
      OutcomesSelf(m, found.path, seen);
      QuietFound(m, cel, found, seen);
      flow := Done;
    }

    // -------------------------------------------------------------- transitions

    /** Records the history of every composite that is about to be left. */
    method RecordHistory(r: RuntimeId, boundary: Path)
      requires Ready(r) && SettledAt(program, runtimes, r) && runtimes[r].active != []
      requires boundary <= LeafOf(runtimes[r])
      modifies `runtimes
      ensures Ok(program, runtimes)
      ensures runtimes == old(runtimes)[r := old(runtimes[r]).(
                history := Recorded(program.machines[old(runtimes[r].machine)], old(runtimes[r]), boundary))]
    {
      hide Ok, Faultless;
      RecordOkAt(program, runtimes, r, boundary);
      HistoryKeys(program, runtimes, r);
      LeafKnown(program, runtimes, r);
      var history := RecordLeft(runtimes[r].machine, runtimes[r], boundary);
      runtimes := runtimes[r := runtimes[r].(history := history)];
    }

    /** The recorded entries, innermost composite first. */
    method RecordLeft(id: MachineId, x: Runtime, boundary: Path) returns (history: map<Path, Option<Path>>)
      requires Loaded(program) && id in program.machines && x.active != [] && x.active == Chain(LeafOf(x))
      requires LeafOf(x) in program.machines[id] && !program.machines[id][LeafOf(x)].kind.Composite?
      requires x.history.Keys == HistoryStates(program.machines[id]) && boundary <= LeafOf(x)
      ensures history == Recorded(program.machines[id], x, boundary)
    {
      var m := program.machines[id];
      var leaf := LeafOf(x);
      history := x.history;
      var i := |x.active|;
      while i > |boundary| + 1
        invariant |boundary| + 1 <= i <= |x.active|
        invariant RecordedFrom(m, x, boundary, i, history)
      {
        hide NodeOk, Recordable, RecordedFrom;
        i := i - 1;
        var node := x.active[i];
        AncestorsComposite(program, id, node, leaf);
        HistoryComposite(program, id, node);
        RecordMore(m, x, boundary, i, history);
        if m[node].history != NoHistory {
          var entry := leaf;
          if m[node].history.Shallow? {
            entry := DirectChild(node, leaf);
          }
          history := history[node := Some(entry)];
        }
      }
      RecordedAll(m, x, boundary, i, history);
    }

    /** The child of `node` on the way to `leaf`, walking up from the leaf. */
    method DirectChild(node: Path, leaf: Path) returns (direct: Path)
      requires node <= leaf && node != leaf
      ensures direct == leaf[..|node| + 1]
    {
      direct := leaf;
      while Parent(direct) != node
        invariant |node| < |direct| <= |leaf| && direct == leaf[..|direct|]
        decreases |direct|
      {
        assert Parent(direct) == leaf[..|direct| - 1] && node == leaf[..|node|];
        direct := Parent(direct);
      }
    }

    /** The first half of `apply_transition`: record history, then leave up to the boundary. */
    method LeaveTo(r: RuntimeId, boundary: Path) returns (flow: Flow)
      requires Ready(r) && SettledAt(program, runtimes, r) && runtimes[r].active != []
      requires boundary <= LeafOf(runtimes[r])
      modifies this
      ensures flow.Done? || flow.Raised?
      ensures flow.Done? ==> Ready(r) && runtimes[r].active == Chain(boundary)
      ensures flow.Done? ==> LeftRecording(program, old(Now()), Now(), r, boundary)
      ensures flow.Raised? ==> r in runtimes && Outside(old(Now()), Now(), r)
      ensures flow.Raised? ==>
                var z := old(runtimes[r]).(history := Recorded(program.machines[old(runtimes[r].machine)], old(runtimes[r]), boundary));
                LeaveFails(program, cel, old(Now()).(runtimes := old(runtimes)[r := z]), r, flow.code)
      ensures flow.Raised? ==> !Inert(program)
    {
      hide Ok, Inert, Outside, Survivors, Left, Recorded, Settled, LeaveFails;
      ghost var w0 := Now();
      LeafKnown(program, runtimes, r);
      RecordHistory(r, boundary);
      ghost var w1 := Now();
      OwnRecord(program, w0, w1, r, runtimes[r]);
      flow := ExitTo(r, |boundary| + 1);
      if flow.Done? {
        LeftFacts(w1, Now(), r, |boundary| + 1);
        ChainOfPrefix(boundary, LeafOf(w1.runtimes[r]));
      }
      OutsideTransitive(w0, w1, Now(), r);
    }

    /** `apply_transition`: record history, leave up to the boundary, enter the target. */
    method ApplyTransition(r: RuntimeId, source: Path, found: Target, local: bool, stack: nat)
      returns (flow: Flow)
      requires Ready(r) && SettledAt(program, runtimes, r) && runtimes[r].active != []
      requires source <= LeafOf(runtimes[r]) && found.path != [] && found.path in program.machines[runtimes[r].machine]
      requires !program.machines[runtimes[r].machine][found.path].kind.Choice?
      modifies this
      ensures flow.Done? ==> Ok(program, runtimes)
      ensures flow.Done? ==> Moved(program, old(Now()), Now(), r, source, found.path, local, found.history)
      ensures flow.Done? ==> Landed(program, cel, old(Now()), Now(), r, source, found, local)
      ensures Quiet(program) ==>
                && !flow.Stopped?
                && Ends(flow, runtimes, r,
                        QuietMove(program.machines[old(runtimes[r].machine)], cel, old(runtimes[r]), source, found, local, stack))
      ensures flow.Stopped? ==> Ok(program, runtimes) && Halted(program, cel, old(Now()), Now(), r)
      ensures flow.Raised? ==> r in runtimes && Outside(old(Now()), Now(), r)
      ensures flow.Raised? ==> MoveFails(program, cel, old(Now()), r, source, found, local, flow.code)
      ensures flow.Raised? || flow.Stopped? ==> !Faultless(program)
      ensures flow.Aborted? ==> !Contained(program)
    {
      hide Ok, Faultless, Inert, Quiet, Outside, Survivors, LeftRecording, Reached, Halted, Moved, Contained, Boundary,
        NodeOk, Settled, DescendedThrough, EnteredThrough, QuietPath, QuietDescend, Recorded,
        LeaveFails, EnterFails, DescendFails;
      QuietIsInert(program);
      ghost var w0 := Now();
      var id := runtimes[r].machine;
      var target, history := found.path, found.history;
      var boundary := FindBoundary(source, target, local);
      BoundaryInnermost(source, target, local);
      LeafKnown(program, runtimes, r);
      AncestorsComposite(program, id, boundary, LeafOf(runtimes[r]));
      AncestorsComposite(program, id, boundary, target);
      flow := LeaveTo(r, boundary);
      if !flow.Done? {
        return;
      }
      ghost var w1 := Now();
      LeftRecordingFacts(program, w0, w1, r, boundary);
      DestinationBelow(program, runtimes, r, target, history);
      assert target == boundary ==> program.machines[id][target].kind.Composite?;
      if target == boundary {
        if program.machines[id][target].kind.Composite? {
          flow := DescendComposite(r, target, history, stack);
        }
      } else {
        flow := EnterPath(r, boundary, target, history, stack);
      }
      if flow.Done? {
        MovedFrom(program, w0, w1, Now(), r, source, target, local, history);
        assert LandedFrom(program, cel, w0, w1, Now(), r, found, boundary);
      } else if flow.Stopped? {
        HaltedAfter(program, cel, w0, w1, Now(), r);
      } else if flow.Raised? {
        OutsideTransitive(w0, w1, Now(), r);
        assert MoveFailsFrom(program, cel, w0, w1, r, found, boundary, flow.code);
      }
    }

    // -------------------------------------------------------------- one event

    /** The search of `process`: level by level outwards. */
    method SelectTransition(r: RuntimeId, event: string) returns (selection: Selection)
      requires Ready(r) && runtimes[r].active != []
      ensures selection ==
              SelectFrom(program.machines[runtimes[r].machine], GuardsFor(program, cel, runtimes[r], event), LeafOf(runtimes[r]), event)
    {
      hide ScanFrom, Ok, Loaded;
      var m := program.machines[runtimes[r].machine];
      ghost var guards := GuardsFor(program, cel, runtimes[r], event);
      var current := LeafOf(runtimes[r]);
      ghost var leaf := current;
      while true
        invariant SelectFrom(m, guards, current, event) == SelectFrom(m, guards, leaf, event)
        decreases |current|
      {
        var scan := ScanLevel(r, current, event);
        match scan {
          case Enabled(i) =>
            return Selected(current, i);
          case ScanRaises =>
            return GuardRaises;
          case NoneEnabled =>
        }
        if Deferring(m, current, event) {
          return Defers;
        }
        if current == [] {
          return Unhandled;
        }
        current := Parent(current);
      }
    }

    /** The transitions of one state, in order. */
    method ScanLevel(r: RuntimeId, p: Path, event: string) returns (scan: Scan)
      requires r in runtimes && runtimes[r].machine in program.machines
      ensures scan ==
              ScanFrom(GuardsFor(program, cel, runtimes[r], event), p,
                       Handlers(program.machines[runtimes[r].machine], p, event), 0)
    {
      ghost var guards := GuardsFor(program, cel, runtimes[r], event);
      var ts := Handlers(program.machines[runtimes[r].machine], p, event);
      var i := 0;
      while i < |ts|
        invariant 0 <= i <= |ts|
        invariant ScanFrom(guards, p, ts, i) == ScanFrom(guards, p, ts, 0)
      {
        if ts[i].guard.None? {
          return Enabled(i);
        }
        var v := Evaluate(r, p, WithEvent, ts[i].guard.value);
        assert guards(p, i) == Verdict(v);
        if v.None? {
          return ScanRaises;
        }
        if v.value == Truth(true) {
          return Enabled(i);
        }
        i := i + 1;
      }
      return NoneEnabled;
    }

    /** `process`: one event for one running runtime. */
    method Process(r: RuntimeId, event: string, stack: nat) returns (flow: Flow, disposition: Disposition)
      requires Ready(r) && SettledAt(program, runtimes, r) && runtimes[r].active != []
      modifies this
      ensures !flow.Stopped?
      ensures var selection :=
                old(SelectFrom(program.machines[runtimes[r].machine], GuardsFor(program, cel, runtimes[r], event), LeafOf(runtimes[r]), event));
              && (selection.Defers? ==> flow.Done? && disposition == Deferred)
              && (selection.Unhandled? ==> if FailureNotice(event) then flow == Raised(ContainedRuntimeFault)
                                           else flow.Done? && disposition == NotHandled)
              && (selection.GuardRaises? ==> flow == Raised(GuardFault))
              && (selection.Selected? && flow.Done? ==>
                    && disposition == Handled
                    && PerformedBy(program, cel, old(Now()), Now(), r, event, selection))
      ensures Quiet(program) ==>
                var m := program.machines[old(runtimes[r].machine)];
                var selection := old(SelectFrom(m, GuardsFor(program, cel, runtimes[r], event), LeafOf(runtimes[r]), event));
                selection.Selected? && selection.index < |Handlers(m, selection.source, event)| ==>
                  Ends(flow, runtimes, r,
                       QuietTake(m, cel, old(runtimes[r]), selection.source, Handlers(m, selection.source, event)[selection.index], stack))
      ensures flow.Done? && disposition != Handled ==> Now() == old(Now())
      ensures flow.Done? ==> Ok(program, runtimes)
      ensures flow.Raised? ==> r in runtimes && Outside(old(Now()), Now(), r)
      ensures flow.Raised? ==>
                var m := program.machines[old(runtimes[r].machine)];
                var selection := old(SelectFrom(m, GuardsFor(program, cel, runtimes[r], event), LeafOf(runtimes[r]), event));
                selection.Selected? && selection.index < |Handlers(m, selection.source, event)| ==>
                  TakeFails(program, cel, old(Now()), r, selection.source, Handlers(m, selection.source, event)[selection.index],
                            Handler(selection.source, event, selection.index), flow.code)
      ensures flow.Raised? ==> !Faultless(program) || FailureNotice(event)
      ensures flow.Aborted? ==> !Contained(program)
    {
      hide Ok, Faultless, Quiet, Outside, Performed, Contained, SelectFrom, QuietTake, Ends,
        TakeFails;
      disposition := NotHandled;
      ghost var m := program.machines[runtimes[r].machine];
      ghost var guards := GuardsFor(program, cel, runtimes[r], event);
      OutsideSelf(Now(), r);
      var selection := SelectTransition(r, event);
      SelectFromAbove(m, guards, LeafOf(runtimes[r]), event);
      if Faultless(program) {
        FaultlessSelection(program, runtimes[r].machine, guards, LeafOf(runtimes[r]), event);
      }
      match selection {
        case Defers =>
          return Done, Deferred;
        case GuardRaises =>
          return Raised(GuardFault), disposition;
        case Unhandled =>
          if FailureNotice(event) {
            return Raised(ContainedRuntimeFault), disposition;
          }
          return Done, disposition;
        case Selected(source, index) =>
          flow := Perform(r, source, event, index, stack);
          return flow, Handled;
      }
    }

    /** Takes the selected transition; a `stop` on the way completes the runtime. */
    method Perform(r: RuntimeId, source: Path, event: string, index: nat, stack: nat) returns (flow: Flow)
      requires Ready(r) && SettledAt(program, runtimes, r) && runtimes[r].active != []
      requires source <= LeafOf(runtimes[r]) && source in program.machines[runtimes[r].machine]
      requires index < |Handlers(program.machines[runtimes[r].machine], source, event)|
      modifies this
      ensures !flow.Stopped?
      ensures flow.Done? ==> Ok(program, runtimes)
      ensures flow.Done? ==>
                Performed(program, cel, old(Now()), Now(), r, source,
                          Handlers(program.machines[old(runtimes[r].machine)], source, event)[index],
                          Handler(source, event, index))
      ensures Quiet(program) ==>
                Ends(flow, runtimes, r,
                     QuietTake(program.machines[old(runtimes[r].machine)], cel, old(runtimes[r]), source,
                               Handlers(program.machines[old(runtimes[r].machine)], source, event)[index], stack))
      ensures flow.Raised? ==> r in runtimes && Outside(old(Now()), Now(), r)
      ensures flow.Raised? ==>
                TakeFails(program, cel, old(Now()), r, source,
                          Handlers(program.machines[old(runtimes[r].machine)], source, event)[index],
                          Handler(source, event, index), flow.code)
      ensures flow.Raised? || flow.Stopped? ==> !Faultless(program)
      ensures flow.Aborted? ==> !Contained(program)
    {
      hide Ok, Faultless, Inert, Quiet, Outside, Survivors, Acted, Halted, Moved, Landed, Completion, Performed, Contained,
        Compound, CompoundStopped, CompoundFails, QuietMove, QuietResolve, Loaded, Settled, Runnable, Resolves,
        MoveFails, CompleteFails;
      QuietIsInert(program);
      ghost var w0 := Now();
      var id := runtimes[r].machine;
      var t := Handlers(program.machines[id], source, event)[index];
      ghost var site := Handler(source, event, index);
      HandlerRunnable(program, id, source, event, index);
      LeafKnown(program, runtimes, r);
      var found;
      flow, found := ResolveCompound(r, source, t, Handler(source, event, index), stack);
      ghost var w1 := Now();
      if flow.Done? || flow.Stopped? {
        ActedFacts(program, w0, w1, r);
        ActedSettled(program, w0, w1, r);
      }
      if flow.Done? && found.Some? {
        QuietMoveSame(program.machines[id], cel, w0.runtimes[r], runtimes[r], source, found.value, t.local, stack);
        flow := ApplyTransition(r, source, found.value, t.local, stack);
        if flow.Done? {
          MovedPerforms(program, cel, w0, w1, Now(), r, source, t, site, found.value);
        } else if flow.Raised? {
          OutsideTransitive(w0, w1, Now(), r);
          assert FoundFails(program, cel, w0, w1, r, source, t, site, found.value, flow.code);
        } else if flow.Stopped? {
          HaltedFacts(program, cel, w1, Now(), r);
          OutsideTransitive(w0, w1, Now(), r);
        }
      } else if flow.Done? {
        StayedPerforms(program, cel, w0, w1, r, source, t, site);
      }
      if flow.Stopped? {
        ghost var w2 := Now();
        flow := CompleteRuntime(r);
        if flow.Done? {
          CompletionStarts(program, w0, w2, Now(), r);
          assert StoppedAt(program, cel, w0, w1, w2, Now(), r, source, t, site);
          StopPerforms(program, cel, w0, w1, w2, Now(), r, source, t, site);
        } else {
          OutsideTransitive(w0, w2, Now(), r);
          assert StopFails(program, cel, w0, w1, w2, r, source, t, site, flow.code);
        }
      }
    }
  }
}
