/** What actions do: assignments, send targets and spawn numbers, and the load-time facts
    about lists of actions. */
module EngineActions {
  import opened Options
  import opened Statechart
  import opened Runtimes
  import opened RuntimeSteps
  import opened EngineFrames
  import opened Selection

  predicate RunnableAt(program: Program, id: MachineId, site: Site, action: Action) {
    && (action.Spawn? ==>
          && !site.Exit?
          && Launches(program, action.machine, action.bindings)
          && (!site.Handler? ==> Below(program, id, action.machine)))
    && (action.Stop? ==> !site.Exit?)
  }

  /** What the loader guarantees of a list of actions. */
  predicate Runnable(program: Program, id: MachineId, site: Site, actions: seq<Action>) {
    forall i :: 0 <= i < |actions| ==> RunnableAt(program, id, site, actions[i])
  }

  /** How far up the initialization order the actions of a site may reach. */
  function Level(program: Program, id: MachineId, site: Site): nat {
    if site.Exit? || id !in program.rank then 0 else program.rank[id] + 1
  }

  function StatesBelow(program: Program, id: MachineId, p: Path): set<Path> {
    if id in program.machines then set q | q in program.machines[id] && p <= q && p != q else {}
  }

  function ViewOf(site: Site): View {
    if site.Handler? then WithEvent else Plain
  }

  // ---------------------------------------------------------------- sending

  predicate OwnersSound(rs: Forest, id: RuntimeId) {
    id.Root? || (id.owner in rs && !rs[id.owner].status.Faulted? && OwnersSound(rs, id.owner))
  }

  /** `_target_eligibility`: the runtime runs and no runtime above it has faulted. */
  predicate Eligible(rs: Forest, id: RuntimeId) {
    id in rs && rs[id].status.Running? && OwnersSound(rs, id)
  }

  datatype Resolution = Delivered(target: RuntimeId) | Outward | Refused(code: FaultCode)

  /** `resolve_send_target`. */
  function Resolve(rs: Forest, r: RuntimeId, to: Recipient, v: Value): (res: Resolution)
    requires r in rs
    ensures res.Delivered? ==> res.target == r || (to.ToOwner? && res.target in rs) || Eligible(rs, res.target)
  {
    match to
    case ToSelf => Delivered(r)
    case ToOwner => if r.Root? || r.owner !in rs then Refused(InvalidInstanceTarget) else Delivered(r.owner)
    case ToComponent(id) =>
      if id in rs[r].components && Eligible(rs, rs[r].components[id]) then Delivered(rs[r].components[id])
      else Refused(InactiveComponentTarget)
    case ToInstance(_) =>
      if v.Reference? && Eligible(rs, v.instance) then Delivered(v.instance) else Refused(InvalidInstanceTarget)
    case ToExternal => Outward
  }

  function OutwardCount(resolved: seq<Resolution>): nat {
    if resolved == [] then 0
    else OutwardCount(resolved[..|resolved| - 1]) + (if resolved[|resolved| - 1].Outward? then 1 else 0)
  }

  /** One emission a recipient, in order; external ones take the next output numbers. */
  function Sent(r: RuntimeId, event: string, payload: Value, resolved: seq<Resolution>, output: nat): seq<Emission> {
    if resolved == [] then []
    else
      var shorter := resolved[..|resolved| - 1];
      Sent(r, event, payload, shorter, output)
      + match resolved[|resolved| - 1]
        case Delivered(target) => [Internal(r, target, event, payload)]
        case Outward => [External(r, event, payload, output + OutwardCount(shorter))]
        case Refused(_) => []
  }

  lemma NumberingMore(n: nat, es: seq<Emission>, e: Emission)
    requires Numbering(n, es).Some?
    ensures !e.External? ==> Numbering(n, es + [e]) == Numbering(n, es)
    ensures e.External? && e.sequence == Numbering(n, es).value ==>
              Numbering(n, es + [e]) == Some(Numbering(n, es).value + 1)
  {
    assert (es + [e])[..|es|] == es;
  }

  lemma {:induction false} SentNumbered(
    r: RuntimeId, event: string, payload: Value, resolved: seq<Resolution>, output: nat)
    ensures Numbering(output, Sent(r, event, payload, resolved, output)) == Some(output + OutwardCount(resolved))
  {
    if resolved != [] {
      var shorter := resolved[..|resolved| - 1];
      SentNumbered(r, event, payload, shorter, output);
      var sent := Sent(r, event, payload, shorter, output);
      match resolved[|resolved| - 1] {
        case Delivered(target) =>
          NumberingMore(output, sent, Internal(r, target, event, payload));
        case Outward =>
          NumberingMore(output, sent, External(r, event, payload, output + OutwardCount(shorter)));
        case Refused(_) =>
          assert sent + [] == sent;
      }
    }
  }

  // ---------------------------------------------------------------- assignment

  function Assigned(x: Runtime, slot: Path, name: Name, v: Value): Runtime
    requires slot in x.scopes
  {
    x.(scopes := x.scopes[slot := x.scopes[slot][name := v]])
  }

  lemma AssignedOk(program: Program, rs: Forest, r: RuntimeId, slot: Path, name: Name, v: Value)
    requires Ok(program, rs) && r in rs && rs[r].machine in program.machines
    requires slot in rs[r].scopes && slot in program.machines[rs[r].machine]
    requires name in program.machines[rs[r].machine][slot].variables
    requires Matches(v, program.machines[rs[r].machine][slot].variables[name])
    ensures SameControl(rs[r], Assigned(rs[r], slot, name, v))
    ensures Assigned(rs[r], slot, name, v).scopes.Keys == rs[r].scopes.Keys
    ensures Ok(program, rs[r := Assigned(rs[r], slot, name, v)])
  {
    assert RuntimeOk(program, rs, r);
    var m := program.machines[rs[r].machine];
    var y := Assigned(rs[r], slot, name, v);
    assert ScopeOk(m, slot, rs[r].scopes[slot]);
    forall p | p in y.scopes ensures ScopeOk(m, p, y.scopes[p]) {
      assert ScopeOk(m, p, rs[r].scopes[p]);
    }
    SameControlOk(program, rs, r, y);
  }

  /** The record of `r` after it has spent a spawn number. */
  function SpentSpawn(x: Runtime): Runtime {
    x.(nextSpawn := x.nextSpawn + 1)
  }

  lemma SpentSpawnOk(program: Program, rs: Forest, r: RuntimeId)
    requires Ok(program, rs) && r in rs && rs[r].machine in program.machines
    ensures Ok(program, rs[r := SpentSpawn(rs[r])])
  {
    assert RuntimeOk(program, rs, r);
    var y := SpentSpawn(rs[r]);
    forall p | p in y.scopes ensures ScopeOk(program.machines[y.machine], p, y.scopes[p]) {
      assert ScopeOk(program.machines[y.machine], p, rs[r].scopes[p]);
    }
    SameControlOk(program, rs, r, y);
  }

  /** A new instance with a spent number fits its owner. */
  lemma SpawnedChildOk(program: Program, rs: Forest, child: RuntimeId, rt: Runtime)
    requires Ok(program, rs) && child.Spawned? && child.owner in rs && child !in rs && IsNew(program, rt)
    requires rs[child.owner].status.Running? && child.sequence < rs[child.owner].nextSpawn
    requires rt.holder.Some? ==>
               && rs[child.owner].machine in program.machines
               && HolderOk(program.machines[rs[child.owner].machine], rs[child.owner], rt.holder.value)
    ensures Ok(program, rs[child := rt])
  {
    assert RuntimeOk(program, rs, child.owner);
    AddChildOk(program, rs, child, rt);
    assert rs[child.owner := rs[child.owner]][child := rt] == rs[child := rt];
  }

  /** An empty variable is a reference. */
  lemma EmptyIsReference(program: Program, rs: Forest, r: RuntimeId, slot: Path, name: Name)
    requires Ok(program, rs) && r in rs && rs[r].machine in program.machines
    requires slot in rs[r].scopes && slot in program.machines[rs[r].machine]
    requires name in program.machines[rs[r].machine][slot].variables
    ensures name in rs[r].scopes[slot]
    ensures rs[r].scopes[slot][name].Null? ==> program.machines[rs[r].machine][slot].variables[name].reference
    ensures slot in rs[r].activations
  {
    assert RuntimeOk(program, rs, r);
    assert ScopeOk(program.machines[rs[r].machine], slot, rs[r].scopes[slot]);
  }

  // ---------------------------------------------------------------- load-time facts, one at a time

  lemma LoadedPlacement(program: Program, id: MachineId, p: Path, i: nat)
    requires Loaded(program) && id in program.machines && p in program.machines[id]
    requires i < |program.machines[id][p].components|
    ensures var c := program.machines[id][p].components[i];
      Below(program, id, c.machine) && Launches(program, c.machine, c.bindings)
  {
    LoadedNode(program, id, p);
  }

  /** What the loader and a fault-free definition give for entering `p`. */
  lemma LoadedEntry(program: Program, id: MachineId, p: Path, bindings: Scope)
    requires Loaded(program) && id in program.machines && p in program.machines[id]
    requires if p == [] then BindingsOk(program.machines[id], bindings) else bindings == map[]
    ensures id in program.rank && Runnable(program, id, Entry(p), program.machines[id][p].entry)
    ensures !program.machines[id][p].kind.Parallel? ==> program.machines[id][p].components == []
    ensures InitialScope(program.machines[id][p], bindings).Some? ==>
              ScopeOk(program.machines[id], p, InitialScope(program.machines[id][p], bindings).value)
    ensures Quiet(program) ==> Inert(program) && program.machines[id][p].components == []
    ensures Inert(program) ==>
              InitialScope(program.machines[id][p], bindings).Some? && program.machines[id][p].entry == []
  {
    LoadedNode(program, id, p);
    FaultlessAt(program, id, p);
    QuietIsInert(program);
    if InitialScope(program.machines[id][p], bindings).Some? {
      InitialScopeOk(program, id, p, bindings);
    }
    if Inert(program) {
      InitialScopeGiven(program, id, p, bindings);
    }
  }

  lemma RankKnown(program: Program, id: MachineId)
    requires Loaded(program) && id in program.machines
    ensures id in program.rank
  {
    assert MachineOk(program, id);
  }

  lemma LoadedExit(program: Program, id: MachineId, p: Path)
    requires Loaded(program) && id in program.machines && p in program.machines[id]
    ensures Runnable(program, id, Exit(p), program.machines[id][p].exit)
    ensures Inert(program) ==> program.machines[id][p].exit == []
  {
    LoadedNode(program, id, p);
    FaultlessAt(program, id, p);
  }

  lemma LoadedBranch(program: Program, id: MachineId, p: Path, i: nat)
    requires Loaded(program) && id in program.machines && p in program.machines[id]
    requires program.machines[id][p].kind.Choice? && i < |program.machines[id][p].branches|
    ensures var b := program.machines[id][p].branches[i];
      && b.target.Some? && b.target.value.path in program.machines[id] && b.target.value.path != []
      && Runnable(program, id, Branch(p, i), b.actions)
  {
    LoadedNode(program, id, p);
  }

  lemma LoadedInitial(program: Program, id: MachineId, p: Path)
    requires Loaded(program) && id in program.machines && p in program.machines[id]
    requires program.machines[id][p].kind.Composite?
    ensures program.machines[id][p].initial.Some? && program.machines[id][p].initial.value.target.Some?
    ensures Resolves(program.machines[id], program.machines[id][p].initial.value)
    ensures Runnable(program, id, Initial(p), program.machines[id][p].initial.value.actions)
    ensures Quiet(program) || Faultless(program) ==> program.machines[id][p].initial.value.actions == []
  {
    LoadedNode(program, id, p);
    FaultlessAt(program, id, p);
  }

  /** A contained initial transition finds a state strictly below its composite. */
  lemma ContainedInitial(program: Program, id: MachineId, p: Path, found: Path)
    requires id in program.machines && p in program.machines[id]
    requires program.machines[id][p].initial.Some? && program.machines[id][p].initial.value.target.Some?
    requires found in Outcomes(program.machines[id], program.machines[id][p].initial.value.target.value.path, {})
    ensures Contained(program) ==> p <= found && p != found
  {
  }

  lemma BelowShrinks(program: Program, id: MachineId, boundary: Path, target: Path)
    requires id in program.machines && target in program.machines[id] && boundary <= target && boundary != target
    ensures StatesBelow(program, id, target) < StatesBelow(program, id, boundary)
  {
    assert target in StatesBelow(program, id, boundary) && target !in StatesBelow(program, id, target);
  }

  lemma RecordRests(program: Program, rs: Forest, r: RuntimeId, p: Path)
    requires Loaded(program) && Ok(program, rs) && r in rs && rs[r].machine in program.machines
    requires p in rs[r].history && rs[r].history[p].Some?
    ensures var d := rs[r].history[p].value;
      && d in program.machines[rs[r].machine] && p <= d && p != d
      && !program.machines[rs[r].machine][d].kind.Choice?
  {
    assert RuntimeOk(program, rs, r);
  }

  lemma OutcomesStep(m: Machine, at: Path, seen: set<Path>, i: nat)
    requires at in m && m[at].kind.Choice? && at !in seen
    requires i < |m[at].branches| && m[at].branches[i].target.Some?
    ensures Outcomes(m, m[at].branches[i].target.value.path, seen + {at}) <= Outcomes(m, at, seen)
  {
  }

  lemma OutcomesSelf(m: Machine, at: Path, seen: set<Path>)
    requires at in m && !m[at].kind.Choice?
    ensures at in Outcomes(m, at, seen)
  {
  }

  lemma HistoryKeys(program: Program, rs: Forest, r: RuntimeId)
    requires Ok(program, rs) && r in rs && rs[r].machine in program.machines && rs[r].status.Running?
    ensures rs[r].history.Keys == HistoryStates(program.machines[rs[r].machine])
  {
    assert RuntimeOk(program, rs, r);
  }

  lemma HandlerRunnable(program: Program, id: MachineId, p: Path, event: string, i: nat)
    requires Loaded(program) && id in program.machines && p in program.machines[id]
    requires i < |Handlers(program.machines[id], p, event)|
    ensures var t := Handlers(program.machines[id], p, event)[i];
      && Resolves(program.machines[id], t) && Runnable(program, id, Handler(p, event, i), t.actions)
      && (Quiet(program) || Faultless(program) ==> t.actions == [])
  {
    FaultlessAt(program, id, p);
    LoadedNode(program, id, p);
    assert HandlerOk(program, program.machines[id], p, program.machines[id][p].handlers[event][i]);
  }

  /** What the guards of the transitions for `event` say to a runtime. */
  function GuardsFor(
    program: Program, cel: Evaluator, rt: Runtime, event: string): Guards
  {
    var m := if rt.machine in program.machines then program.machines[rt.machine] else map[];
    (p: Path, i: nat) =>
      if i < |Handlers(m, p, event)| && Handlers(m, p, event)[i].guard.Some?
      then Verdict(cel(Handlers(m, p, event)[i].guard.value, Visible(rt, p), WithEvent))
      else Some(true)
  }

  // ---------------------------------------------------------------- the effect of one action

  type Evaluator = (Expression, Scope, View) -> Option<Value>

  function Evaluated(cel: Evaluator, rt: Runtime, p: Path, view: View, e: Expression): Option<Value> {
    cel(e, Visible(rt, p), view)
  }

  function RecipientValue(cel: Evaluator, rt: Runtime, p: Path, view: View, to: Recipient): Option<Value> {
    if to.ToInstance? then Evaluated(cel, rt, p, view, to.reference) else Some(Null)
  }

  function Resolved(cel: Evaluator, rs: Forest, r: RuntimeId, p: Path, view: View, to: Recipient): Resolution
    requires r in rs
  {
    var v := RecipientValue(cel, rs[r], p, view, to);
    if v.None? then Refused(ActionFault) else Resolve(rs, r, to, v.value)
  }

  function ResolvedAll(
    cel: Evaluator, rs: Forest, r: RuntimeId, p: Path, view: View, recipients: seq<Recipient>): (all: seq<Resolution>)
    requires r in rs
    ensures |all| == |recipients|
    ensures forall i :: 0 <= i < |all| ==> all[i] == Resolved(cel, rs, r, p, view, recipients[i])
  {
    seq(|recipients|, i requires 0 <= i < |recipients| => Resolved(cel, rs, r, p, view, recipients[i]))
  }

  predicate Accepted(all: seq<Resolution>) {
    forall i :: 0 <= i < |all| ==> !all[i].Refused?
  }

  /** The one variable changes. */
  predicate AssignEffect(
    program: Program, cel: Evaluator, a: World, b: World, r: RuntimeId, p: Path, view: View, name: Name, value: Expression)
  {
    && r in a.runtimes && a.runtimes[r].machine in program.machines
    && var m := program.machines[a.runtimes[r].machine];
       var v := Evaluated(cel, a.runtimes[r], p, view, value);
       var slot := VariableSlot(m, a.runtimes[r], p, name);
       && v.Some? && slot.Some? && Matches(v.value, m[slot.value].variables[name])
       && b == a.(runtimes := a.runtimes[r := Assigned(a.runtimes[r], slot.value, name, v.value)])
  }

  /** One emission a recipient is added, and nothing else changes. */
  predicate SendEffect(
    cel: Evaluator, a: World, b: World, r: RuntimeId, p: Path, view: View, event: string, payload: Expression,
    recipients: seq<Recipient>)
  {
    && r in a.runtimes
    && var v := Evaluated(cel, a.runtimes[r], p, view, payload);
       var all := ResolvedAll(cel, a.runtimes, r, p, view, recipients);
       && v.Some? && Accepted(all)
       && b == a.(emissions := a.emissions + Sent(r, event, v.value, all, a.nextOutput),
                  nextOutput := a.nextOutput + OutwardCount(all))
  }

  /** The record of the owner and of the instance once it is made, before it starts. */
  function Spawning(program: Program, rs: Forest, r: RuntimeId, child: RuntimeId, machine: MachineId, p: Path, bindTo: Option<Name>): Forest
    requires r in rs && rs[r].machine in program.machines && machine in program.machines
    requires bindTo.Some? ==>
               && VariableSlot(program.machines[rs[r].machine], rs[r], p, bindTo.value).Some?
               && VariableSlot(program.machines[rs[r].machine], rs[r], p, bindTo.value).value in rs[r].activations
  {
    if bindTo.None? then
      rs[r := SpentSpawn(rs[r])][child := NewRuntime(program.machines[machine], machine, 0, None)]
    else
      var slot := VariableSlot(program.machines[rs[r].machine], rs[r], p, bindTo.value).value;
      rs[r := Assigned(SpentSpawn(rs[r]), slot, bindTo.value, Reference(child))]
        [child := NewRuntime(program.machines[machine], machine, 0,
                             Some(Holder(slot, rs[r].activations[slot], bindTo.value)))]
  }

  /** An empty variable to bind to. */
  predicate Bindable(program: Program, rs: Forest, r: RuntimeId, p: Path, bindTo: Option<Name>)
    requires r in rs && rs[r].machine in program.machines
  {
    bindTo.Some? ==>
      var slot := VariableSlot(program.machines[rs[r].machine], rs[r], p, bindTo.value);
      && slot.Some? && slot.value in rs[r].activations
      && bindTo.value in rs[r].scopes[slot.value] && rs[r].scopes[slot.value][bindTo.value].Null?
  }

  /** A spent number changes neither the variable to bind to nor whether it is empty. */
  lemma BindableSame(program: Program, a: Forest, b: Forest, r: RuntimeId, p: Path, name: Name)
    requires r in a && a[r].machine in program.machines && b == a[r := SpentSpawn(a[r])]
    ensures VariableSlot(program.machines[a[r].machine], b[r], p, name)
         == VariableSlot(program.machines[a[r].machine], a[r], p, name)
    ensures Bindable(program, b, r, p, Some(name)) ==> Bindable(program, a, r, p, Some(name))
    ensures forall code :: BindFails(program, b, r, p, name, code) ==> BindFails(program, a, r, p, name, code)
  {
    VariableSlotSame(program.machines[a[r].machine], a[r], b[r], p, name);
  }

  /** Making an instance and starting it is one of the things actions may do. */
  lemma SpawnedActed(
    program: Program, w0: World, w1: World, w2: World, r: RuntimeId, child: RuntimeId, machine: MachineId, p: Path,
    bindTo: Option<Name>)
    requires r in w0.runtimes && w0.runtimes[r].machine in program.machines && machine in program.machines
    requires child.Spawned? && child.owner == r && child !in w0.runtimes
    requires Bindable(program, w0.runtimes, r, p, bindTo)
    requires w1 == w0.(runtimes := Spawning(program, w0.runtimes, r, child, machine, p, bindTo))
    requires ContainedStart(program, w1, w2, child)
    ensures Acted(program, w0, w2, r) && LogOf(w2, r) == LogOf(w0, r)
  {
    hide ContainedStart, Acted;
    ChildNotOwner(child);
    SpawnActed(program, w0, w1, w2, r, child, w1.runtimes[r], w1.runtimes[child]);
  }

  /** An instance with the next spawn number is made, bound to an empty variable if asked, and
      started; a failed start is contained. */
  ghost predicate SpawnEffect(
    program: Program, a: World, b: World, r: RuntimeId, p: Path, action: ActionSite, machine: MachineId, bindTo: Option<Name>)
  {
    && r in a.runtimes && a.runtimes[r].machine in program.machines && machine in program.machines
    && Bindable(program, a.runtimes, r, p, bindTo)
    && var child := Spawned(r, action, a.runtimes[r].nextSpawn);
       && child !in a.runtimes
       && ContainedStart(program, a.(runtimes := Spawning(program, a.runtimes, r, child, machine, p, bindTo)), b, child)
  }

  /** What the `i`th action of a site does to the world. */
  ghost predicate ActionEffect(
    program: Program, cel: Evaluator, a: World, b: World, r: RuntimeId, p: Path, site: Site, i: nat, action: Action)
  {
    && r in a.runtimes
    && match action
       case Assign(name, value) => AssignEffect(program, cel, a, b, r, p, ViewOf(site), name, value)
       case Send(event, payload, recipients) => SendEffect(cel, a, b, r, p, ViewOf(site), event, payload, recipients)
       case Spawn(machine, bindings, bindTo) =>
         SpawnEffect(program, a, b, r, p, ActionSite(a.runtimes[r].machine, site, i), machine, bindTo)
       case Cancel(reference) =>
         Cancelled(program, a, b, r, Evaluated(cel, a.runtimes[r], p, ViewOf(site), reference))
       case Stop => b == a
  }

  // ---------------------------------------------------------------- how an action faults

  /** No value, no slot, or a value that the slot's variable does not take. */
  ghost predicate AssignFails(
    program: Program, cel: Evaluator, a: World, r: RuntimeId, p: Path, view: View, name: Name, value: Expression,
    code: FaultCode)
    requires r in a.runtimes && a.runtimes[r].machine in program.machines
  {
    var m := program.machines[a.runtimes[r].machine];
    var v := Evaluated(cel, a.runtimes[r], p, view, value);
    var slot := VariableSlot(m, a.runtimes[r], p, name);
    if v.None? then code == ActionFault
    else if slot.None? then code == InvariantFault
    else code == ActionFault && !Matches(v.value, m[slot.value].variables[name])
  }

  predicate RecipientFails(cel: Evaluator, rt: Runtime, p: Path, view: View, recipients: seq<Recipient>) {
    exists i :: 0 <= i < |recipients| && RecipientValue(cel, rt, p, view, recipients[i]).None?
  }

  predicate FirstRefusal(all: seq<Resolution>, i: nat, code: FaultCode) {
    i < |all| && all[i] == Refused(code) && Accepted(all[..i])
  }

  /** Some recipient has no value, or the first that does not resolve says why. */
  ghost predicate ResolveFails(
    cel: Evaluator, rs: Forest, r: RuntimeId, p: Path, view: View, recipients: seq<Recipient>, code: FaultCode)
    requires r in rs
  {
    if RecipientFails(cel, rs[r], p, view, recipients) then code == ActionFault
    else exists i :: FirstRefusal(ResolvedAll(cel, rs, r, p, view, recipients), i, code)
  }

  /** Some binding has no value, or one that its variable does not take. */
  ghost predicate BindingsFail(
    program: Program, cel: Evaluator, rt: Runtime, p: Path, view: View, machine: MachineId,
    bindings: map<Name, Expression>)
    requires Launches(program, machine, bindings)
  {
    exists x :: x in bindings && BindingFails(program, cel, rt, p, view, machine, x, bindings[x])
  }

  predicate BindingFails(
    program: Program, cel: Evaluator, rt: Runtime, p: Path, view: View, machine: MachineId, x: Name, e: Expression)
    requires machine in program.machines && [] in program.machines[machine]
    requires x in program.machines[machine][[]].variables
  {
    var v := Evaluated(cel, rt, p, view, e);
    v.None? || !Matches(v.value, program.machines[machine][[]].variables[x])
  }

  /** A failing binding, or a variable to bind to that is missing or not empty. */
  ghost predicate SpawnFails(
    program: Program, cel: Evaluator, a: World, r: RuntimeId, p: Path, machine: MachineId,
    bindings: map<Name, Expression>, bindTo: Option<Name>, code: FaultCode)
    requires r in a.runtimes && a.runtimes[r].machine in program.machines
  {
    && Launches(program, machine, bindings)
    && (|| (code == ActionFault && exists view :: BindingsFail(program, cel, a.runtimes[r], p, view, machine, bindings))
        || (bindTo.Some? && BindFails(program, a.runtimes, r, p, bindTo.value, code)))
  }

  ghost predicate BindFails(program: Program, rs: Forest, r: RuntimeId, p: Path, name: Name, code: FaultCode)
    requires r in rs && rs[r].machine in program.machines
  {
    var slot := VariableSlot(program.machines[rs[r].machine], rs[r], p, name);
    if slot.None? then code == InvariantFault
    else
      && code == BindingNotEmpty
      && name in rs[r].scopes[slot.value] && !rs[r].scopes[slot.value][name].Null?
  }

  /** No value, or a fault while a descendant is cleaned up. */
  ghost predicate CancelFails(program: Program, a: World, r: RuntimeId, v: Option<Value>, code: FaultCode) {
    if v.None? then code == ActionFault
    else
      && code == CascadeFault && !Inert(program)
      && v.value.Reference? && v.value.instance.Spawned? && v.value.instance in a.runtimes
      && Within(v.value.instance, r) && v.value.instance != r
  }

  ghost predicate ActionFails(
    program: Program, cel: Evaluator, a: World, r: RuntimeId, p: Path, site: Site, action: Action, code: FaultCode)
  {
    && r in a.runtimes && a.runtimes[r].machine in program.machines
    && match action
       case Assign(name, value) => AssignFails(program, cel, a, r, p, ViewOf(site), name, value, code)
       case Send(_, payload, recipients) =>
         if Evaluated(cel, a.runtimes[r], p, ViewOf(site), payload).None? then code == ActionFault
         else ResolveFails(cel, a.runtimes, r, p, ViewOf(site), recipients, code)
       case Spawn(machine, bindings, bindTo) => SpawnFails(program, cel, a, r, p, machine, bindings, bindTo, code)
       case Cancel(reference) =>
         CancelFails(program, a, r, Evaluated(cel, a.runtimes[r], p, ViewOf(site), reference), code)
       case Stop => false
  }

  /** The worlds between the first `n` actions, each the effect of its action on the one before. */
  ghost predicate Ran(
    program: Program, cel: Evaluator, trail: seq<World>, r: RuntimeId, p: Path, site: Site, actions: seq<Action>)
  {
    && 0 < |trail| <= |actions| + 1
    && forall i :: 0 <= i < |trail| - 1 ==> RanOne(program, cel, trail, r, p, site, i, actions)
  }

  ghost predicate RanOne(
    program: Program, cel: Evaluator, trail: seq<World>, r: RuntimeId, p: Path, site: Site, i: nat, actions: seq<Action>)
    requires i + 1 < |trail| && i < |actions|
  {
    ActionEffect(program, cel, trail[i], trail[i + 1], r, p, site, i, actions[i])
  }

  lemma RanNothing(program: Program, cel: Evaluator, w: World, r: RuntimeId, p: Path, site: Site, actions: seq<Action>)
    ensures Ran(program, cel, [w], r, p, site, actions)
  {
  }

  lemma RanMore(
    program: Program, cel: Evaluator, trail: seq<World>, a: World, b: World, w: World, r: RuntimeId, p: Path, site: Site,
    actions: seq<Action>)
    requires Ran(program, cel, trail, r, p, site, actions) && 0 < |trail| <= |actions| && Spans(trail, a, b, r, site)
    requires ActionEffect(program, cel, b, w, r, p, site, |trail| - 1, actions[|trail| - 1])
    ensures Spans(trail + [w], a, w, r, site)
    ensures Ran(program, cel, trail + [w], r, p, site, actions)
  {
    hide ActionEffect;
    var longer := trail + [w];
    forall i | 0 <= i < |longer| - 1 ensures RanOne(program, cel, longer, r, p, site, i, actions) {
      if i < |trail| - 1 {
        assert RanOne(program, cel, trail, r, p, site, i, actions);
      }
    }
  }

  /** From the start of a site's actions to the end of the trail. */
  predicate Spans(trail: seq<World>, a: World, b: World, r: RuntimeId, site: Site) {
    && 0 < |trail|
    && trail[0] == a.(log := Note(a.log, r, Acts(site)))
    && trail[|trail| - 1] == b
  }

  /** Before the first action only the log has changed. */
  lemma ActionsStart(program: Program, a: World, b: World, r: RuntimeId, site: Site)
    requires b == a.(log := Note(a.log, r, Acts(site))) && r in a.runtimes
    ensures Spans([b], a, b, r, site) && Acted(program, a, b, r) && Logged(a, b, r, [Acts(site)])
    ensures OnlyRemoved(a.runtimes, b.runtimes, r)
  {
    assert a.runtimes == a.runtimes[r := a.runtimes[r]];
    OwnRecord(program, a, b, r, a.runtimes[r]);
  }

  lemma ActedMore(program: Program, a: World, b: World, c: World, r: RuntimeId, site: Site)
    requires Acted(program, a, b, r) && Logged(a, b, r, [Acts(site)])
    requires Acted(program, b, c, r) && LogOf(c, r) == LogOf(b, r)
    ensures Acted(program, a, c, r) && Logged(a, c, r, [Acts(site)])
    ensures r in c.runtimes && c.runtimes[r].machine == b.runtimes[r].machine && c.runtimes[r].status == b.runtimes[r].status
  {
    ActedTransitive(program, a, b, c, r);
    ActedSame(program, b, c, r);
  }

  lemma RunnableHere(program: Program, id: MachineId, site: Site, actions: seq<Action>, i: nat)
    requires Runnable(program, id, site, actions) && i < |actions|
    ensures RunnableAt(program, id, site, actions[i]) && (site.Exit? ==> !actions[i].Stop?)
  {
  }

  /** All actions of a site ran, one after the other. */
  ghost predicate RanAll(
    program: Program, cel: Evaluator, a: World, b: World, r: RuntimeId, p: Path, site: Site, actions: seq<Action>)
  {
    && Acted(program, a, b, r)
    && Logged(a, b, r, [Acts(site)])
    && exists trail: seq<World> ::
         Ran(program, cel, trail, r, p, site, actions) && |trail| == |actions| + 1 && Spans(trail, a, b, r, site)
  }

  /** The actions of a site ran up to a `stop`. */
  ghost predicate StopRan(
    program: Program, cel: Evaluator, a: World, b: World, r: RuntimeId, p: Path, site: Site, actions: seq<Action>)
  {
    && Acted(program, a, b, r)
    && Logged(a, b, r, [Acts(site)])
    && exists trail: seq<World> ::
         && Ran(program, cel, trail, r, p, site, actions) && Spans(trail, a, b, r, site)
         && 2 <= |trail| && actions[|trail| - 2].Stop?
  }

  /** The actions of a site ran up to one that faults. */
  ghost predicate FailRan(
    program: Program, cel: Evaluator, a: World, r: RuntimeId, p: Path, site: Site, actions: seq<Action>, code: FaultCode)
  {
    exists trail: seq<World>, b: World ::
      && Ran(program, cel, trail, r, p, site, actions) && Spans(trail, a, b, r, site)
      && |trail| <= |actions|
      && ActionFails(program, cel, b, r, p, site, actions[|trail| - 1], code)
  }

  lemma RanAlong(
    program: Program, cel: Evaluator, trail: seq<World>, a: World, b: World, r: RuntimeId, p: Path, site: Site,
    actions: seq<Action>)
    requires Ran(program, cel, trail, r, p, site, actions) && Spans(trail, a, b, r, site)
    requires Acted(program, a, b, r) && Logged(a, b, r, [Acts(site)])
    ensures |trail| == |actions| + 1 ==> RanAll(program, cel, a, b, r, p, site, actions)
    ensures 2 <= |trail| && actions[|trail| - 2].Stop? ==> StopRan(program, cel, a, b, r, p, site, actions)
  {
  }

  lemma FailAlong(
    program: Program, cel: Evaluator, trail: seq<World>, a: World, b: World, r: RuntimeId, p: Path, site: Site,
    actions: seq<Action>, code: FaultCode)
    requires Ran(program, cel, trail, r, p, site, actions) && Spans(trail, a, b, r, site) && 0 < |trail| <= |actions|
    requires ActionFails(program, cel, b, r, p, site, actions[|trail| - 1], code)
    ensures FailRan(program, cel, a, r, p, site, actions, code)
  {
    hide Ran, Spans, ActionFails;
  }

  lemma RanFacts(
    program: Program, cel: Evaluator, a: World, b: World, r: RuntimeId, p: Path, site: Site, actions: seq<Action>)
    requires RanAll(program, cel, a, b, r, p, site, actions) || StopRan(program, cel, a, b, r, p, site, actions)
    ensures Acted(program, a, b, r) && Logged(a, b, r, [Acts(site)])
    ensures StopRan(program, cel, a, b, r, p, site, actions) ==> actions != []
  {
  }
}
