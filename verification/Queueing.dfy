/** The queue-bearing aggregate of `queueing.py`: ready and deferred mailboxes, sequence
    allocation, admission and the mailbox half of one run-to-completion step.

    A hash is modelled by the tuple it is taken over, so equal digests mean equal inputs.
    The runtimes of an aggregate are a list sorted by a unique runtime id; here they are a
    map keyed by that id. What the engine decides for one dispatch is the `Dispatched` value. */
module Queueing {
  import opened Options

  type RuntimeId = string
  type EventId = string

  datatype Status = Running | Completed | Faulted

  datatype Mode = Input | Internal

  datatype Source = Host | FromRuntime(runtime: RuntimeId) | FromSystem(locator: string)

  datatype Envelope = Envelope(
    event: string, eventId: EventId, causeId: string, source: Source, target: RuntimeId, payload: string)

  datatype EntryDigest = EntryDigest(root: string, mode: Mode, envelope: Envelope)

  datatype Entry = Entry(
    acceptance: nat, queue: nat, mode: Mode, envelope: Envelope, digest: EntryDigest, deferrals: nat)

  datatype Box = Box(status: Status, ready: seq<Entry>, deferred: seq<Entry>)

  datatype Aggregate = Aggregate(
    root: string, creationId: string, rootRuntime: RuntimeId, boxes: map<RuntimeId, Box>,
    nextAcceptance: nat, nextQueue: nat, core: nat)

  datatype Delivery = Delivery(mode: Mode, envelope: Envelope, digest: EntryDigest)

  datatype Reason = RuntimeCancelled | RuntimeCompleted | AggregateCompleted

  datatype Lifecycle = Lifecycle(
    eventId: EventId, digest: EntryDigest, acceptance: nat, finalQueue: nat, target: RuntimeId, reason: Reason)

  datatype NativeEmission =
    | External(effectId: string, index: nat)
    | ToRuntime(index: nat, envelope: Envelope)

  datatype Emission =
    | Outbox(effectId: string, index: nat)
    | Mailbox(index: nat, eventId: EventId, acceptance: nat, queue: nat)
    | Disposed(index: nat, eventId: EventId, acceptance: nat, lifecycleIndex: nat)

  datatype Disposition = Rejected | NotRunnable | Deferred | Handled | Unhandled | FaultedStep

  /** What one engine dispatch decided: its disposition, the runtimes that exist afterwards
      with their status, and the emissions in order. */
  datatype Dispatched = Dispatched(
    disposition: Disposition, after: map<RuntimeId, Status>, emissions: seq<NativeEmission>, core: nat)

  datatype StepResult = StepResult(
    disposition: Disposition, state: Aggregate, emissions: seq<Emission>, lifecycle: seq<Lifecycle>)

  // ---------------------------------------------------------------- mailboxes

  ghost predicate Holds(boxes: map<RuntimeId, Box>, id: RuntimeId, late: bool, x: Entry) {
    id in boxes && x in (if late then boxes[id].deferred else boxes[id].ready)
  }

  /** The entry waits in some mailbox of the aggregate. */
  ghost predicate Pending(a: Aggregate, x: Entry) {
    exists id, late :: Holds(a.boxes, id, late, x)
  }

  ghost predicate Ascending(s: seq<Entry>) {
    forall i, j | 0 <= i < j < |s| :: s[i].queue < s[j].queue
  }

  ghost predicate SameKey(x: Entry, y: Entry) {
    x.envelope.eventId == y.envelope.eventId || x.acceptance == y.acceptance || x.queue == y.queue
  }

  ghost predicate EntryOk(root: string, id: RuntimeId, x: Entry, nextAcceptance: nat, nextQueue: nat) {
    && x.acceptance < nextAcceptance
    && x.queue < nextQueue
    && x.envelope.target == id
    && x.digest == EntryDigest(root, x.mode, x.envelope)
  }

  ghost predicate Sorted(boxes: map<RuntimeId, Box>) {
    forall id | id in boxes :: Ascending(boxes[id].ready) && Ascending(boxes[id].deferred)
  }

  ghost predicate Bounded(root: string, boxes: map<RuntimeId, Box>, nextAcceptance: nat, nextQueue: nat) {
    forall id, late, x | Holds(boxes, id, late, x) :: EntryOk(root, id, x, nextAcceptance, nextQueue)
  }

  ghost predicate Unique(boxes: map<RuntimeId, Box>) {
    forall id, late, x, id', late', y | Holds(boxes, id, late, x) && Holds(boxes, id', late', y) && SameKey(x, y) ::
      id == id' && late == late' && x == y
  }

  /** `_validate_mailboxes`: queue order inside each mailbox, allocation bounds, digests, and
      event ids, acceptance sequences and queue sequences that are unique in the aggregate. */
  ghost predicate MailOk(root: string, boxes: map<RuntimeId, Box>, nextAcceptance: nat, nextQueue: nat) {
    Sorted(boxes) && Bounded(root, boxes, nextAcceptance, nextQueue) && Unique(boxes)
  }

  ghost predicate AggregateOk(a: Aggregate) {
    a.rootRuntime in a.boxes && MailOk(a.root, a.boxes, a.nextAcceptance, a.nextQueue)
  }

  predicate RootRunning(a: Aggregate) {
    a.rootRuntime in a.boxes && a.boxes[a.rootRuntime].status == Running
  }

  /** Appending an entry whose three keys are new keeps every mailbox condition. */
  lemma AppendReadyOk(root: string, boxes: map<RuntimeId, Box>, na: nat, nq: nat, id: RuntimeId, x: Entry)
    requires MailOk(root, boxes, na, nq) && id in boxes
    requires x.acceptance == na && x.queue == nq
    requires EntryOk(root, id, x, na + 1, nq + 1)
    requires forall id', late, y | Holds(boxes, id', late, y) :: y.envelope.eventId != x.envelope.eventId
    ensures MailOk(root, boxes[id := boxes[id].(ready := boxes[id].ready + [x])], na + 1, nq + 1)
  {
    var b' := boxes[id := boxes[id].(ready := boxes[id].ready + [x])];
    forall id', late, y | Holds(b', id', late, y)
      ensures Holds(boxes, id', late, y) || (id' == id && !late && y == x)
    {}
    forall k | k in b'
      ensures Ascending(b'[k].ready) && Ascending(b'[k].deferred)
    {
      if k == id {
        forall j | 0 <= j < |boxes[id].ready| ensures boxes[id].ready[j].queue < x.queue {
          assert Holds(boxes, id, false, boxes[id].ready[j]);
        }
      }
    }
  }

  // ---------------------------------------------------------------- admission

  predicate ValidDelivery(a: Aggregate, d: Delivery) {
    && (d.mode == Input ==> d.envelope.source == Host && d.envelope.causeId == d.envelope.eventId)
    && (d.mode == Internal ==>
          match d.envelope.source
          case Host => false
          case FromRuntime(r) => r in a.boxes
          case FromSystem(l) =>
            l in {"system:component_completion", "system:spawned_completion",
                  "system:component_failure", "system:spawned_failure"})
    && d.envelope.target in a.boxes
    && a.boxes[d.envelope.target].status == Running
    && d.digest == EntryDigest(a.root, d.mode, d.envelope)
  }

  function AdmittedEntry(a: Aggregate, d: Delivery, i: nat): Entry {
    Entry(a.nextAcceptance + i, a.nextQueue + i, d.mode, d.envelope, d.digest, 0)
  }

  ghost predicate FreshIds(a: Aggregate, ds: seq<Delivery>) {
    && (forall i, j | 0 <= i < j < |ds| :: ds[i].envelope.eventId != ds[j].envelope.eventId)
    && (forall i, x | 0 <= i < |ds| && Pending(a, x) :: x.envelope.eventId != ds[i].envelope.eventId)
  }

  /** Exactly the new deliveries join the mailboxes, in order, with the next free sequences. */
  ghost predicate Admits(a: Aggregate, ds: seq<Delivery>, a': Aggregate) {
    && a'.root == a.root && a'.creationId == a.creationId && a'.rootRuntime == a.rootRuntime
    && a'.boxes.Keys == a.boxes.Keys
    && (forall id | id in a.boxes :: a'.boxes[id].status == a.boxes[id].status)
    && a'.nextAcceptance == a.nextAcceptance + |ds|
    && a'.nextQueue == a.nextQueue + |ds|
    && (forall id, late, x :: Holds(a'.boxes, id, late, x) <==>
          || Holds(a.boxes, id, late, x)
          || (!late && exists i | 0 <= i < |ds| :: id == ds[i].envelope.target && x == AdmittedEntry(a, ds[i], i)))
  }

  /** One delivery joins the ready mailbox of its target. */
  function Accepting(a: Aggregate, d: Delivery): Aggregate {
    var id := d.envelope.target;
    var entry := Entry(a.nextAcceptance, a.nextQueue, d.mode, d.envelope, d.digest, 0);
    if id !in a.boxes then a
    else a.(boxes := a.boxes[id := a.boxes[id].(ready := a.boxes[id].ready + [entry])],
            nextAcceptance := a.nextAcceptance + 1, nextQueue := a.nextQueue + 1)
  }

  function AcceptingAll(a: Aggregate, ds: seq<Delivery>): Aggregate {
    if ds == [] then a else Accepting(AcceptingAll(a, ds[..|ds| - 1]), ds[|ds| - 1])
  }

  lemma AcceptingNone(a: Aggregate, ds: seq<Delivery>)
    ensures AcceptingAll(a, ds[..0]) == a
  {}

  lemma AcceptingStep(a: Aggregate, ds: seq<Delivery>, i: nat)
    requires i < |ds|
    ensures AcceptingAll(a, ds[..i + 1]) == Accepting(AcceptingAll(a, ds[..i]), ds[i])
  {
    assert ds[..i + 1][..i] == ds[..i];
  }

  /** The accepting loop of `admit_aggregate_v1` over a batch that passed validation. */
  method AdmitAggregate(a: Aggregate, ds: seq<Delivery>) returns (a': Aggregate)
    requires AggregateOk(a)
    requires FreshIds(a, ds)
    requires forall i | 0 <= i < |ds| :: ValidDelivery(a, ds[i])
    ensures AggregateOk(a') && a' == AcceptingAll(a, ds)
    ensures Admits(a, ds, a')
  {
    hide MailOk, EntryOk, AcceptingAll;
    a' := a;
    AcceptingNone(a, ds);
    for i := 0 to |ds|
      invariant AggregateOk(a') && a' == AcceptingAll(a, ds[..i])
      invariant Admits(a, ds[..i], a')
    {
      AcceptingStep(a, ds, i);
      var d := ds[i];
      var id := d.envelope.target;
      var entry := Entry(a'.nextAcceptance, a'.nextQueue, d.mode, d.envelope, d.digest, 0);
      assert entry == AdmittedEntry(a, d, i);
      forall id', late, y | Holds(a'.boxes, id', late, y)
        ensures y.envelope.eventId != entry.envelope.eventId
      {
        if Holds(a.boxes, id', late, y) {
          assert Pending(a, y);
        }
      }
      AppendReadyOk(a.root, a'.boxes, a'.nextAcceptance, a'.nextQueue, id, entry);
      ghost var old' := a';
      a' := a'.(
        boxes := a'.boxes[id := a'.boxes[id].(ready := a'.boxes[id].ready + [entry])],
        nextAcceptance := a'.nextAcceptance + 1,
        nextQueue := a'.nextQueue + 1);
      AdmitOne(a, ds, i, old', a');
    }
    assert ds[..|ds|] == ds;
  }

  lemma AdmitOne(a: Aggregate, ds: seq<Delivery>, i: nat, b: Aggregate, b': Aggregate)
    requires i < |ds| && ds[i].envelope.target in a.boxes
    requires Admits(a, ds[..i], b)
    requires
      var id := ds[i].envelope.target;
      b' == b.(boxes := b.boxes[id := b.boxes[id].(ready := b.boxes[id].ready + [AdmittedEntry(a, ds[i], i)])],
               nextAcceptance := b.nextAcceptance + 1, nextQueue := b.nextQueue + 1)
    ensures Admits(a, ds[..i + 1], b')
  {
    var p, p' := ds[..i], ds[..i + 1];
    assert forall k | 0 <= k < i :: p[k] == p'[k];
    assert p'[i] == ds[i];
    forall id, late, x
      ensures Holds(b'.boxes, id, late, x) <==>
        || Holds(a.boxes, id, late, x)
        || (!late && exists k | 0 <= k < |p'| :: id == p'[k].envelope.target && x == AdmittedEntry(a, p'[k], k))
    {
      assert Holds(b'.boxes, id, late, x) <==>
        Holds(b.boxes, id, late, x) || (!late && id == ds[i].envelope.target && x == AdmittedEntry(a, ds[i], i));
    }
  }

  // ---------------------------------------------------------------- lifecycle disposal

  function LifecycleOf(x: Entry, id: RuntimeId, reason: Reason): Lifecycle {
    Lifecycle(x.envelope.eventId, x.digest, x.acceptance, x.queue, id, reason)
  }

  /** The runtime's remaining mail is disposed: the root completed, or the runtime did, or it is gone. */
  predicate Gone(after: map<RuntimeId, Box>, rootCompleted: bool, id: RuntimeId) {
    rootCompleted || id !in after || after[id].status == Completed
  }

  function ReasonFor(after: map<RuntimeId, Box>, rootCompleted: bool, id: RuntimeId): Reason {
    if rootCompleted then AggregateCompleted else if id in after then RuntimeCompleted else RuntimeCancelled
  }

  ghost predicate Permutes(order: seq<RuntimeId>, ids: set<RuntimeId>) {
    && (forall i, j | 0 <= i < j < |order| :: order[i] != order[j])
    && (forall id :: id in order <==> id in ids)
  }

  ghost predicate DistinctEvents(lifecycle: seq<Lifecycle>) {
    forall i, j | 0 <= i < j < |lifecycle| ::
      lifecycle[i].eventId != lifecycle[j].eventId && lifecycle[i].finalQueue != lifecycle[j].finalQueue
  }

  ghost predicate DisposedFrom(mail: map<RuntimeId, Box>, ids: seq<RuntimeId>, after: map<RuntimeId, Box>,
                               rootCompleted: bool, l: Lifecycle)
  {
    exists id, late, x :: id in ids && Gone(after, rootCompleted, id) && Holds(mail, id, late, x)
      && l == LifecycleOf(x, id, ReasonFor(after, rootCompleted, id))
  }

  /** The lifecycle list is exactly the mail of the gone runtimes among `ids`, each entry once. */
  ghost predicate Collected(mail: map<RuntimeId, Box>, ids: seq<RuntimeId>, after: map<RuntimeId, Box>,
                            rootCompleted: bool, lifecycle: seq<Lifecycle>)
  {
    && (forall id, late, x | id in ids && Gone(after, rootCompleted, id) && Holds(mail, id, late, x) ::
          LifecycleOf(x, id, ReasonFor(after, rootCompleted, id)) in lifecycle)
    && (forall l | l in lifecycle :: DisposedFrom(mail, ids, after, rootCompleted, l))
    && DistinctEvents(lifecycle)
  }

  ghost predicate Emptied(ids: seq<RuntimeId>, after: map<RuntimeId, Box>, rootCompleted: bool, boxes: map<RuntimeId, Box>) {
    && boxes.Keys == after.Keys
    && forall id | id in after ::
         boxes[id] == if id in ids && Gone(after, rootCompleted, id) then after[id].(ready := [], deferred := []) else after[id]
  }

  /** The loop over `_lifecycle_runtime_order`: the mail of gone runtimes is disposed and the
      surviving ones among them are left with empty mailboxes. */
  method DisposeMail(mail: map<RuntimeId, Box>, after: map<RuntimeId, Box>, order: seq<RuntimeId>, rootCompleted: bool)
    returns (boxes: map<RuntimeId, Box>, lifecycle: seq<Lifecycle>)
    requires Sorted(mail) && Unique(mail)
    requires Permutes(order, mail.Keys)
    ensures Emptied(order, after, rootCompleted, boxes)
    ensures Collected(mail, order, after, rootCompleted, lifecycle)
  {
    boxes, lifecycle := after, [];
    for k := 0 to |order|
      invariant Emptied(order[..k], after, rootCompleted, boxes)
      invariant Collected(mail, order[..k], after, rootCompleted, lifecycle)
    {
      var id := order[k];
      assert order[..k + 1] == order[..k] + [id];
      if Gone(after, rootCompleted, id) {
        var reason := ReasonFor(after, rootCompleted, id);
        var entries := mail[id].ready + mail[id].deferred;
        var block := seq(|entries|, i requires 0 <= i < |entries| => LifecycleOf(entries[i], id, reason));
        BlockFacts(mail, id, reason, entries, block);
        CollectBlock(mail, order, k, after, rootCompleted, lifecycle, block);
        lifecycle := lifecycle + block;
        if id in boxes {
          boxes := boxes[id := boxes[id].(ready := [], deferred := [])];
        }
      } else {
        CollectNothing(mail, order, k, after, rootCompleted, lifecycle);
      }
    }
    assert order[..|order|] == order;
  }

  lemma CollectNothing(mail: map<RuntimeId, Box>, order: seq<RuntimeId>, k: nat, after: map<RuntimeId, Box>,
                       rootCompleted: bool, lifecycle: seq<Lifecycle>)
    requires k < |order| && !Gone(after, rootCompleted, order[k])
    requires Collected(mail, order[..k], after, rootCompleted, lifecycle)
    ensures Collected(mail, order[..k + 1], after, rootCompleted, lifecycle)
  {
    assert order[..k + 1] == order[..k] + [order[k]];
    forall l | l in lifecycle
      ensures DisposedFrom(mail, order[..k + 1], after, rootCompleted, l)
    {
      var id, late, x :| id in order[..k] && Gone(after, rootCompleted, id) && Holds(mail, id, late, x)
        && l == LifecycleOf(x, id, ReasonFor(after, rootCompleted, id));
      assert id in order[..k + 1];
    }
  }

  lemma CollectBlock(mail: map<RuntimeId, Box>, order: seq<RuntimeId>, k: nat, after: map<RuntimeId, Box>,
                     rootCompleted: bool, lifecycle: seq<Lifecycle>, block: seq<Lifecycle>)
    requires Unique(mail) && Permutes(order, mail.Keys)
    requires k < |order| && Gone(after, rootCompleted, order[k])
    requires Collected(mail, order[..k], after, rootCompleted, lifecycle)
    requires var reason := ReasonFor(after, rootCompleted, order[k]);
      && (forall l | l in block :: exists late, x :: Holds(mail, order[k], late, x) && l == LifecycleOf(x, order[k], reason))
      && (forall late, x | Holds(mail, order[k], late, x) :: LifecycleOf(x, order[k], reason) in block)
      && DistinctEvents(block)
    ensures Collected(mail, order[..k + 1], after, rootCompleted, lifecycle + block)
  {
    var id := order[k];
    var reason := ReasonFor(after, rootCompleted, id);
    assert order[..k + 1] == order[..k] + [id];
    forall l | l in lifecycle + block
      ensures DisposedFrom(mail, order[..k + 1], after, rootCompleted, l)
    {
      if l in block {
        var late, x :| Holds(mail, id, late, x) && l == LifecycleOf(x, id, reason);
        assert id in order[..k + 1];
      } else {
        var id', late, x :| id' in order[..k] && Gone(after, rootCompleted, id') && Holds(mail, id', late, x)
          && l == LifecycleOf(x, id', ReasonFor(after, rootCompleted, id'));
        assert id' in order[..k + 1];
      }
    }
    forall i, j | 0 <= i < |lifecycle| && 0 <= j < |block|
      ensures lifecycle[i].eventId != block[j].eventId && lifecycle[i].finalQueue != block[j].finalQueue
    {
      assert lifecycle[i] in lifecycle && block[j] in block;
      var id', late, x :| id' in order[..k] && Gone(after, rootCompleted, id') && Holds(mail, id', late, x)
        && lifecycle[i] == LifecycleOf(x, id', ReasonFor(after, rootCompleted, id'));
      var late', y :| Holds(mail, id, late', y) && block[j] == LifecycleOf(y, id, reason);
      assert id' != id;
      assert !SameKey(x, y);
    }
  }

  lemma BlockFacts(mail: map<RuntimeId, Box>, id: RuntimeId, reason: Reason, entries: seq<Entry>, block: seq<Lifecycle>)
    requires Sorted(mail) && Unique(mail) && id in mail
    requires entries == mail[id].ready + mail[id].deferred
    requires |block| == |entries| && forall i | 0 <= i < |block| :: block[i] == LifecycleOf(entries[i], id, reason)
    ensures forall l | l in block :: exists late, x :: Holds(mail, id, late, x) && l == LifecycleOf(x, id, reason)
    ensures forall late, x | Holds(mail, id, late, x) :: LifecycleOf(x, id, reason) in block
    ensures DistinctEvents(block)
  {
    var n := |mail[id].ready|;
    forall i | 0 <= i < |entries|
      ensures Holds(mail, id, n <= i, entries[i])
    {
      assert entries[i] == if i < n then mail[id].ready[i] else mail[id].deferred[i - n];
    }
    forall late, x | Holds(mail, id, late, x)
      ensures LifecycleOf(x, id, reason) in block
    {
      assert x in entries;
      var i :| 0 <= i < |entries| && entries[i] == x;
      assert block[i] == LifecycleOf(x, id, reason);
    }
    forall i, j | 0 <= i < j < |block|
      ensures block[i].eventId != block[j].eventId && block[i].finalQueue != block[j].finalQueue
    {
      assert Holds(mail, id, n <= i, entries[i]) && Holds(mail, id, n <= j, entries[j]);
      assert (n <= i) == (n <= j) ==> entries[i].queue < entries[j].queue;
    }
  }

  // ---------------------------------------------------------------- emission routing

  predicate Deliverable(boxes: map<RuntimeId, Box>, rootCompleted: bool, target: RuntimeId) {
    target in boxes && !rootCompleted && boxes[target].status != Completed
  }

  /** The number of runtime-bound emissions among the first ones: how many sequences they took. */
  function Allocated(native: seq<NativeEmission>): nat {
    if native == [] then 0
    else Allocated(native[..|native| - 1]) + if native[|native| - 1].ToRuntime? then 1 else 0
  }

  function EmittedEntry(root: string, na: nat, nq: nat, native: seq<NativeEmission>, i: nat): Entry
    requires i < |native| && native[i].ToRuntime?
  {
    var e := native[i].envelope;
    var n := Allocated(native[..i]);
    Entry(na + n, nq + n, Internal, e, EntryDigest(root, Internal, e), 0)
  }

  /** Event ids of one step's emissions are new, distinct and never come from the host. */
  ghost predicate FreshEmissions(boxes: map<RuntimeId, Box>, lifecycle: seq<Lifecycle>, native: seq<NativeEmission>) {
    && (forall i | 0 <= i < |native| && native[i].ToRuntime? ::
          && native[i].envelope.source != Host
          && (forall id, late, x | Holds(boxes, id, late, x) :: x.envelope.eventId != native[i].envelope.eventId)
          && (forall l | l in lifecycle :: l.eventId != native[i].envelope.eventId))
    && (forall i, j | 0 <= i < j < |native| && native[i].ToRuntime? && native[j].ToRuntime? ::
          native[i].envelope.eventId != native[j].envelope.eventId)
  }

  /** How one native emission is projected, given where disposed ones land in the lifecycle list. */
  ghost predicate Projects(root: string, boxes: map<RuntimeId, Box>, na: nat, nq: nat, rootCompleted: bool,
                           native: seq<NativeEmission>, lifecycle: seq<Lifecycle>, i: nat, e: Emission)
    requires i < |native|
  {
    match native[i]
    case External(effectId, index) => e == Outbox(effectId, index)
    case ToRuntime(index, envelope) =>
      var x := EmittedEntry(root, na, nq, native, i);
      if Deliverable(boxes, rootCompleted, envelope.target) then
        e == Mailbox(index, envelope.eventId, x.acceptance, x.queue)
      else
        && e.Disposed? && e.index == index && e.eventId == envelope.eventId && e.acceptance == x.acceptance
        && e.lifecycleIndex < |lifecycle|
        && lifecycle[e.lifecycleIndex]
           == LifecycleOf(x, envelope.target, RoutingReason(boxes, envelope.target, rootCompleted))
  }

  /** Unlike `ReasonFor`, a vanished target is reported before a completed root. */
  function RoutingReason(boxes: map<RuntimeId, Box>, target: RuntimeId, rootCompleted: bool): Reason {
    if target !in boxes then RuntimeCancelled else if rootCompleted then AggregateCompleted else RuntimeCompleted
  }

  ghost predicate Routed(root: string, boxes: map<RuntimeId, Box>, na: nat, nq: nat, rootCompleted: bool,
                         native: seq<NativeEmission>, boxes': map<RuntimeId, Box>)
  {
    && boxes'.Keys == boxes.Keys
    && (forall id | id in boxes :: boxes'[id].status == boxes[id].status && boxes'[id].deferred == boxes[id].deferred)
    && (forall id, late, x :: Holds(boxes', id, late, x) <==>
          || Holds(boxes, id, late, x)
          || (!late && exists i | 0 <= i < |native| ::
                native[i].ToRuntime? && id == native[i].envelope.target
                && Deliverable(boxes, rootCompleted, id) && x == EmittedEntry(root, na, nq, native, i)))
  }

  /** Everything `_enqueue_emissions` does with the first emissions of a step. */
  ghost predicate Enqueued(root: string, boxes: map<RuntimeId, Box>, na: nat, nq: nat, rootCompleted: bool,
                           lifecycle: seq<Lifecycle>, native: seq<NativeEmission>,
                           boxes': map<RuntimeId, Box>, emissions: seq<Emission>, lifecycle': seq<Lifecycle>)
  {
    && Routed(root, boxes, na, nq, rootCompleted, native, boxes')
    && |emissions| == |native|
    && (forall i | 0 <= i < |native| ::
          Projects(root, boxes, na, nq, rootCompleted, native, lifecycle', i, emissions[i]))
    && lifecycle <= lifecycle'
    && (forall k | |lifecycle| <= k < |lifecycle'| :: DisposedAt(emissions, k))
  }

  /** Some emission was disposed into slot `k` of the lifecycle list. */
  ghost predicate DisposedAt(emissions: seq<Emission>, k: nat) {
    exists i | 0 <= i < |emissions| :: emissions[i].Disposed? && emissions[i].lifecycleIndex == k
  }

  lemma DisposedAtGrows(es: seq<Emission>, e: Emission, k: nat)
    requires DisposedAt(es, k)
    ensures DisposedAt(es + [e], k)
  {
    var i :| 0 <= i < |es| && es[i].Disposed? && es[i].lifecycleIndex == k;
    assert (es + [e])[i] == es[i];
  }

  lemma PrefixEntry(root: string, na: nat, nq: nat, native: seq<NativeEmission>, k: nat)
    requires k < |native|
    ensures native[..k + 1][k] == native[k]
    ensures Allocated(native[..k + 1]) == Allocated(native[..k]) + if native[k].ToRuntime? then 1 else 0
    ensures native[k].ToRuntime? ==>
      var n := Allocated(native[..k]);
      EmittedEntry(root, na, nq, native[..k + 1], k)
      == Entry(na + n, nq + n, Internal, native[k].envelope, EntryDigest(root, Internal, native[k].envelope), 0)
  {
    PrefixEntries(root, na, nq, native, k);
  }

  lemma EnqueueNone(root: string, boxes: map<RuntimeId, Box>, na: nat, nq: nat, rootCompleted: bool,
                    lifecycle: seq<Lifecycle>, native: seq<NativeEmission>)
    ensures Allocated(native[..0]) == 0
    ensures Enqueued(root, boxes, na, nq, rootCompleted, lifecycle, native[..0], boxes, [], lifecycle)
  {}

  /** Routing changes no runtime's status. */
  lemma EnqueuedStatus(root: string, boxes: map<RuntimeId, Box>, na: nat, nq: nat, rootCompleted: bool,
                       lifecycle: seq<Lifecycle>, native: seq<NativeEmission>,
                       b: map<RuntimeId, Box>, es: seq<Emission>, ls: seq<Lifecycle>)
    requires Enqueued(root, boxes, na, nq, rootCompleted, lifecycle, native, b, es, ls)
    ensures b.Keys == boxes.Keys && forall id | id in boxes :: b[id].status == boxes[id].status
    ensures |lifecycle| <= |ls|
  {
    hide Holds;
  }

  method EnqueueEmissions(root: string, boxes: map<RuntimeId, Box>, na: nat, nq: nat, rootCompleted: bool,
                          lifecycle: seq<Lifecycle>, native: seq<NativeEmission>)
    returns (boxes': map<RuntimeId, Box>, emissions: seq<Emission>, lifecycle': seq<Lifecycle>, count: nat)
    requires MailOk(root, boxes, na, nq)
    requires FreshEmissions(boxes, lifecycle, native)
    ensures count == Allocated(native)
    ensures MailOk(root, boxes', na + count, nq + count)
    ensures Enqueued(root, boxes, na, nq, rootCompleted, lifecycle, native, boxes', emissions, lifecycle')
  {
    hide MailOk, Enqueued, FreshEmissions, Allocated, EmittedEntry;
    boxes', emissions, lifecycle', count := boxes, [], lifecycle, 0;
    EnqueueNone(root, boxes, na, nq, rootCompleted, lifecycle, native);
    for k := 0 to |native|
      invariant count == Allocated(native[..k])
      invariant MailOk(root, boxes', na + count, nq + count)
      invariant Enqueued(root, boxes, na, nq, rootCompleted, lifecycle, native[..k], boxes', emissions, lifecycle')
    {
      ghost var b0, e0, l0 := boxes', emissions, lifecycle';
      PrefixEntry(root, na, nq, native, k);
      EnqueuedStatus(root, boxes, na, nq, rootCompleted, lifecycle, native[..k], boxes', emissions, lifecycle');
      match native[k] {
        case External(effectId, index) =>
          emissions := emissions + [Outbox(effectId, index)];
          EnqueueOutbox(root, boxes, na, nq, rootCompleted, lifecycle, native, k, b0, e0, l0, emissions);
        case ToRuntime(index, envelope) =>
          var entry := Entry(na + count, nq + count, Internal, envelope, EntryDigest(root, Internal, envelope), 0);
          var target := envelope.target;
          if target in boxes' && !rootCompleted && boxes'[target].status != Completed {
            emissions := emissions + [Mailbox(index, envelope.eventId, entry.acceptance, entry.queue)];
            boxes' := boxes'[target := boxes'[target].(ready := boxes'[target].ready + [entry])];
            EnqueueMailbox(root, boxes, na, nq, rootCompleted, lifecycle, native, k, b0, e0, l0, entry, boxes', emissions);
          } else {
            var reason := if target !in boxes' then RuntimeCancelled
                          else if rootCompleted then AggregateCompleted else RuntimeCompleted;
            emissions := emissions + [Disposed(index, envelope.eventId, entry.acceptance, |lifecycle'|)];
            lifecycle' := lifecycle' + [LifecycleOf(entry, target, reason)];
            EnqueueDisposed(root, boxes, na, nq, rootCompleted, lifecycle, native, k, b0, e0, l0, entry,
                            emissions, lifecycle');
          }
          count := count + 1;
      }
    }
    assert native[..|native|] == native;
  }

  /** Growing the prefix of processed emissions by one leaves the earlier ones' entries alone. */
  lemma PrefixEntries(root: string, na: nat, nq: nat, native: seq<NativeEmission>, k: nat)
    requires k < |native|
    ensures var p, p' := native[..k], native[..k + 1];
      && (forall i | 0 <= i < k :: p'[i] == p[i] == native[i])
      && p'[k] == native[k]
      && (forall i | 0 <= i < k && native[i].ToRuntime? ::
            EmittedEntry(root, na, nq, p', i) == EmittedEntry(root, na, nq, p, i))
      && (native[k].ToRuntime? ==>
            var n := Allocated(p);
            var e := native[k].envelope;
            EmittedEntry(root, na, nq, p', k) == Entry(na + n, nq + n, Internal, e, EntryDigest(root, Internal, e), 0))
      && Allocated(p') == Allocated(p) + if native[k].ToRuntime? then 1 else 0
  {
    var p, p' := native[..k], native[..k + 1];
    assert p'[..k] == p;
    assert forall i | 0 <= i < k :: p'[..i] == p[..i];
  }

  lemma EnqueueOutbox(root: string, boxes: map<RuntimeId, Box>, na: nat, nq: nat, rootCompleted: bool,
                      lifecycle: seq<Lifecycle>, native: seq<NativeEmission>, k: nat,
                      b: map<RuntimeId, Box>, es: seq<Emission>, ls: seq<Lifecycle>, es': seq<Emission>)
    requires k < |native| && native[k].External?
    requires Enqueued(root, boxes, na, nq, rootCompleted, lifecycle, native[..k], b, es, ls)
    requires es' == es + [Outbox(native[k].effectId, native[k].index)]
    ensures Enqueued(root, boxes, na, nq, rootCompleted, lifecycle, native[..k + 1], b, es', ls)
  {
    PrefixEntries(root, na, nq, native, k);
    assert forall i | 0 <= i < k :: es'[i] == es[i];
    RoutedSame(root, boxes, na, nq, rootCompleted, native, k, b);
    forall j | |lifecycle| <= j < |ls|
      ensures DisposedAt(es', j)
    {
      DisposedAtGrows(es, es'[k], j);
    }
  }

  lemma RoutedSame(root: string, boxes: map<RuntimeId, Box>, na: nat, nq: nat, rootCompleted: bool,
                   native: seq<NativeEmission>, k: nat, b: map<RuntimeId, Box>)
    requires k < |native|
    requires native[k].ToRuntime? ==> !Deliverable(boxes, rootCompleted, native[k].envelope.target)
    requires Routed(root, boxes, na, nq, rootCompleted, native[..k], b)
    ensures Routed(root, boxes, na, nq, rootCompleted, native[..k + 1], b)
  {
    PrefixEntries(root, na, nq, native, k);
    var p, p' := native[..k], native[..k + 1];
    forall id, late, x
      ensures Holds(b, id, late, x) <==>
        || Holds(boxes, id, late, x)
        || (!late && exists i | 0 <= i < |p'| ::
              p'[i].ToRuntime? && id == p'[i].envelope.target
              && Deliverable(boxes, rootCompleted, id) && x == EmittedEntry(root, na, nq, p', i))
    {
      if i :| 0 <= i < |p'| && p'[i].ToRuntime? && id == p'[i].envelope.target
              && Deliverable(boxes, rootCompleted, id) && x == EmittedEntry(root, na, nq, p', i) && !late {
        assert i < k && p[i] == p'[i];
      }
      if i :| 0 <= i < |p| && p[i].ToRuntime? && id == p[i].envelope.target
              && Deliverable(boxes, rootCompleted, id) && x == EmittedEntry(root, na, nq, p, i) && !late {
        assert p[i] == p'[i];
      }
    }
  }

  lemma RoutedMailbox(root: string, boxes: map<RuntimeId, Box>, na: nat, nq: nat, rootCompleted: bool,
                      native: seq<NativeEmission>, k: nat, b: map<RuntimeId, Box>, x: Entry, b': map<RuntimeId, Box>)
    requires k < |native| && native[k].ToRuntime?
    requires Deliverable(boxes, rootCompleted, native[k].envelope.target)
    requires native[k].envelope.target in b && Routed(root, boxes, na, nq, rootCompleted, native[..k], b)
    requires x == EmittedEntry(root, na, nq, native[..k + 1], k)
    requires var target := native[k].envelope.target;
      b' == b[target := b[target].(ready := b[target].ready + [x])]
    ensures Routed(root, boxes, na, nq, rootCompleted, native[..k + 1], b')
  {
    PrefixEntries(root, na, nq, native, k);
    var target := native[k].envelope.target;
    var p, p' := native[..k], native[..k + 1];
    forall id, late, y
      ensures Holds(b', id, late, y) <==>
        || Holds(boxes, id, late, y)
        || (!late && exists i | 0 <= i < |p'| ::
              p'[i].ToRuntime? && id == p'[i].envelope.target
              && Deliverable(boxes, rootCompleted, id) && y == EmittedEntry(root, na, nq, p', i))
    {
      AppendHolds(b, target, x, b', id, late, y);
      hide Holds;
      assert p'[k].ToRuntime? && x == EmittedEntry(root, na, nq, p', k);
      assert forall i | 0 <= i < k :: p'[i] == p[i];
    }
  }

  lemma AppendHolds(b: map<RuntimeId, Box>, target: RuntimeId, x: Entry, b': map<RuntimeId, Box>, id: RuntimeId,
                    late: bool, y: Entry)
    requires target in b && b' == b[target := b[target].(ready := b[target].ready + [x])]
    ensures Holds(b', id, late, y) <==> Holds(b, id, late, y) || (!late && id == target && y == x)
  {}

  /** An event about to be routed is in no mailbox yet. */
  lemma FreshInMail(root: string, boxes: map<RuntimeId, Box>, na: nat, nq: nat, rootCompleted: bool,
                    lifecycle: seq<Lifecycle>, native: seq<NativeEmission>, k: nat, b: map<RuntimeId, Box>)
    requires k < |native| && native[k].ToRuntime? && FreshEmissions(boxes, lifecycle, native)
    requires Routed(root, boxes, na, nq, rootCompleted, native[..k], b)
    ensures forall id, late, y | Holds(b, id, late, y) :: y.envelope.eventId != native[k].envelope.eventId
  {
    hide Holds;
    var p := native[..k];
    forall id, late, y | Holds(b, id, late, y)
      ensures y.envelope.eventId != native[k].envelope.eventId
    {
      if !Holds(boxes, id, late, y) {
        var i :| 0 <= i < k && p[i].ToRuntime? && y == EmittedEntry(root, na, nq, p, i);
        assert native[i].ToRuntime?;
      }
    }
  }

  lemma EnqueueMailbox(root: string, boxes: map<RuntimeId, Box>, na: nat, nq: nat, rootCompleted: bool,
                       lifecycle: seq<Lifecycle>, native: seq<NativeEmission>, k: nat,
                       b: map<RuntimeId, Box>, es: seq<Emission>, ls: seq<Lifecycle>,
                       x: Entry, b': map<RuntimeId, Box>, es': seq<Emission>)
    requires k < |native| && native[k].ToRuntime?
    requires Deliverable(boxes, rootCompleted, native[k].envelope.target)
    requires Enqueued(root, boxes, na, nq, rootCompleted, lifecycle, native[..k], b, es, ls)
    requires MailOk(root, b, na + Allocated(native[..k]), nq + Allocated(native[..k]))
    requires FreshEmissions(boxes, lifecycle, native)
    requires x == EmittedEntry(root, na, nq, native[..k + 1], k)
    requires var target := native[k].envelope.target;
      b' == b[target := b[target].(ready := b[target].ready + [x])]
    requires es' == es + [Mailbox(native[k].index, native[k].envelope.eventId, x.acceptance, x.queue)]
    ensures Enqueued(root, boxes, na, nq, rootCompleted, lifecycle, native[..k + 1], b', es', ls)
    ensures MailOk(root, b', na + Allocated(native[..k + 1]), nq + Allocated(native[..k + 1]))
  {
    hide Routed, MailOk, Holds, FreshEmissions;
    PrefixEntries(root, na, nq, native, k);
    var envelope := native[k].envelope;
    var n := Allocated(native[..k]);
    var p, p' := native[..k], native[..k + 1];
    FreshInMail(root, boxes, na, nq, rootCompleted, lifecycle, native, k, b);
    EnqueuedStatus(root, boxes, na, nq, rootCompleted, lifecycle, p, b, es, ls);
    AppendReadyOk(root, b, na + n, nq + n, envelope.target, x);
    RoutedMailbox(root, boxes, na, nq, rootCompleted, native, k, b, x, b');
    assert forall i | 0 <= i < k :: es'[i] == es[i];
    forall j | |lifecycle| <= j < |ls|
      ensures DisposedAt(es', j)
    {
      DisposedAtGrows(es, es'[k], j);
    }
  }

  lemma EnqueueDisposed(root: string, boxes: map<RuntimeId, Box>, na: nat, nq: nat, rootCompleted: bool,
                        lifecycle: seq<Lifecycle>, native: seq<NativeEmission>, k: nat,
                        b: map<RuntimeId, Box>, es: seq<Emission>, ls: seq<Lifecycle>,
                        x: Entry, es': seq<Emission>, ls': seq<Lifecycle>)
    requires k < |native| && native[k].ToRuntime?
    requires !Deliverable(boxes, rootCompleted, native[k].envelope.target)
    requires Enqueued(root, boxes, na, nq, rootCompleted, lifecycle, native[..k], b, es, ls)
    requires MailOk(root, b, na + Allocated(native[..k]), nq + Allocated(native[..k]))
    requires x == EmittedEntry(root, na, nq, native[..k + 1], k)
    requires es' == es + [Disposed(native[k].index, native[k].envelope.eventId, x.acceptance, |ls|)]
    requires var target := native[k].envelope.target;
      ls' == ls + [LifecycleOf(x, target, RoutingReason(boxes, target, rootCompleted))]
    ensures Enqueued(root, boxes, na, nq, rootCompleted, lifecycle, native[..k + 1], b, es', ls')
    ensures MailOk(root, b, na + Allocated(native[..k + 1]), nq + Allocated(native[..k + 1]))
  {
    PrefixEntries(root, na, nq, native, k);
    RoutedSame(root, boxes, na, nq, rootCompleted, native, k, b);
    assert forall i | 0 <= i < k :: es'[i] == es[i];
    assert forall j | 0 <= j < |ls| :: ls'[j] == ls[j];
    forall j | |lifecycle| <= j < |ls'|
      ensures DisposedAt(es', j)
    {
      if j < |ls| {
        DisposedAtGrows(es, es'[k], j);
      } else {
        assert es'[k].Disposed? && es'[k].lifecycleIndex == j;
      }
    }
  }

  // ---------------------------------------------------------------- recall of deferred mail

  /** `x` is `y`, possibly moved to a queue sequence that was free before the step. */
  ghost predicate Requeued(y: Entry, x: Entry, nextQueue: nat) {
    x == y.(queue := x.queue) && (x.queue == y.queue || nextQueue <= x.queue)
  }

  ghost predicate Recalls(boxes: map<RuntimeId, Box>, id: RuntimeId, still: set<string>, nq: nat, boxes': map<RuntimeId, Box>)
    requires id in boxes
  {
    && boxes'.Keys == boxes.Keys
    && (forall k | k in boxes :: boxes'[k].status == boxes[k].status)
    && (forall k, late, x | Holds(boxes', k, late, x) && !Holds(boxes, k, late, x) ::
          k == id && !late && exists y :: Holds(boxes, id, true, y) && y.envelope.event !in still && Requeued(y, x, nq))
    && (forall k, late, y | Holds(boxes, k, late, y) && !Holds(boxes', k, late, y) ::
          k == id && late && y.envelope.event !in still && exists x :: Holds(boxes', id, false, x) && Requeued(y, x, nq))
  }

  /** The entries whose event is still deferred, in order. */
  function StillDeferred(ys: seq<Entry>, still: set<string>): seq<Entry> {
    if ys == [] then []
    else
      var last := ys[|ys| - 1];
      StillDeferred(ys[..|ys| - 1], still) + (if last.envelope.event in still then [last] else [])
  }

  /** The others, in order, under consecutive queue sequences. */
  function RecalledFrom(ys: seq<Entry>, still: set<string>, nq: nat): seq<Entry> {
    if ys == [] then []
    else
      var earlier := RecalledFrom(ys[..|ys| - 1], still, nq);
      var last := ys[|ys| - 1];
      if last.envelope.event in still then earlier else earlier + [last.(queue := nq + |earlier|)]
  }

  /** The boxes while some deferred entries of `id` have been recalled. */
  predicate Halfway(boxes: map<RuntimeId, Box>, id: RuntimeId, ready: seq<Entry>, deferred: seq<Entry>,
                    b: map<RuntimeId, Box>)
  {
    id in boxes && b == boxes[id := boxes[id].(ready := ready, deferred := deferred)]
  }

  lemma HalfwayHas(boxes: map<RuntimeId, Box>, id: RuntimeId, ready: seq<Entry>, deferred: seq<Entry>,
                   b: map<RuntimeId, Box>)
    requires Halfway(boxes, id, ready, deferred, b)
    ensures id in b && b[id].ready == ready && b[id].deferred == deferred
  {}

  /** After a handled step, deferred entries whose event is no longer structurally deferred
      return to the end of the ready mailbox under fresh queue sequences. */
  method RecallDeferred(root: string, boxes: map<RuntimeId, Box>, na: nat, nq: nat, id: RuntimeId, still: set<string>)
    returns (boxes': map<RuntimeId, Box>, nq': nat)
    requires MailOk(root, boxes, na, nq) && id in boxes
    ensures nq' == nq + |RecalledFrom(boxes[id].deferred, still, nq)|
    ensures boxes' == boxes[id := boxes[id].(
              ready := boxes[id].ready + RecalledFrom(boxes[id].deferred, still, nq),
              deferred := StillDeferred(boxes[id].deferred, still))]
    ensures MailOk(root, boxes', na, nq')
    ensures Recalls(boxes, id, still, nq, boxes')
    ensures forall x | x in boxes'[id].deferred :: x.envelope.event in still
  {
    hide Recalls, StillDeferred, RecalledFrom, MailOk, Halfway;
    var pending := boxes[id].deferred;
    var ready, kept := boxes[id].ready, [];
    boxes', nq' := boxes, nq;
    RecallStart(boxes, id, still, nq);
    for k := 0 to |pending|
      invariant nq' == nq + |RecalledFrom(pending[..k], still, nq)|
      invariant ready == boxes[id].ready + RecalledFrom(pending[..k], still, nq)
      invariant kept == StillDeferred(pending[..k], still)
      invariant Halfway(boxes, id, ready, kept + pending[k..], boxes')
      invariant MailOk(root, boxes', na, nq')
      invariant Recalls(boxes, id, still, nq, boxes')
    {
      RecallNext(pending, k, still, nq);
      if pending[k].envelope.event in still {
        assert kept + pending[k..] == kept + [pending[k]] + pending[k + 1..];
        kept := kept + [pending[k]];
      } else {
        ghost var b := boxes';
        HalfwayHas(boxes, id, ready, kept + pending[k..], b);
        ready := ready + [pending[k].(queue := nq')];
        boxes' := boxes'[id := boxes'[id].(ready := ready, deferred := kept + pending[k + 1..])];
        RecallMoves(root, boxes, na, nq, id, still, b, nq', kept, pending, k, boxes');
        nq' := nq' + 1;
      }
    }
    RecallEnd(boxes, id, still, nq, ready, kept, boxes');
  }

  lemma MailSorted(root: string, b: map<RuntimeId, Box>, na: nat, nq: nat)
    requires MailOk(root, b, na, nq)
    ensures Sorted(b)
  {}

  /** One recalled entry leaves the deferred mailbox for the end of the ready one. */
  lemma RecallMoves(root: string, boxes: map<RuntimeId, Box>, na: nat, nq: nat, id: RuntimeId, still: set<string>,
                    b: map<RuntimeId, Box>, queue: nat, kept: seq<Entry>, pending: seq<Entry>, k: nat,
                    b': map<RuntimeId, Box>)
    requires id in boxes && id in b && MailOk(root, b, na, queue) && Recalls(boxes, id, still, nq, b) && nq <= queue
    requires k < |pending| && pending == boxes[id].deferred && b[id].deferred == kept + pending[k..]
    requires pending[k].envelope.event !in still
    requires Halfway(boxes, id, b[id].ready, kept + pending[k..], b)
    requires b' == b[id := b[id].(ready := b[id].ready + [pending[k].(queue := queue)], deferred := kept + pending[k + 1..])]
    ensures Halfway(boxes, id, b[id].ready + [pending[k].(queue := queue)], kept + pending[k + 1..], b')
    ensures MailOk(root, b', na, queue + 1) && Recalls(boxes, id, still, nq, b')
  {
    hide Recalls, MailOk;
    MailSorted(root, b, na, queue);
    var ds := b[id].deferred;
    assert ds[|kept|] == pending[k] && ds[..|kept|] == kept && ds[|kept| + 1..] == pending[k + 1..];
    MoveOk(root, b, na, queue, id, |kept|, pending[k].(queue := queue), b');
    RecallOne(boxes, id, still, nq, b, |kept|, queue, b');
  }

  lemma RecallStart(boxes: map<RuntimeId, Box>, id: RuntimeId, still: set<string>, nq: nat)
    requires id in boxes
    ensures var ys := boxes[id].deferred;
      && StillDeferred(ys[..0], still) == [] && RecalledFrom(ys[..0], still, nq) == []
      && Halfway(boxes, id, boxes[id].ready + RecalledFrom(ys[..0], still, nq), StillDeferred(ys[..0], still) + ys[0..], boxes)
      && boxes[id].ready + RecalledFrom(ys[..0], still, nq) == boxes[id].ready
    ensures Recalls(boxes, id, still, nq, boxes)
  {
    RecallsNone(boxes, id, still, nq);
    var ys := boxes[id].deferred;
    assert [] + ys[0..] == ys && boxes[id].ready + [] == boxes[id].ready;
    assert boxes[id].(ready := boxes[id].ready, deferred := ys) == boxes[id];
  }

  lemma RecallNext(ys: seq<Entry>, k: nat, still: set<string>, nq: nat)
    requires k < |ys|
    ensures var earlier := RecalledFrom(ys[..k], still, nq);
      if ys[k].envelope.event in still then
        StillDeferred(ys[..k + 1], still) == StillDeferred(ys[..k], still) + [ys[k]]
        && RecalledFrom(ys[..k + 1], still, nq) == earlier
      else
        StillDeferred(ys[..k + 1], still) == StillDeferred(ys[..k], still)
        && RecalledFrom(ys[..k + 1], still, nq) == earlier + [ys[k].(queue := nq + |earlier|)]
  {
    assert ys[..k + 1][..k] == ys[..k];
  }

  lemma {:induction false} StillKept(ys: seq<Entry>, still: set<string>)
    ensures forall x | x in StillDeferred(ys, still) :: x.envelope.event in still
  {
    if ys != [] {
      StillKept(ys[..|ys| - 1], still);
    }
  }

  lemma RecallEnd(boxes: map<RuntimeId, Box>, id: RuntimeId, still: set<string>, nq: nat, ready: seq<Entry>,
                  kept: seq<Entry>, b: map<RuntimeId, Box>)
    requires id in boxes
    requires var ys := boxes[id].deferred;
      && ready == boxes[id].ready + RecalledFrom(ys[..|ys|], still, nq) && kept == StillDeferred(ys[..|ys|], still)
      && Halfway(boxes, id, ready, kept + ys[|ys|..], b)
    ensures boxes[id].deferred[..|boxes[id].deferred|] == boxes[id].deferred
    ensures b == boxes[id := boxes[id].(
              ready := boxes[id].ready + RecalledFrom(boxes[id].deferred, still, nq),
              deferred := StillDeferred(boxes[id].deferred, still))]
    ensures forall x | x in b[id].deferred :: x.envelope.event in still
  {
    var ys := boxes[id].deferred;
    assert ys[..|ys|] == ys && kept + ys[|ys|..] == kept;
    StillKept(ys, still);
  }

  lemma RecallsNone(boxes: map<RuntimeId, Box>, id: RuntimeId, still: set<string>, nq: nat)
    requires id in boxes
    ensures Recalls(boxes, id, still, nq, boxes)
  {}

  /** Moving one deferred entry to the ready end under the next queue sequence. */
  lemma MoveOk(root: string, b: map<RuntimeId, Box>, na: nat, nq: nat, id: RuntimeId, p: nat, moved: Entry,
               b': map<RuntimeId, Box>)
    requires MailOk(root, b, na, nq) && id in b && p < |b[id].deferred|
    requires moved == b[id].deferred[p].(queue := nq)
    requires b' == b[id := b[id].(ready := b[id].ready + [moved],
                                  deferred := b[id].deferred[..p] + b[id].deferred[p + 1..])]
    ensures MailOk(root, b', na, nq + 1)
  {
    var y := b[id].deferred[p];
    assert Holds(b, id, true, y);
    MovedHolds(b, id, p, moved, b');
    forall k | k in b'
      ensures Ascending(b'[k].ready) && Ascending(b'[k].deferred)
    {
      if k == id {
        forall j | 0 <= j < |b[id].ready| ensures b[id].ready[j].queue < moved.queue {
          assert Holds(b, id, false, b[id].ready[j]);
        }
      }
    }
    forall k, late, x | Holds(b, k, late, x) && !(k == id && late && x == y)
      ensures !SameKey(x, moved)
    {
      assert !SameKey(x, y);
    }
  }

  lemma MovedHolds(b: map<RuntimeId, Box>, id: RuntimeId, p: nat, moved: Entry, b': map<RuntimeId, Box>)
    requires Sorted(b) && id in b && p < |b[id].deferred|
    requires b' == b[id := b[id].(ready := b[id].ready + [moved],
                                  deferred := b[id].deferred[..p] + b[id].deferred[p + 1..])]
    ensures forall k, late, x :: Holds(b', k, late, x) <==>
      || (Holds(b, k, late, x) && !(k == id && late && x == b[id].deferred[p]))
      || (k == id && !late && x == moved)
  {
    var s := b[id].deferred;
    forall x
      ensures x in s[..p] + s[p + 1..] <==> x in s && x != s[p]
    {
      if x in s && x != s[p] {
        var i :| 0 <= i < |s| && s[i] == x;
        assert (s[..p] + s[p + 1..])[if i < p then i else i - 1] == x;
      }
    }
  }

  lemma RecallOne(boxes: map<RuntimeId, Box>, id: RuntimeId, still: set<string>, nq: nat,
                  b: map<RuntimeId, Box>, p: nat, queue: nat, b': map<RuntimeId, Box>)
    requires id in boxes && Recalls(boxes, id, still, nq, b) && nq <= queue && Sorted(b)
    requires p < |b[id].deferred| && b[id].deferred[p].envelope.event !in still
    requires b[id].deferred[p] in boxes[id].deferred
    requires b' == b[id := b[id].(ready := b[id].ready + [b[id].deferred[p].(queue := queue)],
                                  deferred := b[id].deferred[..p] + b[id].deferred[p + 1..])]
    ensures Recalls(boxes, id, still, nq, b')
  {
    var y := b[id].deferred[p];
    var moved := y.(queue := queue);
    MovedHolds(b, id, p, moved, b');
    assert Holds(boxes, id, true, y) && Requeued(y, moved, nq);
    forall k, late, z | Holds(boxes, k, late, z) && !Holds(b', k, late, z)
      ensures k == id && late && z.envelope.event !in still && exists x :: Holds(b', id, false, x) && Requeued(z, x, nq)
    {
      if Holds(b, k, late, z) {
        assert z == y && Holds(b', id, false, moved);
      } else {
        var x :| Holds(b, id, false, x) && Requeued(z, x, nq);
        assert Holds(b', id, false, x);
      }
    }
  }

  // ---------------------------------------------------------------- one step

  predicate RuntimeBound(e: Emission) { e.Mailbox? || e.Disposed? }

  /** Routing keeps the identity of every emission. */
  ghost predicate SameIds(native: seq<NativeEmission>, es: seq<Emission>) {
    && |es| == |native|
    && forall i | 0 <= i < |native| ::
         match native[i]
         case External(effectId, index) => es[i] == Outbox(effectId, index)
         case ToRuntime(_, envelope) => RuntimeBound(es[i]) && es[i].eventId == envelope.eventId
  }

  ghost predicate Disposes(l: Lifecycle, y: Entry) {
    && l.eventId == y.envelope.eventId && l.digest == y.digest
    && l.acceptance == y.acceptance && l.finalQueue == y.queue
  }

  /** The engine's promise about one dispatch: the root survives it, and the event ids of its
      emissions are distinct, foreign to the host and to all mail that is waiting. */
  ghost predicate FreshDispatch(a: Aggregate, d: Dispatched) {
    && a.rootRuntime in d.after
    && FreshEmissions(a.boxes, [], d.emissions)
  }

  ghost predicate SurvivorOf(a: Aggregate, sel: Entry, x: Entry) {
    exists y :: Pending(a, y) && y != sel && Requeued(y, x, a.nextQueue)
  }

  ghost predicate NewMail(a: Aggregate, r: StepResult, x: Entry) {
    && x.acceptance >= a.nextAcceptance && x.queue >= a.nextQueue
    && x.mode == Internal && x.envelope.source != Host
    && exists i | 0 <= i < |r.emissions| :: r.emissions[i].Mailbox? && Reports(r.emissions[i], x)
  }

  ghost predicate DisposedNew(a: Aggregate, r: StepResult, k: nat)
    requires k < |r.lifecycle|
  {
    var l := r.lifecycle[k];
    && l.acceptance >= a.nextAcceptance && l.finalQueue >= a.nextQueue
    && exists i | 0 <= i < |r.emissions| :: r.emissions[i].Disposed? && r.emissions[i].lifecycleIndex == k
  }

  /** Everything a committed step promises about the mail: the selected entry is gone, every
      other old entry either survives (perhaps requeued) or is disposed exactly once, and the
      only newcomers are the step's own emissions, under sequences never used before. */
  ghost predicate Commits(a: Aggregate, sel: Entry, r: StepResult) {
    var b := r.state;
    && AggregateOk(b)
    && b.root == a.root && b.creationId == a.creationId && b.rootRuntime == a.rootRuntime
    && a.nextAcceptance <= b.nextAcceptance && a.nextQueue <= b.nextQueue
    && (forall x | Pending(b, x) :: SurvivorOf(a, sel, x) || NewMail(a, r, x))
    && (forall y | Pending(a, y) && y != sel ::
          || (exists x :: Pending(b, x) && Requeued(y, x, a.nextQueue))
          || (exists l :: l in r.lifecycle && Disposes(l, y)))
    && (forall k | 0 <= k < |r.lifecycle| ::
          DisposedNew(a, r, k) || exists y :: Pending(a, y) && y != sel && Disposes(r.lifecycle[k], y))
    && DistinctEvents(r.lifecycle)
    && (forall l, x | l in r.lifecycle && Pending(b, x) ::
          l.eventId != x.envelope.eventId && l.finalQueue != x.queue)
    && (forall l | l in r.lifecycle :: l.acceptance < b.nextAcceptance && l.finalQueue < b.nextQueue)
    && EmissionsOk(a, r)
  }

  /** The emitted event waits in a mailbox under the sequences the emission reports. */
  ghost predicate Emitted(b: Aggregate, e: Emission)
    requires e.Mailbox?
  {
    exists x :: Pending(b, x) && Reports(e, x)
  }

  ghost predicate Reports(e: Emission, x: Entry)
    requires e.Mailbox?
  {
    e.eventId == x.envelope.eventId && e.acceptance == x.acceptance && e.queue == x.queue
  }

  ghost predicate EmissionsOk(a: Aggregate, r: StepResult) {
    && (forall i | 0 <= i < |r.emissions| && RuntimeBound(r.emissions[i]) ::
          && r.emissions[i].acceptance >= a.nextAcceptance
          && (forall y | Pending(a, y) :: y.envelope.eventId != r.emissions[i].eventId))
    && (forall i, j | 0 <= i < j < |r.emissions| && RuntimeBound(r.emissions[i]) && RuntimeBound(r.emissions[j]) ::
          r.emissions[i].eventId != r.emissions[j].eventId && r.emissions[i].acceptance != r.emissions[j].acceptance)
    && (forall i | 0 <= i < |r.emissions| && r.emissions[i].Mailbox? :: Emitted(r.state, r.emissions[i]))
    && (forall i | 0 <= i < |r.emissions| && r.emissions[i].Disposed? ::
          var k := r.emissions[i].lifecycleIndex;
          k < |r.lifecycle| && r.lifecycle[k].eventId == r.emissions[i].eventId
            && r.lifecycle[k].acceptance == r.emissions[i].acceptance)
  }

  /** A deferred step moves the ready head behind the deferred mail and touches nothing else. */
  ghost predicate Defers(a: Aggregate, target: RuntimeId, b: Aggregate)
    requires target in a.boxes && a.boxes[target].ready != []
  {
    var sel := a.boxes[target].ready[0];
    var moved := sel.(queue := a.nextQueue, deferrals := sel.deferrals + 1);
    b == a.(nextQueue := a.nextQueue + 1,
            boxes := a.boxes[target := a.boxes[target].(ready := a.boxes[target].ready[1..],
                                                        deferred := a.boxes[target].deferred + [moved])])
  }

  predicate Runnable(a: Aggregate, target: RuntimeId) {
    target in a.boxes && RootRunning(a) && a.boxes[target].status == Running
  }

  /** The mailboxes with the ready head taken out, carried over to the runtimes that exist
      after the dispatch; a new runtime starts with empty mailboxes. */
  function EncodeAfter(mail: map<RuntimeId, Box>, after: map<RuntimeId, Status>): map<RuntimeId, Box> {
    map id | id in after ::
      if id in mail then mail[id].(status := after[id]) else Box(after[id], [], [])
  }

  /** Mail after the disposal loop: what is left and what was disposed make up the old mail
      without the selected entry. */
  ghost predicate Culled(a: Aggregate, sel: Entry, boxes: map<RuntimeId, Box>, lifecycle: seq<Lifecycle>) {
    && MailOk(a.root, boxes, a.nextAcceptance, a.nextQueue)
    && (forall id, late, x | Holds(boxes, id, late, x) :: Holds(a.boxes, id, late, x) && x != sel)
    && (forall y | Pending(a, y) && y != sel ::
          (exists id, late :: Holds(boxes, id, late, y)) || (exists l :: l in lifecycle && Disposes(l, y)))
    && (forall l | l in lifecycle :: exists y :: Pending(a, y) && y != sel && Disposes(l, y))
    && DistinctEvents(lifecycle)
    && (forall l, id, late, x | l in lifecycle && Holds(boxes, id, late, x) ::
          l.eventId != x.envelope.eventId && l.finalQueue != x.queue)
  }

  lemma PopOk(a: Aggregate, target: RuntimeId, mail: map<RuntimeId, Box>)
    requires AggregateOk(a) && target in a.boxes && a.boxes[target].ready != []
    requires mail == a.boxes[target := a.boxes[target].(ready := a.boxes[target].ready[1..])]
    ensures MailOk(a.root, mail, a.nextAcceptance, a.nextQueue)
    ensures forall id, late, x :: Holds(mail, id, late, x) <==>
      Holds(a.boxes, id, late, x) && x != a.boxes[target].ready[0]
  {
    var s := a.boxes[target].ready;
    var sel := s[0];
    assert Holds(a.boxes, target, false, sel);
    forall id, late, x
      ensures Holds(mail, id, late, x) <==> Holds(a.boxes, id, late, x) && x != sel
    {
      if Holds(a.boxes, id, late, x) && x != sel && id == target && !late {
        var i :| 0 <= i < |s| && s[i] == x;
        assert s[1..][i - 1] == x;
      }
    }
  }

  lemma EncodeHolds(mail: map<RuntimeId, Box>, after: map<RuntimeId, Status>)
    ensures forall id, late, x :: Holds(EncodeAfter(mail, after), id, late, x) <==> id in after && Holds(mail, id, late, x)
  {}

  lemma CullKept(a: Aggregate, target: RuntimeId, mail: map<RuntimeId, Box>, after: map<RuntimeId, Status>)
    requires AggregateOk(a) && target in a.boxes && a.boxes[target].ready != []
    requires mail == a.boxes[target := a.boxes[target].(ready := a.boxes[target].ready[1..])]
    requires after.Keys == a.boxes.Keys
    ensures Culled(a, a.boxes[target].ready[0], EncodeAfter(mail, after), [])
  {
    PopOk(a, target, mail);
    EncodeHolds(mail, after);
    var boxes, sel := EncodeAfter(mail, after), a.boxes[target].ready[0];
    forall y | Pending(a, y) && y != sel
      ensures exists id, late :: Holds(boxes, id, late, y)
    {
      var id, late :| Holds(a.boxes, id, late, y);
      assert Holds(boxes, id, late, y);
    }
  }

  lemma CullDisposed(a: Aggregate, target: RuntimeId, mail: map<RuntimeId, Box>, after: map<RuntimeId, Status>,
                     order: seq<RuntimeId>, rootCompleted: bool, boxes: map<RuntimeId, Box>, lifecycle: seq<Lifecycle>)
    requires AggregateOk(a) && target in a.boxes && a.boxes[target].ready != []
    requires mail == a.boxes[target := a.boxes[target].(ready := a.boxes[target].ready[1..])]
    requires Permutes(order, mail.Keys)
    requires Emptied(order, EncodeAfter(mail, after), rootCompleted, boxes)
    requires Collected(mail, order, EncodeAfter(mail, after), rootCompleted, lifecycle)
    ensures Culled(a, a.boxes[target].ready[0], boxes, lifecycle)
  {
    var encoded, sel := EncodeAfter(mail, after), a.boxes[target].ready[0];
    PopOk(a, target, mail);
    EmptiedHolds(mail, after, order, rootCompleted, boxes);
    forall y | Pending(a, y) && y != sel
      ensures (exists id, late :: Holds(boxes, id, late, y)) || (exists l :: l in lifecycle && Disposes(l, y))
    {
      var id, late :| Holds(a.boxes, id, late, y);
      assert Holds(mail, id, late, y);
      if Gone(encoded, rootCompleted, id) {
        var l := LifecycleOf(y, id, ReasonFor(encoded, rootCompleted, id));
        assert l in lifecycle && Disposes(l, y);
      } else {
        assert Holds(boxes, id, late, y);
      }
    }
    forall l | l in lifecycle
      ensures exists y :: Pending(a, y) && y != sel && Disposes(l, y)
      ensures forall id, late, x | Holds(boxes, id, late, x) :: l.eventId != x.envelope.eventId && l.finalQueue != x.queue
    {
      CulledOnce(mail, encoded, order, rootCompleted, boxes, lifecycle, l);
      var id, late, y :| Holds(mail, id, late, y) && Disposes(l, y);
      assert Holds(a.boxes, id, late, y) && Pending(a, y);
    }
  }

  lemma EmptiedHolds(mail: map<RuntimeId, Box>, after: map<RuntimeId, Status>, order: seq<RuntimeId>,
                     rootCompleted: bool, boxes: map<RuntimeId, Box>)
    requires Permutes(order, mail.Keys)
    requires Emptied(order, EncodeAfter(mail, after), rootCompleted, boxes)
    ensures forall id, late, x :: Holds(boxes, id, late, x) <==>
      id in after && Holds(mail, id, late, x) && !Gone(EncodeAfter(mail, after), rootCompleted, id)
  {}

  lemma CulledOnce(mail: map<RuntimeId, Box>, encoded: map<RuntimeId, Box>, order: seq<RuntimeId>, rootCompleted: bool,
                   boxes: map<RuntimeId, Box>, lifecycle: seq<Lifecycle>, l: Lifecycle)
    requires Unique(mail)
    requires Collected(mail, order, encoded, rootCompleted, lifecycle) && l in lifecycle
    requires forall id, late, x | Holds(boxes, id, late, x) :: Holds(mail, id, late, x) && !Gone(encoded, rootCompleted, id)
    ensures exists id, late, y :: Holds(mail, id, late, y) && Disposes(l, y)
    ensures forall id, late, x | Holds(boxes, id, late, x) :: l.eventId != x.envelope.eventId && l.finalQueue != x.queue
  {
    var id', late', y :| id' in order && Gone(encoded, rootCompleted, id') && Holds(mail, id', late', y)
      && l == LifecycleOf(y, id', ReasonFor(encoded, rootCompleted, id'));
    assert Disposes(l, y);
    forall id, late, x | Holds(boxes, id, late, x)
      ensures l.eventId != x.envelope.eventId && l.finalQueue != x.queue
    {
      assert id != id';
      assert !SameKey(x, y);
    }
  }

  /** Sequences handed to emissions grow with their position. */
  lemma AllocatedGrows(native: seq<NativeEmission>, i: nat, j: nat)
    requires i < j <= |native|
    ensures Allocated(native[..i]) + (if native[i].ToRuntime? then 1 else 0) <= Allocated(native[..j])
    decreases j
  {
    assert native[..j][..j - 1] == native[..j - 1];
    if i < j - 1 {
      AllocatedGrows(native, i, j - 1);
    }
  }

  lemma RouteCommits(a: Aggregate, sel: Entry, boxes: map<RuntimeId, Box>, lifecycle: seq<Lifecycle>,
                     d: Dispatched, rootCompleted: bool, count: nat, r: StepResult)
    requires AggregateOk(a) && Culled(a, sel, boxes, lifecycle)
    requires FreshDispatch(a, d)
    requires count == Allocated(d.emissions)
    requires Enqueued(a.root, boxes, a.nextAcceptance, a.nextQueue, rootCompleted, lifecycle, d.emissions,
                      r.state.boxes, r.emissions, r.lifecycle)
    requires MailOk(a.root, r.state.boxes, a.nextAcceptance + count, a.nextQueue + count)
    requires r.state == a.(boxes := r.state.boxes, nextAcceptance := a.nextAcceptance + count,
                           nextQueue := a.nextQueue + count, core := r.state.core)
    requires a.rootRuntime in boxes
    ensures Commits(a, sel, r)
  {
    var b, native := r.state, d.emissions;
    forall i | 0 <= i < |native| && native[i].ToRuntime?
      ensures EmittedEntry(a.root, a.nextAcceptance, a.nextQueue, native, i).acceptance < b.nextAcceptance
      ensures EmittedEntry(a.root, a.nextAcceptance, a.nextQueue, native, i).queue < b.nextQueue
    {
      AllocatedGrows(native, i, |native|);
      assert native[..|native|] == native;
    }
    RouteEmissions(a, sel, boxes, lifecycle, d, rootCompleted, count, r);
    RouteMail(a, sel, boxes, lifecycle, d, rootCompleted, count, r);
    RouteLifecycle(a, sel, boxes, lifecycle, d, rootCompleted, count, r);
  }

  lemma RouteEmissions(a: Aggregate, sel: Entry, boxes: map<RuntimeId, Box>, lifecycle: seq<Lifecycle>,
                       d: Dispatched, rootCompleted: bool, count: nat, r: StepResult)
    requires FreshDispatch(a, d)
    requires Enqueued(a.root, boxes, a.nextAcceptance, a.nextQueue, rootCompleted, lifecycle, d.emissions,
                      r.state.boxes, r.emissions, r.lifecycle)
    ensures EmissionsOk(a, r)
  {
    var b, native, es := r.state, d.emissions, r.emissions;
    forall i | 0 <= i < |es|
      ensures RuntimeBound(es[i]) <==> native[i].ToRuntime?
      ensures RuntimeBound(es[i]) ==>
        var x := EmittedEntry(a.root, a.nextAcceptance, a.nextQueue, native, i);
        es[i].eventId == x.envelope.eventId && es[i].acceptance == x.acceptance
    {
      assert Projects(a.root, boxes, a.nextAcceptance, a.nextQueue, rootCompleted, native, r.lifecycle, i, es[i]);
    }
    forall i, j | 0 <= i < j < |es| && RuntimeBound(es[i]) && RuntimeBound(es[j])
      ensures es[i].eventId != es[j].eventId && es[i].acceptance != es[j].acceptance
    {
      AllocatedGrows(native, i, j);
    }
    forall i | 0 <= i < |es| && es[i].Mailbox?
      ensures Emitted(b, es[i])
    {
      assert Projects(a.root, boxes, a.nextAcceptance, a.nextQueue, rootCompleted, native, r.lifecycle, i, es[i]);
      var x := EmittedEntry(a.root, a.nextAcceptance, a.nextQueue, native, i);
      assert Holds(b.boxes, native[i].envelope.target, false, x);
      assert Pending(b, x) && Reports(es[i], x);
    }
    forall i | 0 <= i < |es| && es[i].Disposed?
      ensures var k := es[i].lifecycleIndex;
        k < |r.lifecycle| && r.lifecycle[k].eventId == es[i].eventId && r.lifecycle[k].acceptance == es[i].acceptance
    {
      assert Projects(a.root, boxes, a.nextAcceptance, a.nextQueue, rootCompleted, native, r.lifecycle, i, es[i]);
    }
    forall i, y | 0 <= i < |es| && RuntimeBound(es[i]) && Pending(a, y)
      ensures y.envelope.eventId != es[i].eventId
    {
      var id, late :| Holds(a.boxes, id, late, y);
    }
  }

  lemma RouteMail(a: Aggregate, sel: Entry, boxes: map<RuntimeId, Box>, lifecycle: seq<Lifecycle>,
                  d: Dispatched, rootCompleted: bool, count: nat, r: StepResult)
    requires Culled(a, sel, boxes, lifecycle)
    requires FreshDispatch(a, d)
    requires Enqueued(a.root, boxes, a.nextAcceptance, a.nextQueue, rootCompleted, lifecycle, d.emissions,
                      r.state.boxes, r.emissions, r.lifecycle)
    ensures forall x | Pending(r.state, x) :: SurvivorOf(a, sel, x) || NewMail(a, r, x)
    ensures forall y | Pending(a, y) && y != sel ::
      || (exists x :: Pending(r.state, x) && Requeued(y, x, a.nextQueue))
      || (exists l :: l in r.lifecycle && Disposes(l, y))
  {
    var b, native := r.state, d.emissions;
    forall x | Pending(b, x)
      ensures SurvivorOf(a, sel, x) || NewMail(a, r, x)
    {
      var id, late :| Holds(b.boxes, id, late, x);
      if Holds(boxes, id, late, x) {
        assert Pending(a, x) && Requeued(x, x, a.nextQueue);
      } else {
        var i :| 0 <= i < |native| && native[i].ToRuntime? && id == native[i].envelope.target
          && Deliverable(boxes, rootCompleted, id) && x == EmittedEntry(a.root, a.nextAcceptance, a.nextQueue, native, i);
        assert Projects(a.root, boxes, a.nextAcceptance, a.nextQueue, rootCompleted, native, r.lifecycle, i, r.emissions[i]);
      }
    }
    forall y | Pending(a, y) && y != sel
      ensures (exists x :: Pending(b, x) && Requeued(y, x, a.nextQueue)) || (exists l :: l in r.lifecycle && Disposes(l, y))
    {
      if id, late :| Holds(boxes, id, late, y) {
        assert Holds(b.boxes, id, late, y);
        assert Pending(b, y) && Requeued(y, y, a.nextQueue);
      } else {
        var l :| l in lifecycle && Disposes(l, y);
        assert l in r.lifecycle;
      }
    }
  }

  lemma RouteLifecycle(a: Aggregate, sel: Entry, boxes: map<RuntimeId, Box>, lifecycle: seq<Lifecycle>,
                       d: Dispatched, rootCompleted: bool, count: nat, r: StepResult)
    requires Culled(a, sel, boxes, lifecycle)
    requires FreshDispatch(a, d)
    requires Enqueued(a.root, boxes, a.nextAcceptance, a.nextQueue, rootCompleted, lifecycle, d.emissions,
                      r.state.boxes, r.emissions, r.lifecycle)
    requires r.state.nextAcceptance >= a.nextAcceptance && r.state.nextQueue >= a.nextQueue
    requires forall i | 0 <= i < |d.emissions| && d.emissions[i].ToRuntime? ::
      var x := EmittedEntry(a.root, a.nextAcceptance, a.nextQueue, d.emissions, i);
      x.acceptance < r.state.nextAcceptance && x.queue < r.state.nextQueue
    requires forall id, late, x | Holds(a.boxes, id, late, x) :: x.acceptance < a.nextAcceptance && x.queue < a.nextQueue
    ensures forall k | 0 <= k < |r.lifecycle| ::
      DisposedNew(a, r, k) || exists y :: Pending(a, y) && y != sel && Disposes(r.lifecycle[k], y)
    ensures DistinctEvents(r.lifecycle)
    ensures forall l, x | l in r.lifecycle && Pending(r.state, x) ::
      l.eventId != x.envelope.eventId && l.finalQueue != x.queue
    ensures forall l | l in r.lifecycle :: l.acceptance < r.state.nextAcceptance && l.finalQueue < r.state.nextQueue
  {
    forall k | 0 <= k < |r.lifecycle|
      ensures DisposedNew(a, r, k) || exists y :: Pending(a, y) && y != sel && Disposes(r.lifecycle[k], y)
      ensures r.lifecycle[k].acceptance < r.state.nextAcceptance && r.lifecycle[k].finalQueue < r.state.nextQueue
    {
      var i := LifecycleOrigin(a, sel, boxes, lifecycle, d, rootCompleted, r, k);
    }
    forall j, k | 0 <= j < k < |r.lifecycle|
      ensures r.lifecycle[j].eventId != r.lifecycle[k].eventId && r.lifecycle[j].finalQueue != r.lifecycle[k].finalQueue
    {
      LifecyclePair(a, sel, boxes, lifecycle, d, rootCompleted, r, j, k);
    }
    forall k, x | 0 <= k < |r.lifecycle| && Pending(r.state, x)
      ensures r.lifecycle[k].eventId != x.envelope.eventId && r.lifecycle[k].finalQueue != x.queue
    {
      LifecycleApart(a, sel, boxes, lifecycle, d, rootCompleted, r, k, x);
    }
  }

  lemma LifecyclePair(a: Aggregate, sel: Entry, boxes: map<RuntimeId, Box>, lifecycle: seq<Lifecycle>,
                      d: Dispatched, rootCompleted: bool, r: StepResult, j: nat, k: nat)
    requires Culled(a, sel, boxes, lifecycle)
    requires FreshDispatch(a, d)
    requires Enqueued(a.root, boxes, a.nextAcceptance, a.nextQueue, rootCompleted, lifecycle, d.emissions,
                      r.state.boxes, r.emissions, r.lifecycle)
    requires forall id, late, x | Holds(a.boxes, id, late, x) :: x.acceptance < a.nextAcceptance && x.queue < a.nextQueue
    requires j < k < |r.lifecycle|
    ensures r.lifecycle[j].eventId != r.lifecycle[k].eventId && r.lifecycle[j].finalQueue != r.lifecycle[k].finalQueue
  {
    var native, n := d.emissions, |lifecycle|;
    if k < n {
      assert lifecycle[j] == r.lifecycle[j] && lifecycle[k] == r.lifecycle[k];
    } else {
      var i := LifecycleOrigin(a, sel, boxes, lifecycle, d, rootCompleted, r, k);
      var i' := LifecycleOrigin(a, sel, boxes, lifecycle, d, rootCompleted, r, j);
      if n <= j {
        if i < i' { AllocatedGrows(native, i, i'); } else { AllocatedGrows(native, i', i); }
      } else {
        var y :| Pending(a, y) && y != sel && Disposes(r.lifecycle[j], y);
        var id, late :| Holds(a.boxes, id, late, y);
      }
    }
  }

  /** A lifecycle record is about old mail, or about the emission at the returned position. */
  lemma LifecycleOrigin(a: Aggregate, sel: Entry, boxes: map<RuntimeId, Box>, lifecycle: seq<Lifecycle>,
                        d: Dispatched, rootCompleted: bool, r: StepResult, k: nat)
    returns (i: int)
    requires Culled(a, sel, boxes, lifecycle)
    requires Enqueued(a.root, boxes, a.nextAcceptance, a.nextQueue, rootCompleted, lifecycle, d.emissions,
                      r.state.boxes, r.emissions, r.lifecycle)
    requires k < |r.lifecycle|
    requires forall id, late, x | Holds(a.boxes, id, late, x) :: x.acceptance < a.nextAcceptance && x.queue < a.nextQueue
    ensures k < |lifecycle| ==>
      && (exists y :: Pending(a, y) && y != sel && Disposes(r.lifecycle[k], y))
      && r.lifecycle[k].acceptance < a.nextAcceptance && r.lifecycle[k].finalQueue < a.nextQueue
    ensures |lifecycle| <= k ==>
      && AtEmission(a, d.emissions, r.lifecycle[k], i)
      && r.emissions[i].Disposed? && r.emissions[i].lifecycleIndex == k
      && DisposedNew(a, r, k)
  {
    if k < |lifecycle| {
      assert lifecycle[k] == r.lifecycle[k] && lifecycle[k] in lifecycle;
      var y :| Pending(a, y) && y != sel && Disposes(r.lifecycle[k], y);
      var id, late :| Holds(a.boxes, id, late, y);
      i := 0;
    } else {
      assert DisposedAt(r.emissions, k);
      i :| 0 <= i < |r.emissions| && r.emissions[i].Disposed? && r.emissions[i].lifecycleIndex == k;
      assert Projects(a.root, boxes, a.nextAcceptance, a.nextQueue, rootCompleted, d.emissions, r.lifecycle, i, r.emissions[i]);
    }
  }

  ghost predicate AtEmission(a: Aggregate, native: seq<NativeEmission>, l: Lifecycle, i: int) {
    && 0 <= i < |native| && native[i].ToRuntime?
    && Disposes(l, EmittedEntry(a.root, a.nextAcceptance, a.nextQueue, native, i))
  }

  lemma LifecycleApart(a: Aggregate, sel: Entry, boxes: map<RuntimeId, Box>, lifecycle: seq<Lifecycle>,
                       d: Dispatched, rootCompleted: bool, r: StepResult, k: nat, x: Entry)
    requires Culled(a, sel, boxes, lifecycle)
    requires FreshDispatch(a, d)
    requires Enqueued(a.root, boxes, a.nextAcceptance, a.nextQueue, rootCompleted, lifecycle, d.emissions,
                      r.state.boxes, r.emissions, r.lifecycle)
    requires forall id, late, y | Holds(a.boxes, id, late, y) :: y.acceptance < a.nextAcceptance && y.queue < a.nextQueue
    requires k < |r.lifecycle| && Pending(r.state, x)
    ensures r.lifecycle[k].eventId != x.envelope.eventId && r.lifecycle[k].finalQueue != x.queue
  {
    var native, l := d.emissions, r.lifecycle[k];
    var id, late :| Holds(r.state.boxes, id, late, x);
    var i := LifecycleOrigin(a, sel, boxes, lifecycle, d, rootCompleted, r, k);
    if k < |lifecycle| {
      assert lifecycle[k] == l && l in lifecycle;
      var y :| Pending(a, y) && y != sel && Disposes(l, y);
      var id', late' :| Holds(a.boxes, id', late', y);
    } else if !Holds(boxes, id, late, x) {
      assert Projects(a.root, boxes, a.nextAcceptance, a.nextQueue, rootCompleted, native, r.lifecycle, i, r.emissions[i]);
      var j :| 0 <= j < |native| && native[j].ToRuntime? && id == native[j].envelope.target
        && Deliverable(boxes, rootCompleted, id) && x == EmittedEntry(a.root, a.nextAcceptance, a.nextQueue, native, j);
      assert i != j;
      if i < j { AllocatedGrows(native, i, j); } else { AllocatedGrows(native, j, i); }
    }
  }

  lemma RecallCommits(a: Aggregate, sel: Entry, r: StepResult, id: RuntimeId, still: set<string>,
                      boxes: map<RuntimeId, Box>, nq: nat, r': StepResult)
    requires AggregateOk(a) && Commits(a, sel, r)
    requires id in r.state.boxes
    requires Recalls(r.state.boxes, id, still, r.state.nextQueue, boxes)
    requires MailOk(a.root, boxes, r.state.nextAcceptance, nq) && r.state.nextQueue <= nq
    requires NewMailReady(a, r)
    requires r' == r.(state := r.state.(boxes := boxes, nextQueue := nq))
    ensures Commits(a, sel, r')
  {
    var b, b' := r.state, r'.state;
    forall x | Pending(b', x)
      ensures exists y :: Pending(b, y) && Requeued(y, x, b.nextQueue) && (x != y ==> !NewMail(a, r, y))
    {
      var k, late :| Holds(boxes, k, late, x);
      if Holds(b.boxes, k, late, x) {
        assert Pending(b, x) && Requeued(x, x, b.nextQueue);
      } else {
        var y :| Holds(b.boxes, id, true, y) && y.envelope.event !in still && Requeued(y, x, b.nextQueue);
        assert Pending(b, y);
      }
    }
    forall y | Pending(b, y)
      ensures exists x :: Pending(b', x) && Requeued(y, x, b.nextQueue) && (x != y ==> !NewMail(a, r, y))
    {
      var k, late :| Holds(b.boxes, k, late, y);
      if Holds(boxes, k, late, y) {
        assert Pending(b', y) && Requeued(y, y, b.nextQueue);
      } else {
        var x :| Holds(boxes, id, false, x) && Requeued(y, x, b.nextQueue);
        assert Pending(b', x);
      }
    }
    RecallRest(a, sel, r, r');
  }

  /** The step's own emissions wait in ready mailboxes, so recall never moves them. */
  ghost predicate NewMailReady(a: Aggregate, r: StepResult) {
    forall k, y | Holds(r.state.boxes, k, true, y) :: !NewMail(a, r, y)
  }

  lemma RecallRest(a: Aggregate, sel: Entry, r: StepResult, r': StepResult)
    requires AggregateOk(a) && Commits(a, sel, r)
    requires AggregateOk(r'.state)
    requires r' == r.(state := r.state.(boxes := r'.state.boxes, nextQueue := r'.state.nextQueue))
    requires r.state.nextQueue <= r'.state.nextQueue
    requires forall x | Pending(r'.state, x) ::
      exists y :: Pending(r.state, y) && Requeued(y, x, r.state.nextQueue) && (x != y ==> !NewMail(a, r, y))
    requires forall y | Pending(r.state, y) ::
      exists x :: Pending(r'.state, x) && Requeued(y, x, r.state.nextQueue) && (x != y ==> !NewMail(a, r, y))
    ensures Commits(a, sel, r')
  {
    var b, b' := r.state, r'.state;
    forall x | Pending(b', x)
      ensures SurvivorOf(a, sel, x) || NewMail(a, r', x)
      ensures forall l | l in r.lifecycle :: l.eventId != x.envelope.eventId && l.finalQueue != x.queue
    {
      var y :| Pending(b, y) && Requeued(y, x, b.nextQueue) && (x != y ==> !NewMail(a, r, y));
      if SurvivorOf(a, sel, y) {
        var z :| Pending(a, z) && z != sel && Requeued(z, y, a.nextQueue);
        assert Requeued(z, x, a.nextQueue);
      } else {
        assert NewMail(a, r, y) && x == y;
      }
    }
    forall y | Pending(a, y) && y != sel
      ensures (exists x :: Pending(b', x) && Requeued(y, x, a.nextQueue)) || (exists l :: l in r'.lifecycle && Disposes(l, y))
    {
      if z :| Pending(b, z) && Requeued(y, z, a.nextQueue) {
        var x :| Pending(b', x) && Requeued(z, x, b.nextQueue) && (x != z ==> !NewMail(a, r, z));
        assert Requeued(y, x, a.nextQueue);
      }
    }
    forall k | 0 <= k < |r'.lifecycle|
      ensures DisposedNew(a, r', k) || exists y :: Pending(a, y) && y != sel && Disposes(r'.lifecycle[k], y)
    {
      assert DisposedNew(a, r, k) || exists y :: Pending(a, y) && y != sel && Disposes(r.lifecycle[k], y);
    }
    forall i | 0 <= i < |r.emissions| && r.emissions[i].Mailbox?
      ensures Emitted(b', r.emissions[i])
    {
      EmittedStays(a, sel, r, r', i);
    }
  }

  lemma EmittedStays(a: Aggregate, sel: Entry, r: StepResult, r': StepResult, i: nat)
    requires AggregateOk(a) && Commits(a, sel, r)
    requires forall y | Pending(r.state, y) ::
      exists x :: Pending(r'.state, x) && Requeued(y, x, r.state.nextQueue) && (x != y ==> !NewMail(a, r, y))
    requires i < |r.emissions| && r.emissions[i].Mailbox?
    ensures Emitted(r'.state, r.emissions[i])
  {
    var y :| Pending(r.state, y) && Reports(r.emissions[i], y);
    assert RuntimeBound(r.emissions[i]);
    assert forall z | Pending(a, z) :: z.envelope.eventId != y.envelope.eventId;
    assert NewMail(a, r, y);
    var x :| Pending(r'.state, x) && Requeued(y, x, r.state.nextQueue) && (x != y ==> !NewMail(a, r, y));
  }

  /** `step_aggregate_v1`: at most the selected runtime's ready head is processed. `decide` is
      the engine's dispatch of it and `overflow` its fault when the deferred mailbox is full. */
  method StepAggregate(a: Aggregate, target: RuntimeId, still: set<string>, capacity: Option<nat>,
                       order: seq<RuntimeId>, decide: Dispatched, overflow: Dispatched)
    returns (r: StepResult)
    requires AggregateOk(a)
    requires Permutes(order, a.boxes.Keys)
    requires decide.disposition != NotRunnable
    requires FreshDispatch(a, decide)
    requires FreshDispatch(a, overflow) && overflow.after.Keys == a.boxes.Keys
    ensures r.disposition == Rejected <==>
      !Runnable(a, target) || (a.boxes[target].ready != [] && decide.disposition == Rejected)
    ensures r.disposition == NotRunnable <==> Runnable(a, target) && a.boxes[target].ready == []
    ensures r.disposition in {Rejected, NotRunnable} ==> r.state == a && r.emissions == [] && r.lifecycle == []
    ensures r.disposition == Deferred <==>
      && Runnable(a, target) && a.boxes[target].ready != [] && decide.disposition == Deferred
      && (capacity == None || |a.boxes[target].deferred| < capacity.value)
    ensures r.disposition == Deferred ==>
      Defers(a, target, r.state) && AggregateOk(r.state) && r.emissions == [] && r.lifecycle == []
    ensures r.disposition in {Handled, Unhandled, FaultedStep} ==>
      && Runnable(a, target) && a.boxes[target].ready != []
      && Commits(a, a.boxes[target].ready[0], r)
      && SameIds((if decide.disposition == Deferred then overflow else decide).emissions, r.emissions)
  {
    hide Commits, Culled, Collected, Emptied, FreshEmissions, SameIds, NewMailReady, Recalls, Unique, Bounded;
    if target !in a.boxes || a.boxes[a.rootRuntime].status != Running || a.boxes[target].status != Running {
      return StepResult(Rejected, a, [], []);
    }
    if a.boxes[target].ready == [] {
      return StepResult(NotRunnable, a, [], []);
    }
    var selected := a.boxes[target].ready[0];
    if decide.disposition == Rejected {
      return StepResult(Rejected, a, [], []);
    }
    var ready, deferred := a.boxes[target].ready[1..], a.boxes[target].deferred;
    if decide.disposition == Deferred {
      if capacity.Some? && |deferred| >= capacity.value {
        var mail := a.boxes[target := a.boxes[target].(ready := ready)];
        CullKept(a, target, mail, overflow.after);
        r := RouteStep(a, selected, EncodeAfter(mail, overflow.after), [], overflow, FaultedStep);
        return;
      }
      var moved := selected.(queue := a.nextQueue, deferrals := selected.deferrals + 1);
      var boxes := a.boxes[target := a.boxes[target].(ready := ready, deferred := deferred + [moved])];
      DeferOk(a, target, boxes);
      r := StepResult(Deferred, a.(boxes := boxes, nextQueue := a.nextQueue + 1), [], []);
      return;
    }
    r := CommitDispatch(a, target, still, order, decide);
  }

  /** The committed half of a step: disposal, routing, and recall after a handled event. */
  method CommitDispatch(a: Aggregate, target: RuntimeId, still: set<string>, order: seq<RuntimeId>, decide: Dispatched)
    returns (r: StepResult)
    requires AggregateOk(a) && Permutes(order, a.boxes.Keys) && FreshDispatch(a, decide)
    requires target in a.boxes && a.boxes[target].ready != []
    ensures r.disposition == decide.disposition
    ensures Commits(a, a.boxes[target].ready[0], r) && SameIds(decide.emissions, r.emissions)
  {
    hide Commits, Culled, Collected, FreshEmissions, SameIds, NewMailReady, Recalls, Unique, Bounded, Holds;
    var selected := a.boxes[target].ready[0];
    var mail := a.boxes[target := a.boxes[target].(ready := a.boxes[target].ready[1..])];
    var encoded := EncodeAfter(mail, decide.after);
    var rootCompleted := decide.after[a.rootRuntime] == Completed;
    PopOk(a, target, mail);
    var boxes, lifecycle := DisposeMail(mail, encoded, order, rootCompleted);
    CullDisposed(a, target, mail, decide.after, order, rootCompleted, boxes, lifecycle);
    r := RouteStep(a, selected, boxes, lifecycle, decide, decide.disposition);
    if decide.disposition == Handled && target in decide.after && decide.after[target] == Running {
      ghost var routed := r;
      var recalled, nextQueue := RecallDeferred(a.root, r.state.boxes, r.state.nextAcceptance, r.state.nextQueue, target, still);
      r := r.(state := r.state.(boxes := recalled, nextQueue := nextQueue));
      RecallCommits(a, selected, routed, target, still, recalled, nextQueue, r);
    }
  }

  lemma DeferOk(a: Aggregate, target: RuntimeId, boxes: map<RuntimeId, Box>)
    requires AggregateOk(a) && target in a.boxes && a.boxes[target].ready != []
    requires
      var sel := a.boxes[target].ready[0];
      boxes == a.boxes[target := a.boxes[target].(
        ready := a.boxes[target].ready[1..],
        deferred := a.boxes[target].deferred + [sel.(queue := a.nextQueue, deferrals := sel.deferrals + 1)])]
    ensures MailOk(a.root, boxes, a.nextAcceptance, a.nextQueue + 1)
  {
    var sel := a.boxes[target].ready[0];
    var moved := sel.(queue := a.nextQueue, deferrals := sel.deferrals + 1);
    var mail := a.boxes[target := a.boxes[target].(ready := a.boxes[target].ready[1..])];
    PopOk(a, target, mail);
    assert Holds(a.boxes, target, false, sel);
    assert forall id, late, x :: Holds(boxes, id, late, x) <==>
      Holds(mail, id, late, x) || (id == target && late && x == moved);
    forall id, late, x | Holds(mail, id, late, x)
      ensures !SameKey(x, moved)
    {
      assert Holds(a.boxes, id, late, x) && x != sel;
      assert !SameKey(x, sel);
    }
    forall k | k in boxes
      ensures Ascending(boxes[k].ready) && Ascending(boxes[k].deferred)
    {
      if k == target {
        forall j | 0 <= j < |a.boxes[target].deferred| ensures a.boxes[target].deferred[j].queue < moved.queue {
          assert Holds(a.boxes, target, true, a.boxes[target].deferred[j]);
        }
      }
    }
  }

  /** Routes the step's emissions over mail that has already been culled. */
  method RouteStep(a: Aggregate, sel: Entry, boxes: map<RuntimeId, Box>, lifecycle: seq<Lifecycle>,
                   d: Dispatched, disposition: Disposition)
    returns (r: StepResult)
    requires AggregateOk(a) && Culled(a, sel, boxes, lifecycle)
    requires FreshDispatch(a, d) && boxes.Keys == d.after.Keys
    requires forall id | id in boxes :: boxes[id].status == d.after[id]
    ensures r.disposition == disposition && r.state.boxes.Keys == d.after.Keys
    ensures Commits(a, sel, r) && NewMailReady(a, r) && SameIds(d.emissions, r.emissions)
    ensures AggregateOk(r.state) && r.state.root == a.root
  {
    var rootCompleted := boxes[a.rootRuntime].status == Completed;
    CulledFresh(a, sel, boxes, lifecycle, d);
    var boxes', emissions, lifecycle', count :=
      EnqueueEmissions(a.root, boxes, a.nextAcceptance, a.nextQueue, rootCompleted, lifecycle, d.emissions);
    r := StepResult(disposition,
      a.(boxes := boxes', nextAcceptance := a.nextAcceptance + count, nextQueue := a.nextQueue + count, core := d.core),
      emissions, lifecycle');
    RouteCommits(a, sel, boxes, lifecycle, d, rootCompleted, count, r);
    forall i | 0 <= i < |d.emissions|
      ensures Projects(a.root, boxes, a.nextAcceptance, a.nextQueue, rootCompleted, d.emissions, lifecycle', i, emissions[i])
    {}
  }

  lemma CulledFresh(a: Aggregate, sel: Entry, boxes: map<RuntimeId, Box>, lifecycle: seq<Lifecycle>, d: Dispatched)
    requires Culled(a, sel, boxes, lifecycle) && FreshDispatch(a, d)
    ensures FreshEmissions(boxes, lifecycle, d.emissions)
  {
    forall i, l | 0 <= i < |d.emissions| && d.emissions[i].ToRuntime? && l in lifecycle
      ensures l.eventId != d.emissions[i].envelope.eventId
    {
      var y :| Pending(a, y) && y != sel && Disposes(l, y);
      var id, late :| Holds(a.boxes, id, late, y);
    }
  }
}
