/** The durable operations on one root's checkpoint (`checkpoint_v1.py` and the outbox and
    tombstone operations of `host.py`). Every operation is a compare-and-swap on the stored
    document: it replaces the document by the next one or leaves it exactly as it was. */
module CheckpointHost {
  import opened Options
  import opened Queueing
  import opened CheckpointV1
  import opened CheckpointSettlement
  import opened CheckpointStep
  import opened CheckpointAdmission
  import opened CheckpointPrune
  import opened CheckpointOutbox
  import opened CheckpointRoot
  import opened CheckpointLoops

  /** What the caller believes is stored. */
  datatype Expected = Expected(revision: nat, digest: CheckpointDigest)

  datatype Failure =
    | MalformedDelivery | DuplicateEventIdInBatch | EventIdConflict | TombstonedRootFailure | TerminalRoot
    | CheckpointRevisionConflict | InvalidDelivery | InvalidCheckpoint | OperationIdConflict | EffectIdConflict

  datatype Member = Replayed(evidence: Evidence) | AcceptedAs(acceptance: nat, queue: nat)

  datatype AdmitOutcome = AdmitFailed(code: Failure) | AllReplayed(members: seq<Member>) | Admitted(members: seq<Member>)

  datatype StepOutcome = StepFailed(code: Failure) | NotCommitted(disposition: Disposition) | StepCommitted(disposition: Disposition)

  datatype Outcome = Failed(code: Failure) | AlreadyDone | Committed

  predicate Matches(d: Checkpoint, x: Expected) {
    x.revision == d.revision && x.digest == CheckpointDigest(d)
  }

  // ---------------------------------------------------------------- batches

  predicate DistinctIds(ds: seq<Delivery>) {
    forall i, j | 0 <= i < j < |ds| :: ds[i].envelope.eventId != ds[j].envelope.eventId
  }

  function Requested(d: Checkpoint, x: Delivery): EntryDigest {
    EntryDigest(d.rootInstance, x.mode, x.envelope)
  }

  ghost predicate Conflicting(d: Checkpoint, x: Delivery) {
    exists g :: g != Requested(d, x) && Known(d, x.envelope.eventId, g)
  }

  /** What the lookup of one delivery found. */
  ghost predicate Found(d: Checkpoint, x: Delivery, l: Lookup) {
    && !l.Conflicts?
    && (l.Missing? <==> Unknown(d, x.envelope.eventId))
    && (l.Replays? <==> Known(d, x.envelope.eventId, Requested(d, x)))
    && (l.Replays? ==> Evidences(d, x.envelope.eventId, l.evidence))
  }

  /** A member's answer: evidence of an earlier acceptance, or the sequences of its place among
      the new deliveries. */
  ghost predicate MemberAmong(d: Checkpoint, news: seq<Delivery>, x: Delivery, m: Member)
    requires d.root.Retained?
  {
    match m
    case Replayed(evidence) => Evidences(d, x.envelope.eventId, evidence)
    case AcceptedAs(acceptance, queue) =>
      var i := acceptance - d.root.aggregate.nextAcceptance;
      0 <= i < |news| && news[i] == x && queue == d.root.aggregate.nextQueue + i && Unknown(d, x.envelope.eventId)
  }

  /** An accepted member's answer names the sequences under which its event now waits. */
  ghost predicate MemberOk(d: Checkpoint, d': Checkpoint, x: Delivery, m: Member) {
    match m
    case Replayed(evidence) => Evidences(d, x.envelope.eventId, evidence)
    case AcceptedAs(acceptance, queue) =>
      && Unknown(d, x.envelope.eventId)
      && exists y :: Waits(d', y) && y.envelope == x.envelope && y.acceptance == acceptance && y.queue == queue
  }

  /** The deliveries of a batch that the document has no evidence of, in order. */
  ghost function NewsOf(d: Checkpoint, ds: seq<Delivery>): seq<Delivery> {
    if ds == [] then []
    else NewsOf(d, ds[..|ds| - 1]) + if Unknown(d, ds[|ds| - 1].envelope.eventId) then [ds[|ds| - 1]] else []
  }

  lemma {:induction false} NewsExact(d: Checkpoint, ds: seq<Delivery>)
    ensures forall x | x in NewsOf(d, ds) :: x in ds && Unknown(d, x.envelope.eventId)
    ensures forall x | x in ds && Unknown(d, x.envelope.eventId) :: x in NewsOf(d, ds)
    ensures DistinctIds(ds) ==> DistinctIds(NewsOf(d, ds))
  {
    if ds != [] {
      var front, last := ds[..|ds| - 1], ds[|ds| - 1];
      assert ds == front + [last];
      NewsExact(d, front);
      if DistinctIds(ds) {
        forall i | 0 <= i < |NewsOf(d, front)|
          ensures NewsOf(d, front)[i].envelope.eventId != last.envelope.eventId
        {
          assert NewsOf(d, front)[i] in front;
          var j :| 0 <= j < |front| && front[j] == NewsOf(d, front)[i];
          assert ds[j] == front[j];
        }
      }
    }
  }

  lemma NewsFresh(d: Checkpoint, ds: seq<Delivery>)
    requires d.root.Retained? && DistinctIds(ds)
    ensures FreshIds(d.root.aggregate, NewsOf(d, ds))
    ensures forall i | 0 <= i < |NewsOf(d, ds)| :: Unknown(d, NewsOf(d, ds)[i].envelope.eventId)
  {
    var news := NewsOf(d, ds);
    NewsExact(d, ds);
    forall i | 0 <= i < |news|
      ensures Unknown(d, news[i].envelope.eventId)
      ensures forall x | Pending(d.root.aggregate, x) :: x.envelope.eventId != news[i].envelope.eventId
    {
      assert news[i] in news;
      assert forall x | Pending(d.root.aggregate, x) :: Waits(d, x);
    }
  }

  /** What one dispatch may emit into a document: identities it has never mentioned. */
  ghost predicate FreshFor(d: Checkpoint, x: Dispatched) {
    && (forall i | 0 <= i < |x.emissions| && x.emissions[i].ToRuntime? ::
          x.emissions[i].envelope.source != Host && !Mentions(d, x.emissions[i].envelope.eventId))
    && (forall i, j | 0 <= i < j < |x.emissions| && x.emissions[i].ToRuntime? && x.emissions[j].ToRuntime? ::
          x.emissions[i].envelope.eventId != x.emissions[j].envelope.eventId)
    && (forall i | 0 <= i < |x.emissions| && x.emissions[i].External? :: !EffectReferenced(d, x.emissions[i].effectId))
    && (forall i, j | 0 <= i < j < |x.emissions| && x.emissions[i].External? && x.emissions[j].External? ::
          x.emissions[i].effectId != x.emissions[j].effectId)
  }

  lemma FreshForMail(d: Checkpoint, x: Dispatched)
    requires d.root.Retained? && FreshFor(d, x)
    ensures FreshEmissions(d.root.aggregate.boxes, [], x.emissions)
  {
    forall i, id, late, y | 0 <= i < |x.emissions| && x.emissions[i].ToRuntime?
        && Holds(d.root.aggregate.boxes, id, late, y)
      ensures y.envelope.eventId != x.emissions[i].envelope.eventId
    {
      assert Pending(d.root.aggregate, y) && Waits(d, y) && WaitsFor(d, y.envelope.eventId);
    }
  }

  lemma FreshForIds(d: Checkpoint, x: Dispatched, es: seq<Emission>)
    requires FreshFor(d, x) && SameIds(x.emissions, es)
    ensures NewIds(d, es)
  {
    hide Mentions, EffectReferenced;
    forall i | 0 <= i < |es|
      ensures RuntimeBound(es[i]) ==> x.emissions[i].ToRuntime? && es[i].eventId == x.emissions[i].envelope.eventId
      ensures es[i].Outbox? ==> x.emissions[i].External? && es[i].effectId == x.emissions[i].effectId
    {}
  }

  // ---------------------------------------------------------------- the host

  class CheckpointStore {
    var document: Checkpoint

    /** `create_checkpoint_v1`: the initialization emissions routed over empty mailboxes. */
    constructor Create(a: Aggregate, initial: Dispatched)
      requires Initial(a, initial)
      ensures Stored(document)
      ensures exists nobody, r :: Creates(a, nobody, r) && SameIds(initial.emissions, r.emissions) && document == CreatedDocument(r)
    {
      hide Stored, Creates, CreatedDocument, SameIds;
      var r := RouteCreation(a, initial);
      var references, outbox := ProjectEmissions(r.emissions, 0, 0);
      var digest := AggregateDigest(r.state);
      var receipts := CreationReceipts(r, references);
      document := Checkpoint(r.state.root, 0, Retained(r.state), Permanent, None, 1 + |r.lifecycle|,
                             receipts, [], outbox, 0, [], []);
      CreatedStored(a, Nobody(a), r);
      CreatedFields(r);
    }

    /** `admit_checkpoint_v1`. `ValidDelivery` stands for the validation of new deliveries. */
    method Admit(ds: seq<Delivery>, expected: Expected) returns (outcome: AdmitOutcome)
      requires Stored(document)
      modifies this
      ensures AdmissionAnswer(old(document), ds, expected, outcome, document)
    {
      hide Stored, Conflicting, Known, Unknown, Evidences, AdmittedDocument, AggregateOk, Admits, FreshIds, ValidDelivery;
      var preflight := PreflightAdmission(document, ds, expected);
      match preflight {
        case Refused(code) =>
          return AdmitFailed(code);
        case AllKnown(evidence) =>
          var members := ReplayMembers(evidence);
          forall i | 0 <= i < |ds| ensures MemberOk(document, document, ds[i], members[i]) {
            assert Found(document, ds[i], evidence[i]);
          }
          return AllReplayed(members);
        case New(evidence, news) =>
          var b := AdmitAggregate(document.root.aggregate, news);
          var d', members := AppendAcceptances(document, ds, evidence, news, b);
          document := d';
          return Admitted(members);
      }
    }

    /** `step_checkpoint_v1`. `decide` is the engine's dispatch of the ready head, `overflow` its
        fault when the deferred mailbox is full. */
    method Step(target: RuntimeId, still: set<string>, capacity: Option<nat>, order: seq<RuntimeId>,
                decide: Dispatched, overflow: Dispatched, expected: Expected)
      returns (outcome: StepOutcome)
      requires Stored(document)
      requires document.root.Retained? ==> Dispatchable(document, order, decide, overflow)
      modifies this
      ensures Stored(document)
      ensures outcome == StepFailed(CheckpointRevisionConflict) <==> !Matches(old(document), expected)
      ensures outcome == StepFailed(TombstonedRootFailure) <==>
        Matches(old(document), expected) && old(document).root.TombstonedRoot?
      ensures !outcome.StepCommitted? ==> document == old(document)
      ensures outcome.StepCommitted? ==>
        StepsTo(old(document), target, capacity, decide, outcome.disposition, document)
    {
      hide Stored, Dispatchable, StepsTo;
      if expected.revision != document.revision || expected.digest != CheckpointDigest(document) {
        return StepFailed(CheckpointRevisionConflict);
      }
      if document.root.TombstonedRoot? { return StepFailed(TombstonedRootFailure); }
      var a := document.root.aggregate;
      if target in a.boxes && a.boxes[target].ready == [] { return NotCommitted(NotRunnable); }
      StoredAggregate(document);
      var d': Checkpoint;
      outcome, d' := StepRetained(document, target, still, capacity, order, decide, overflow);
      document := d';
    }

    /** `tombstone_root_v1`. */
    method TombstoneRoot(operation: string, order: seq<RuntimeId>, expected: Expected) returns (outcome: Outcome)
      requires Stored(document)
      requires document.root.Retained? ==> Permutes(order, document.root.aggregate.boxes.Keys)
      modifies this
      ensures Stored(document)
      ensures outcome != Committed ==> document == old(document)
      ensures operation != "" ==>
        (outcome == AlreadyDone <==> old(document).root.TombstonedRoot? && old(document).root.operationId == operation)
      ensures operation != "" ==>
        (outcome == Failed(OperationIdConflict) <==> old(document).root.TombstonedRoot? && old(document).root.operationId != operation)
      ensures outcome == Committed <==>
        && operation != "" && old(document).root.Retained? && Matches(old(document), expected)
        && !RootRunning(old(document).root.aggregate) && old(document).pendingOutbox == []
      ensures outcome == Committed ==>
        && document.root == TombstoneRecord(old(document).root.aggregate, operation)
        && TombstonesTo(old(document), operation, document)
    {
      hide Stored, AggregateOk, Permutes, Lists, TombstonedDocument;
      if operation == "" { return Failed(InvalidCheckpoint); }
      if document.root.TombstonedRoot? {
        return if document.root.operationId == operation then AlreadyDone else Failed(OperationIdConflict);
      }
      if expected.revision != document.revision || expected.digest != CheckpointDigest(document) {
        return Failed(CheckpointRevisionConflict);
      }
      var a := document.root.aggregate;
      StoredAggregate(document);
      if a.boxes[a.rootRuntime].status == Running || document.pendingOutbox != [] {
        return Failed(InvalidCheckpoint);
      }
      var entries := ListEntries(a, order);
      document := CommitTombstone(document, entries, operation);
      return Committed;
    }

    /** `prune_checkpoint_v1`; `bounded` says that the selected retention mode is bounded. */
    method Prune(cutoff: nat, bounded: bool, policy: Option<string>, expected: Expected) returns (outcome: Outcome)
      requires Stored(document)
      modifies this
      ensures outcome != Committed ==> document == old(document)
      ensures outcome == AlreadyDone <==> bounded && SelectedPolicy(old(document), policy) != "" && old(document).cutoff == Some(cutoff)
      ensures outcome == Committed <==>
        && bounded && SelectedPolicy(old(document), policy) != ""
        && Accepts(old(document), cutoff) && Matches(old(document), expected) && Prunable(old(document), cutoff)
      ensures outcome == Committed ==>
        && document == PrunedDocument(old(document), cutoff, SelectedPolicy(old(document), policy))
        && (Stored(document) <==> !DropsEffect(old(document), cutoff))
    {
      var selected := SelectedPolicy(document, policy);
      if !bounded || selected == "" { return Failed(InvalidCheckpoint); }
      if document.cutoff == Some(cutoff) { return AlreadyDone; }
      if (document.cutoff.Some? && cutoff < document.cutoff.value) || cutoff >= document.nextReceipt {
        return Failed(InvalidCheckpoint);
      }
      if expected.revision != document.revision || expected.digest != CheckpointDigest(document) {
        return Failed(CheckpointRevisionConflict);
      }
      var closed := DependencyClosed(document, cutoff);
      if !closed { return Failed(InvalidCheckpoint); }
      var stranded := StrandsAcceptance(document, cutoff);
      if stranded { return Failed(InvalidCheckpoint); }
      var retained, tombstones := SplitReceipts(document, cutoff);
      PruneStored(document, cutoff, selected);
      document := document.(revision := document.revision + 1, retention := Bounded(selected), cutoff := Some(cutoff),
                            receipts := retained, tombstones := tombstones);
      return Committed;
    }

    /** `update_pending_outbox`. */
    method UpdatePendingOutbox(effect: string, delivery: string, expected: Expected) returns (outcome: Outcome)
      requires Stored(document)
      modifies this
      ensures Stored(document)
      ensures outcome != Committed ==> document == old(document)
      ensures outcome == Failed(EffectIdConflict) <==> forall i :: !PendingEffect(old(document), i, effect)
      ensures outcome == Committed ==> Matches(old(document), expected)
      ensures outcome == Committed ==> UpdatesTo(old(document), effect, delivery, document)
      ensures outcome == AlreadyDone ==>
        exists i :: PendingEffect(old(document), i, effect) && old(document).pendingOutbox[i].delivery == delivery
    {
      hide Stored;
      var i := FindPendingEffect(document, effect);
      if i < 0 { return Failed(EffectIdConflict); }
      if document.pendingOutbox[i].delivery == delivery { return AlreadyDone; }
      if expected.revision != document.revision || expected.digest != CheckpointDigest(document) {
        return Failed(CheckpointRevisionConflict);
      }
      UpdateStored(document, i, delivery);
      document := document.(
        revision := document.revision + 1,
        pendingOutbox := document.pendingOutbox[i := PendingIntent(document.pendingOutbox[i].effectId, document.revision + 1, delivery)]);
      return Committed;
    }

    /** `terminalize_outbox`. */
    method TerminalizeOutbox(effect: string, result: string, expected: Expected) returns (outcome: Outcome)
      requires Stored(document)
      modifies this
      ensures Stored(document)
      ensures outcome != Committed ==> document == old(document)
      ensures outcome == AlreadyDone <==> EndedWith(old(document), effect, result)
      ensures outcome == Committed <==> (exists i :: PendingEffect(old(document), i, effect)) && Matches(old(document), expected)
      ensures outcome == Committed ==> TerminalizesTo(old(document), effect, result, document)
      ensures outcome == Committed ==> EndedWith(document, effect, result)
    {
      hide Stored;
      var j := FindTerminalEffect(document, effect);
      if 0 <= j {
        EffectsOnce(document, effect);
        return if document.terminalOutbox[j].outcome == result then AlreadyDone else Failed(EffectIdConflict);
      }
      j := FindBuriedEffect(document, effect);
      if 0 <= j {
        EffectsOnce(document, effect);
        return if document.outboxTombstones[j].outcome == result then AlreadyDone else Failed(EffectIdConflict);
      }
      var i := FindPendingEffect(document, effect);
      if i < 0 { return Failed(EffectIdConflict); }
      if expected.revision != document.revision || expected.digest != CheckpointDigest(document) {
        return Failed(CheckpointRevisionConflict);
      }
      TerminalizeStored(document, i, result);
      document := document.(
        revision := document.revision + 1, nextTerminal := document.nextTerminal + 1,
        pendingOutbox := document.pendingOutbox[..i] + document.pendingOutbox[i + 1..],
        terminalOutbox := document.terminalOutbox
          + [TerminalIntent(document.nextTerminal, effect, document.revision + 1, result)]);
      assert TerminalEffect(document, |document.terminalOutbox| - 1, effect);
      return Committed;
    }

    /** `compact_outbox` on a store that does not keep terminal records forever. */
    method CompactOutbox(effect: string, expected: Expected) returns (outcome: Outcome)
      requires Stored(document)
      modifies this
      ensures Stored(document)
      ensures outcome != Committed ==> document == old(document)
      ensures outcome == AlreadyDone <==> exists i :: BuriedEffect(old(document), i, effect)
      ensures outcome == Committed <==> (exists i :: TerminalEffect(old(document), i, effect)) && Matches(old(document), expected)
      ensures outcome == Committed ==> CompactsTo(old(document), effect, document)
    {
      hide Stored;
      var j := FindBuriedEffect(document, effect);
      if 0 <= j {
        EffectsOnce(document, effect);
        return AlreadyDone;
      }
      var i := FindTerminalEffect(document, effect);
      if i < 0 { return Failed(EffectIdConflict); }
      if expected.revision != document.revision || expected.digest != CheckpointDigest(document) {
        return Failed(CheckpointRevisionConflict);
      }
      CompactStored(document, i);
      document := document.(
        revision := document.revision + 1,
        terminalOutbox := document.terminalOutbox[..i] + document.terminalOutbox[i + 1..],
        outboxTombstones := Inserted(document.outboxTombstones, document.terminalOutbox[i]));
      return Committed;
    }
  }

  // ---------------------------------------------------------------- admission

  /** Everything `admit_checkpoint_v1` promises about its answer and the next document. */
  ghost predicate AdmissionAnswer(d: Checkpoint, ds: seq<Delivery>, expected: Expected, outcome: AdmitOutcome, d': Checkpoint) {
    && (outcome == AdmitFailed(MalformedDelivery) <==> ds == [])
    && (outcome == AdmitFailed(DuplicateEventIdInBatch) <==> ds != [] && !DistinctIds(ds))
    && (outcome == AdmitFailed(EventIdConflict) <==> ds != [] && DistinctIds(ds) && exists x :: x in ds && Conflicting(d, x))
    && (outcome.AllReplayed? <==>
          ds != [] && DistinctIds(ds) && forall x | x in ds :: Known(d, x.envelope.eventId, Requested(d, x)))
    && (!outcome.Admitted? ==> d' == d)
    && (outcome.Admitted? ==> Matches(d, expected) && d.root.Retained? && RootRunning(d.root.aggregate) && AdmitsBatch(d, ds, d'))
    && (outcome.Admitted? ==> (Stored(d') <==> HostOnly(d, ds)))
    && (outcome.AllReplayed? ==> MembersOk(d, d', ds, outcome.members))
    && (outcome.Admitted? ==> MembersOk(d, d', ds, outcome.members))
  }

  /** The new deliveries of the batch, and no others, join the document. */
  ghost predicate AdmitsBatch(d: Checkpoint, ds: seq<Delivery>, d': Checkpoint) {
    exists b :: Admissible(d, NewsOf(d, ds), b) && d' == AdmittedDocument(d, NewsOf(d, ds), b)
  }

  ghost predicate HostOnly(d: Checkpoint, ds: seq<Delivery>) {
    forall x | x in ds && Unknown(d, x.envelope.eventId) :: x.envelope.source == Host
  }

  ghost predicate MembersOk(d: Checkpoint, d': Checkpoint, ds: seq<Delivery>, members: seq<Member>) {
    |members| == |ds| && forall i | 0 <= i < |ds| :: MemberOk(d, d', ds[i], members[i])
  }

  datatype Preflight = Refused(code: Failure) | AllKnown(evidence: seq<Lookup>) | New(evidence: seq<Lookup>, news: seq<Delivery>)

  ghost predicate AllFound(d: Checkpoint, ds: seq<Delivery>, evidence: seq<Lookup>) {
    |evidence| == |ds| && forall j | 0 <= j < |ds| :: Found(d, ds[j], evidence[j])
  }

  /** The batch is well formed, conflicts with nothing, and has a delivery that is not a replay. */
  ghost predicate AnyNew(d: Checkpoint, ds: seq<Delivery>) {
    && ds != [] && DistinctIds(ds) && (forall x | x in ds :: !Conflicting(d, x))
    && exists x :: x in ds && !Known(d, x.envelope.eventId, Requested(d, x))
  }

  /** `_preflight_checkpoint_admission`: replay evidence first, then the state of the root, then
      the compare-and-swap, then the validation of the new deliveries. */
  method PreflightAdmission(d: Checkpoint, ds: seq<Delivery>, expected: Expected) returns (p: Preflight)
    requires Stored(d)
    ensures p == Refused(MalformedDelivery) <==> ds == []
    ensures p == Refused(DuplicateEventIdInBatch) <==> ds != [] && !DistinctIds(ds)
    ensures p == Refused(EventIdConflict) <==> ds != [] && DistinctIds(ds) && exists x :: x in ds && Conflicting(d, x)
    ensures p.AllKnown? <==>
      ds != [] && DistinctIds(ds) && forall x | x in ds :: Known(d, x.envelope.eventId, Requested(d, x))
    ensures p.AllKnown? ==> AllFound(d, ds, p.evidence) && forall j | 0 <= j < |ds| :: p.evidence[j].Replays?
    ensures p.New? ==>
      && AllFound(d, ds, p.evidence) && p.news == NewsOf(d, ds) && Matches(d, expected)
      && d.root.Retained? && AggregateOk(d.root.aggregate) && RootRunning(d.root.aggregate)
      && FreshIds(d.root.aggregate, p.news)
      && (forall i | 0 <= i < |p.news| :: ValidDelivery(d.root.aggregate, p.news[i]) && Unknown(d, p.news[i].envelope.eventId))
    ensures p == Refused(TombstonedRootFailure) <==> AnyNew(d, ds) && d.root.TombstonedRoot?
    ensures p == Refused(TerminalRoot) <==> AnyNew(d, ds) && d.root.Retained? && !RootRunning(d.root.aggregate)
    ensures p == Refused(CheckpointRevisionConflict) <==>
      AnyNew(d, ds) && d.root.Retained? && RootRunning(d.root.aggregate) && !Matches(d, expected)
    ensures p.New? <==>
      && AnyNew(d, ds) && d.root.Retained? && RootRunning(d.root.aggregate) && Matches(d, expected)
      && forall i | 0 <= i < |NewsOf(d, ds)| :: ValidDelivery(d.root.aggregate, NewsOf(d, ds)[i])
  {
    hide Stored, Unknown, Known, Evidences, AggregateOk, ValidDelivery, FreshIds, Found, Conflicting;
    if ds == [] { return Refused(MalformedDelivery); }
    var distinct := HasDistinctIds(ds);
    if !distinct { return Refused(DuplicateEventIdInBatch); }
    var conflict, evidence, news := LookUpAll(d, ds);
    if conflict { return Refused(EventIdConflict); }
    if news == [] { return AllKnown(evidence); }
    if d.root.TombstonedRoot? { return Refused(TombstonedRootFailure); }
    StoredAggregate(d);
    var a := d.root.aggregate;
    if a.boxes[a.rootRuntime].status != Running { return Refused(TerminalRoot); }
    if expected.revision != d.revision || expected.digest != CheckpointDigest(d) { return Refused(CheckpointRevisionConflict); }
    var valid := AllValid(a, news);
    if !valid { return Refused(InvalidDelivery); }
    NewsFresh(d, ds);
    return New(evidence, news);
  }

  /** The lookup loop: the first conflict ends it, and every new delivery is kept in order. */
  method LookUpAll(d: Checkpoint, ds: seq<Delivery>) returns (conflict: bool, evidence: seq<Lookup>, news: seq<Delivery>)
    requires Stored(d)
    ensures conflict <==> exists x :: x in ds && Conflicting(d, x)
    ensures conflict ==> exists x :: x in ds && !Known(d, x.envelope.eventId, Requested(d, x))
    ensures !conflict ==> AllFound(d, ds, evidence) && news == NewsOf(d, ds)
    ensures !conflict ==> (news == [] <==> forall x | x in ds :: Known(d, x.envelope.eventId, Requested(d, x)))
    ensures !conflict && news == [] ==> forall j | 0 <= j < |ds| :: evidence[j].Replays?
  {
    hide Stored, Unknown, Known, Evidences;
    evidence, news := [], [];
    for i := 0 to |ds|
      invariant |evidence| == i && news == NewsOf(d, ds[..i])
      invariant forall j | 0 <= j < i :: Found(d, ds[j], evidence[j]) && !Conflicting(d, ds[j])
      invariant news == [] <==> forall j | 0 <= j < i :: evidence[j].Replays?
    {
      var found := FindReplay(d, ds[i].envelope.eventId, EntryDigest(d.rootInstance, ds[i].mode, ds[i].envelope));
      if found.Conflicts? {
        assert ds[i] in ds && Conflicting(d, ds[i]);
        KnownExcludes(d, ds[i]);
        return true, evidence, news;
      }
      assert ds[..i + 1][..i] == ds[..i];
      evidence := evidence + [found];
      if found.Missing? { news := news + [ds[i]]; }
    }
    assert ds[..|ds|] == ds;
    assert forall x | x in ds :: exists j :: 0 <= j < |ds| && ds[j] == x;
    if news != [] {
      var j :| 0 <= j < |ds| && !evidence[j].Replays?;
      assert ds[j] in ds && !Known(d, ds[j].envelope.eventId, Requested(d, ds[j]));
    }
    return false, evidence, news;
  }

  lemma KnownExcludes(d: Checkpoint, x: Delivery)
    requires Stored(d) && Conflicting(d, x)
    ensures !Known(d, x.envelope.eventId, Requested(d, x))
  {
    var g :| g != Requested(d, x) && Known(d, x.envelope.eventId, g);
    if Known(d, x.envelope.eventId, Requested(d, x)) {
      KnownOnce(d, x.envelope.eventId, g, Requested(d, x));
      assert false;
    }
  }

  lemma NewsNone(d: Checkpoint, ds: seq<Delivery>)
    ensures NewsOf(d, ds[..0]) == []
  {}

  /** The receipts appended by `admit_checkpoint_v1`, one for each new delivery in batch order. */
  method AppendAcceptances(d: Checkpoint, ds: seq<Delivery>, evidence: seq<Lookup>, news: seq<Delivery>, b: Aggregate)
    returns (d': Checkpoint, members: seq<Member>)
    requires Stored(d) && Admissible(d, news, b) && news == NewsOf(d, ds) && AllFound(d, ds, evidence)
    ensures d' == AdmittedDocument(d, news, b)
    ensures MembersOk(d, d', ds, members)
    ensures Stored(d') <==> HostOnly(d, ds)
  {
    hide Stored, Unknown, Known, Evidences, AggregateOk, Admits, FreshIds, ValidDelivery, NewsOf, AdmittedDocument, MembersOk,
      HostOnly;
    var a, n := d.root.aggregate, |d.receipts|;
    var receipts, next, accepted := d.receipts, d.nextReceipt, 0;
    members := [];
    NewsNone(d, ds);
    for k := 0 to |ds|
      invariant accepted == |NewsOf(d, ds[..k])| && NewsOf(d, ds[..k]) <= news && next == d.nextReceipt + accepted
      invariant |receipts| == n + accepted && receipts[..n] == d.receipts
      invariant forall p | n <= p < |receipts| ::
        receipts[p] == AcceptanceReceipt(d.rootInstance, news[p - n], d.nextReceipt + p - n, a.nextAcceptance + p - n, d.revision + 1)
      invariant |members| == k
      invariant forall j | 0 <= j < k :: MemberAmong(d, news, ds[j], members[j])
    {
      NewsPrefix(d, ds, k);
      assert Found(d, ds[k], evidence[k]);
      if evidence[k].Replays? {
        members := members + [Replayed(evidence[k].evidence)];
      } else {
        receipts := receipts + [Acceptance(next, ds[k].envelope.eventId,
          EntryDigest(d.rootInstance, ds[k].mode, ds[k].envelope), a.nextAcceptance + accepted, d.revision + 1, ds[k].mode)];
        members := members + [AcceptedAs(a.nextAcceptance + accepted, a.nextQueue + accepted)];
        assert news[accepted] == ds[k];
        next := next + 1;
        accepted := accepted + 1;
      }
    }
    assert ds[..|ds|] == ds;
    d' := d.(revision := d.revision + 1, root := Retained(b), nextReceipt := next, receipts := receipts);
    AdmissionAssembled(d, ds, news, b, d', members);
  }

  /** The document with one acceptance for each new delivery is the admitted one. */
  lemma AdmissionAssembled(d: Checkpoint, ds: seq<Delivery>, news: seq<Delivery>, b: Aggregate, d': Checkpoint, members: seq<Member>)
    requires Stored(d) && Admissible(d, news, b) && news == NewsOf(d, ds) && |members| == |ds|
    requires d' == d.(revision := d.revision + 1, root := Retained(b), nextReceipt := d.nextReceipt + |news|, receipts := d'.receipts)
    requires |d'.receipts| == |d.receipts| + |news| && d'.receipts[..|d.receipts|] == d.receipts
    requires forall p | |d.receipts| <= p < |d'.receipts| ::
      d'.receipts[p] == AcceptanceReceipt(d.rootInstance, news[p - |d.receipts|], d.nextReceipt + p - |d.receipts|,
                                          d.root.aggregate.nextAcceptance + p - |d.receipts|, d.revision + 1)
    requires forall j | 0 <= j < |ds| :: MemberAmong(d, news, ds[j], members[j])
    ensures d' == AdmittedDocument(d, news, b)
    ensures MembersOk(d, d', ds, members)
    ensures Stored(d') <==> HostOnly(d, ds)
  {
    hide Stored, Unknown, Known, Evidences, AggregateOk, Admits, FreshIds, ValidDelivery, NewsOf, MemberAmong, MemberOk;
    assert d'.receipts == AdmittedDocument(d, news, b).receipts;
    AdmissionStored(d, news, b);
    NewsHost(d, ds);
    forall i | 0 <= i < |ds|
      ensures MemberOk(d, d', ds[i], members[i])
    {
      AnswerHolds(d, news, b, ds[i], members[i]);
    }
  }

  lemma NewsHost(d: Checkpoint, ds: seq<Delivery>)
    ensures HostOnly(d, ds) <==> forall i | 0 <= i < |NewsOf(d, ds)| :: NewsOf(d, ds)[i].envelope.source == Host
  {
    NewsExact(d, ds);
    var news := NewsOf(d, ds);
    if HostOnly(d, ds) {
      forall i | 0 <= i < |news| ensures news[i].envelope.source == Host {
        assert news[i] in news;
      }
    } else {
      var x :| x in ds && Unknown(d, x.envelope.eventId) && x.envelope.source != Host;
      var i :| 0 <= i < |news| && news[i] == x;
      assert NewsOf(d, ds)[i].envelope.source != Host;
    }
  }

  lemma AnswerHolds(d: Checkpoint, news: seq<Delivery>, b: Aggregate, x: Delivery, m: Member)
    requires Admissible(d, news, b) && MemberAmong(d, news, x, m)
    ensures MemberOk(d, AdmittedDocument(d, news, b), x, m)
  {
    if m.AcceptedAs? {
      var i := m.acceptance - d.root.aggregate.nextAcceptance;
      AdmittedView(d, news, b);
      var y := AdmittedEntry(d.root.aggregate, news[i], i);
      assert NewEntry(d, news, i, y) && Waits(AdmittedDocument(d, news, b), y);
    }
  }

  // ---------------------------------------------------------------- stepping

  ghost predicate Dispatchable(d: Checkpoint, order: seq<RuntimeId>, decide: Dispatched, overflow: Dispatched)
    requires d.root.Retained?
  {
    var a := d.root.aggregate;
    && Permutes(order, a.boxes.Keys) && decide.disposition != NotRunnable
    && a.rootRuntime in decide.after && overflow.after.Keys == a.boxes.Keys
    && FreshFor(d, decide) && FreshFor(d, overflow)
  }

  ghost predicate DefersTo(d: Checkpoint, target: RuntimeId, d': Checkpoint) {
    && d.root.Retained? && target in d.root.aggregate.boxes && d.root.aggregate.boxes[target].ready != []
    && exists b :: AggregateOk(b) && Defers(d.root.aggregate, target, b) && d' == DeferredDocument(d, b)
  }

  ghost predicate SettlesTo(d: Checkpoint, target: RuntimeId, disposition: Disposition, d': Checkpoint) {
    && d.root.Retained? && target in d.root.aggregate.boxes && d.root.aggregate.boxes[target].ready != []
    && exists r :: Stepping(d, d.root.aggregate.boxes[target].ready[0], r) && r.disposition == disposition
         && d' == SteppedDocument(d, d.root.aggregate.boxes[target].ready[0], r)
  }

  /** What a committed step does: the runtime was runnable, and its ready head was deferred or settled. */
  ghost predicate StepsTo(d: Checkpoint, target: RuntimeId, capacity: Option<nat>, decide: Dispatched,
                          disposition: Disposition, d': Checkpoint)
  {
    && d.root.Retained? && Runnable(d.root.aggregate, target) && d.root.aggregate.boxes[target].ready != []
    && (disposition == Deferred <==>
          decide.disposition == Deferred && (capacity == None || |d.root.aggregate.boxes[target].deferred| < capacity.value))
    && (if disposition == Deferred then DefersTo(d, target, d') else SettlesTo(d, target, disposition, d'))
  }

  method StepRetained(d: Checkpoint, target: RuntimeId, still: set<string>, capacity: Option<nat>, order: seq<RuntimeId>,
                      decide: Dispatched, overflow: Dispatched)
    returns (outcome: StepOutcome, d': Checkpoint)
    requires Stored(d) && d.root.Retained? && Dispatchable(d, order, decide, overflow)
    requires target in d.root.aggregate.boxes ==> d.root.aggregate.boxes[target].ready != []
    ensures Stored(d') && !outcome.StepFailed?
    ensures !outcome.StepCommitted? ==> d' == d
    ensures outcome.StepCommitted? ==> StepsTo(d, target, capacity, decide, outcome.disposition, d')
  {
    hide Stored, Commits, AggregateOk, FreshFor, Pending, SameIds, FreshEmissions, Stepping, SteppedDocument,
      DeferredDocument, Defers, Permutes, NewIds;
    StoredAggregate(d);
    FreshForMail(d, decide);
    FreshForMail(d, overflow);
    var r := StepAggregate(d.root.aggregate, target, still, capacity, order, decide, overflow);
    if target !in d.root.aggregate.boxes || r.disposition == NotRunnable || r.disposition == Rejected {
      return NotCommitted(r.disposition), d;
    }
    if r.disposition == Deferred {
      d' := CommitDeferred(d, target, r.state);
      return StepCommitted(Deferred), d';
    }
    FreshForIds(d, if decide.disposition == Deferred then overflow else decide, r.emissions);
    d' := CommitStep(d, target, r);
    return StepCommitted(r.disposition), d';
  }

  // ---------------------------------------------------------------- the other operations

  ghost predicate TombstonesTo(d: Checkpoint, operation: string, d': Checkpoint) {
    && d.root.Retained? && d.root.aggregate.rootRuntime in d.root.aggregate.boxes
    && exists entries :: Lists(d.root.aggregate, entries) && d' == TombstonedDocument(d, entries, operation)
  }

  ghost predicate UpdatesTo(d: Checkpoint, effect: string, delivery: string, d': Checkpoint) {
    exists i :: PendingEffect(d, i, effect) && d' == UpdatedDocument(d, i, delivery)
  }

  ghost predicate TerminalizesTo(d: Checkpoint, effect: string, result: string, d': Checkpoint) {
    exists i :: PendingEffect(d, i, effect) && d' == TerminalizedDocument(d, i, result)
  }

  ghost predicate CompactsTo(d: Checkpoint, effect: string, d': Checkpoint) {
    exists i :: TerminalEffect(d, i, effect) && d' == CompactedDocument(d, i)
  }

  // ---------------------------------------------------------------- helpers of the host

  ghost predicate Initial(a: Aggregate, initial: Dispatched) {
    && AggregateOk(a) && (forall id | id in a.boxes :: a.boxes[id].ready == [] && a.boxes[id].deferred == [])
    && initial.after.Keys == a.boxes.Keys && (forall id | id in a.boxes :: initial.after[id] == a.boxes[id].status)
    && FreshDispatch(a, initial)
    && (forall i, j | 0 <= i < j < |initial.emissions| && initial.emissions[i].External? && initial.emissions[j].External? ::
          initial.emissions[i].effectId != initial.emissions[j].effectId)
  }

  /** Creation has no selected entry; this one is in no mailbox. */
  function Nobody(a: Aggregate): Entry {
    var envelope := Envelope("", "", "", Host, a.rootRuntime, "");
    Entry(0, 0, Input, envelope, EntryDigest(a.root, Input, envelope), 0)
  }

  method RouteCreation(a: Aggregate, initial: Dispatched) returns (r: StepResult)
    requires Initial(a, initial)
    ensures Creates(a, Nobody(a), r) && SameIds(initial.emissions, r.emissions)
  {
    assert forall id, late, x :: !Holds(a.boxes, id, late, x);
    assert Culled(a, Nobody(a), a.boxes, []);
    r := RouteStep(a, Nobody(a), a.boxes, [], initial, Handled);
    CreationIds(initial, r);
    assert forall y :: !Pending(a, y);
  }

  lemma CreationIds(initial: Dispatched, r: StepResult)
    requires SameIds(initial.emissions, r.emissions)
    requires forall i, j | 0 <= i < j < |initial.emissions| && initial.emissions[i].External? && initial.emissions[j].External? ::
      initial.emissions[i].effectId != initial.emissions[j].effectId
    ensures forall i, j | 0 <= i < j < |r.emissions| :: !SameEffect(r.emissions[i], r.emissions[j])
  {
    assert forall i | 0 <= i < |r.emissions| && r.emissions[i].Outbox? ::
      initial.emissions[i].External? && initial.emissions[i].effectId == r.emissions[i].effectId;
  }

  method CreationReceipts(r: StepResult, references: seq<Reference>) returns (receipts: seq<Receipt>)
    requires references == ReferencesOf(r.emissions, 0)
    ensures receipts == CreatedDocument(r).receipts
  {
    var digest := AggregateDigest(r.state);
    receipts := [Creation(0, r.state.creationId, 0, digest, references)];
    for k := 0 to |r.lifecycle|
      invariant |receipts| == 1 + k && receipts[0] == Creation(0, r.state.creationId, 0, digest, references)
      invariant forall i | 1 <= i < |receipts| ::
        receipts[i] == TerminalReceipt(LifecycleSettlement(r.lifecycle[i - 1]), i, 0, digest)
    {
      receipts := receipts + [TerminalReceipt(LifecycleSettlement(r.lifecycle[k]), 1 + k, 0, digest)];
    }
    CreatedViews(r);
  }

  lemma CreatedFields(r: StepResult)
    ensures CreatedDocument(r) == Checkpoint(r.state.root, 0, Retained(r.state), Permanent, None, 1 + |r.lifecycle|,
      CreatedDocument(r).receipts, [], IntentsOf(r.emissions, 0), 0, [], [])
  {}

  lemma StoredAggregate(d: Checkpoint)
    requires Stored(d) && d.root.Retained?
    ensures AggregateOk(d.root.aggregate) && d.root.aggregate.rootRuntime in d.root.aggregate.boxes
    ensures d.root.aggregate.root == d.rootInstance
  {}

  method CommitDeferred(d: Checkpoint, target: RuntimeId, b: Aggregate) returns (d': Checkpoint)
    requires Stored(d) && d.root.Retained?
    requires target in d.root.aggregate.boxes && d.root.aggregate.boxes[target].ready != []
    requires AggregateOk(b) && Defers(d.root.aggregate, target, b)
    ensures Stored(d') && d' == DeferredDocument(d, b)
  {
    hide Stored, AggregateOk, Defers;
    DeferSettles(d, target, b);
    var receipts := SettleThenAppend(d.receipts, [], d.nextReceipt, d.revision + 1, AggregateDigest(b), EntryLocations(b));
    assert d.pendingOutbox + [] == d.pendingOutbox;
    d' := d.(revision := d.revision + 1, root := Retained(b), receipts := receipts);
  }

  /** The settlement of the stepped entry, then those of the entries it disposed of. */
  method SettleStep(selected: Entry, r: StepResult, next: nat, references: seq<Reference>) returns (ss: seq<Settlement>)
    requires references == ReferencesOf(r.emissions, next)
    ensures ss == StepSettlements(selected, r, next)
  {
    ss := [Settlement(selected.envelope.eventId, selected.digest, selected.acceptance, selected.queue,
                      Stepped(r.disposition), references)];
    for k := 0 to |r.lifecycle|
      invariant |ss| == 1 + k
      invariant forall m | 0 <= m <= k :: ss[m] == StepSettlements(selected, r, next)[m]
    {
      ss := ss + [LifecycleSettlement(r.lifecycle[k])];
    }
  }

  /** The committed half of `step_checkpoint_v1`. */
  method CommitStep(d: Checkpoint, target: RuntimeId, r: StepResult) returns (d': Checkpoint)
    requires Stored(d) && d.root.Retained?
    requires target in d.root.aggregate.boxes && d.root.aggregate.boxes[target].ready != []
    requires Commits(d.root.aggregate, d.root.aggregate.boxes[target].ready[0], r) && NewIds(d, r.emissions)
    ensures Stepping(d, d.root.aggregate.boxes[target].ready[0], r)
    ensures AggregateOk(r.state)
    ensures Stored(d') && d' == SteppedDocument(d, d.root.aggregate.boxes[target].ready[0], r)
  {
    hide Stored, Commits, AggregateOk, NewIds;
    var selected := d.root.aggregate.boxes[target].ready[0];
    assert Holds(d.root.aggregate.boxes, target, false, selected) && Pending(d.root.aggregate, selected);
    assert Stepping(d, selected, r);
    StepSettles(d, selected, r);
    StepAggregates(d.root.aggregate, selected, r);
    var references, outbox := ProjectEmissions(r.emissions, d.nextReceipt, d.revision + 1);
    var ss := SettleStep(selected, r, d.nextReceipt, references);
    var receipts := SettleThenAppend(d.receipts, ss, d.nextReceipt, d.revision + 1,
                                     AggregateDigest(r.state), EntryLocations(r.state));
    d' := d.(revision := d.revision + 1, root := Retained(r.state), nextReceipt := d.nextReceipt + |ss|,
             receipts := receipts, pendingOutbox := d.pendingOutbox + outbox);
  }

  method CommitTombstone(d: Checkpoint, entries: seq<Entry>, operation: string) returns (d': Checkpoint)
    requires Stored(d) && d.root.Retained? && Lists(d.root.aggregate, entries)
    ensures d.root.aggregate.rootRuntime in d.root.aggregate.boxes
    ensures Stored(d') && d' == TombstonedDocument(d, entries, operation)
    ensures d'.root == TombstoneRecord(d.root.aggregate, operation)
  {
    hide Stored, AggregateOk, Lists;
    var a := d.root.aggregate;
    StoredAggregate(d);
    TombstoneSettles(d, entries, operation);
    assert d.pendingOutbox + [] == d.pendingOutbox;
    var receipts, next := SettleEntryByEntry(d.receipts, entries, d.nextReceipt, d.revision + 1, AggregateDigest(a));
    d' := d.(revision := d.revision + 1, nextReceipt := next, receipts := receipts,
             root := TombstonedRoot(a.rootRuntime, a.creationId, a.boxes[a.rootRuntime].status, AggregateDigest(a), operation));
  }

  method HasDistinctIds(ds: seq<Delivery>) returns (distinct: bool)
    ensures distinct <==> DistinctIds(ds)
  {
    var seen: set<EventId> := {};
    for i := 0 to |ds|
      invariant DistinctIds(ds[..i])
      invariant forall e :: e in seen <==> exists j :: 0 <= j < i && ds[j].envelope.eventId == e
    {
      if ds[i].envelope.eventId in seen {
        var j :| 0 <= j < i && ds[j].envelope.eventId == ds[i].envelope.eventId;
        return false;
      }
      seen := seen + {ds[i].envelope.eventId};
    }
    assert ds[..|ds|] == ds;
    return true;
  }

  method AllValid(a: Aggregate, ds: seq<Delivery>) returns (valid: bool)
    ensures valid <==> forall i | 0 <= i < |ds| :: ValidDelivery(a, ds[i])
  {
    for i := 0 to |ds|
      invariant forall j | 0 <= j < i :: ValidDelivery(a, ds[j])
    {
      if !ValidDelivery(a, ds[i]) { return false; }
    }
    return true;
  }

  method ReplayMembers(evidence: seq<Lookup>) returns (members: seq<Member>)
    requires forall j | 0 <= j < |evidence| :: evidence[j].Replays?
    ensures |members| == |evidence|
    ensures forall j | 0 <= j < |evidence| :: members[j] == Replayed(evidence[j].evidence)
  {
    members := [];
    for j := 0 to |evidence|
      invariant |members| == j
      invariant forall k | 0 <= k < j :: members[k] == Replayed(evidence[k].evidence)
    {
      members := members + [Replayed(evidence[j].evidence)];
    }
  }

  lemma {:induction false} NewsPrefix(d: Checkpoint, ds: seq<Delivery>, k: nat)
    requires k < |ds|
    ensures NewsOf(d, ds[..k + 1]) == NewsOf(d, ds[..k]) + if Unknown(d, ds[k].envelope.eventId) then [ds[k]] else []
    ensures NewsOf(d, ds[..k + 1]) <= NewsOf(d, ds)
    decreases |ds| - k
  {
    assert ds[..k + 1][..k] == ds[..k];
    if k + 1 < |ds| {
      NewsPrefix(d, ds, k + 1);
    } else {
      assert ds[..k + 1] == ds;
    }
  }

  function SelectedPolicy(d: Checkpoint, policy: Option<string>): string {
    match policy
    case Some(p) => p
    case None => if d.retention.Bounded? then d.retention.policy else ""
  }

  method FindPendingEffect(d: Checkpoint, f: string) returns (i: int)
    ensures 0 <= i ==> PendingEffect(d, i, f)
    ensures i < 0 ==> forall j :: !PendingEffect(d, j, f)
  {
    i := 0;
    while i < |d.pendingOutbox|
      invariant 0 <= i <= |d.pendingOutbox|
      invariant forall j | 0 <= j < i :: !PendingEffect(d, j, f)
    {
      if d.pendingOutbox[i].effectId == f { return; }
      i := i + 1;
    }
    i := -1;
  }

  method FindTerminalEffect(d: Checkpoint, f: string) returns (i: int)
    ensures 0 <= i ==> TerminalEffect(d, i, f)
    ensures i < 0 ==> forall j :: !TerminalEffect(d, j, f)
  {
    i := 0;
    while i < |d.terminalOutbox|
      invariant 0 <= i <= |d.terminalOutbox|
      invariant forall j | 0 <= j < i :: !TerminalEffect(d, j, f)
    {
      if d.terminalOutbox[i].effectId == f { return; }
      i := i + 1;
    }
    i := -1;
  }

  method FindBuriedEffect(d: Checkpoint, f: string) returns (i: int)
    ensures 0 <= i ==> BuriedEffect(d, i, f)
    ensures i < 0 ==> forall j :: !BuriedEffect(d, j, f)
  {
    i := 0;
    while i < |d.outboxTombstones|
      invariant 0 <= i <= |d.outboxTombstones|
      invariant forall j | 0 <= j < i :: !BuriedEffect(d, j, f)
    {
      if d.outboxTombstones[i].effectId == f { return; }
      i := i + 1;
    }
    i := -1;
  }

  /** The effect has a terminal record or a tombstone with this outcome. */
  ghost predicate EndedWith(d: Checkpoint, f: string, outcome: string) {
    || (exists i :: TerminalEffect(d, i, f) && d.terminalOutbox[i].outcome == outcome)
    || (exists i :: BuriedEffect(d, i, f) && d.outboxTombstones[i].outcome == outcome)
  }

  lemma EffectsOnce(d: Checkpoint, f: string)
    requires Stored(d)
    ensures forall i, j | PendingEffect(d, i, f) :: !TerminalEffect(d, j, f)
    ensures forall i, j | PendingEffect(d, i, f) :: !BuriedEffect(d, j, f)
    ensures forall i, j | TerminalEffect(d, i, f) :: !BuriedEffect(d, j, f)
    ensures forall i, j | TerminalEffect(d, i, f) && TerminalEffect(d, j, f) :: i == j
    ensures forall i, j | BuriedEffect(d, i, f) && BuriedEffect(d, j, f) :: i == j
  {}

  // ---------------------------------------------------------------- loops of pruning

  /** The three dependency checks of `prune_checkpoint_v1`. */
  method DependencyClosed(d: Checkpoint, cutoff: nat) returns (closed: bool)
    requires Stored(d) && Accepts(d, cutoff)
    ensures closed <==> Prunable(d, cutoff)
  {
    closed := true;
    for i := 0 to |d.receipts|
      invariant closed <==> forall j | 0 <= j < i :: PrunableAt(d, cutoff, j)
    {
      if 1 <= i && d.receipts[i].sequence <= cutoff {
        var ok := ReceiptClosed(d, cutoff, i);
        closed := closed && ok;
      }
    }
    PrunableEverywhere(d, cutoff);
  }

  ghost predicate PrunableAt(d: Checkpoint, cutoff: nat, i: int) {
    RemovedAt(d, cutoff, i) ==>
      && (d.receipts[i].Acceptance? ==> AcceptancePrunable(d, cutoff, d.receipts[i].eventId))
      && (forall k | 0 <= k < |References(d.receipts[i])| :: ReferencePrunable(d, References(d.receipts[i])[k]))
  }

  ghost predicate AcceptancePrunable(d: Checkpoint, cutoff: nat, e: EventId) {
    !WaitsFor(d, e) && exists j :: TerminalAt(d, j, e) && RemovedAt(d, cutoff, j)
  }

  ghost predicate ReferencePrunable(d: Checkpoint, ref: Reference) {
    && (ref.InternalMailbox? ==> !WaitsFor(d, ref.eventId))
    && (ref.ExternalOutbox? ==> forall p :: !PendingEffect(d, p, ref.effectId))
  }

  lemma PrunableEverywhere(d: Checkpoint, cutoff: nat)
    ensures Prunable(d, cutoff) <==> forall j | 0 <= j < |d.receipts| :: PrunableAt(d, cutoff, j)
  {
    if forall j | 0 <= j < |d.receipts| :: PrunableAt(d, cutoff, j) {
      forall i, e | RemovedAt(d, cutoff, i) && AcceptedAt(d, i, e)
        ensures !WaitsFor(d, e) && exists j :: TerminalAt(d, j, e) && RemovedAt(d, cutoff, j)
      {
        assert PrunableAt(d, cutoff, i) && AcceptancePrunable(d, cutoff, e);
      }
      forall i, k, ref | RemovedAt(d, cutoff, i) && RefAt(d, i, k, ref)
        ensures ReferencePrunable(d, ref)
      {
        assert PrunableAt(d, cutoff, i);
      }
    }
    if Prunable(d, cutoff) {
      forall j | 0 <= j < |d.receipts|
        ensures PrunableAt(d, cutoff, j)
      {
        if RemovedAt(d, cutoff, j) {
          assert d.receipts[j].Acceptance? ==> AcceptedAt(d, j, d.receipts[j].eventId);
          forall k | 0 <= k < |References(d.receipts[j])|
            ensures ReferencePrunable(d, References(d.receipts[j])[k])
          {
            assert RefAt(d, j, k, References(d.receipts[j])[k]);
          }
        }
      }
    }
  }

  method ReceiptClosed(d: Checkpoint, cutoff: nat, i: nat) returns (ok: bool)
    requires Stored(d) && RemovedAt(d, cutoff, i)
    ensures ok <==> PrunableAt(d, cutoff, i)
  {
    ok := true;
    if d.receipts[i].Acceptance? {
      var e := d.receipts[i].eventId;
      var waiting := FindWaiting(d, e);
      var j := FindTerminal(d, e);
      ok := waiting.None? && 0 <= j && 1 <= j && d.receipts[j].sequence <= cutoff;
      if 0 <= j {
        assert RemovedAt(d, cutoff, j) <==> 1 <= j && d.receipts[j].sequence <= cutoff;
        assert forall l | TerminalAt(d, l, e) :: l == j;
      }
      assert ok <==> AcceptancePrunable(d, cutoff, e);
    }
    var refs := References(d.receipts[i]);
    for k := 0 to |refs|
      invariant ok <==>
        && (d.receipts[i].Acceptance? ==> AcceptancePrunable(d, cutoff, d.receipts[i].eventId))
        && forall l | 0 <= l < k :: ReferencePrunable(d, refs[l])
    {
      match refs[k] {
        case InternalMailbox(_, e, _, _) =>
          var waiting := FindWaiting(d, e);
          ok := ok && waiting.None?;
        case ExternalOutbox(_, f) =>
          var p := FindPendingEffect(d, f);
          ok := ok && p < 0;
        case InternalTerminal(_, _, _, _) =>
      }
    }
  }

  /** The last check, that no kept terminal receipt loses its acceptance, never fires: a dropped
      acceptance always takes its terminal receipt along. */
  method StrandsAcceptance(d: Checkpoint, cutoff: nat) returns (stranded: bool)
    requires Stored(d) && Accepts(d, cutoff) && Prunable(d, cutoff)
    ensures !stranded
  {
    stranded := false;
    for i := 0 to |d.receipts|
      invariant !stranded
    {
      if d.receipts[i].EventTerminal? && !(1 <= i && d.receipts[i].sequence <= cutoff) {
        var j := FindAcceptance(d, d.receipts[i].eventId);
        if 0 <= j {
          KeptTogether(d, cutoff, j, i, d.receipts[i].eventId);
          stranded := stranded || (1 <= j && d.receipts[j].sequence <= cutoff);
        }
      }
    }
  }

  /** Kept receipts, and the tombstone list with one more for each dropped terminal receipt. */
  method SplitReceipts(d: Checkpoint, cutoff: nat) returns (retained: seq<Receipt>, tombstones: seq<EventTombstone>)
    requires Stored(d) && Accepts(d, cutoff)
    ensures retained == PrunedDocument(d, cutoff, "").receipts
    ensures tombstones == PrunedDocument(d, cutoff, "").tombstones
  {
    hide Stored, Graves;
    StoredReceipts(d);
    ghost var cut := Cut(d, cutoff);
    CutExact(d, cutoff, 0);
    retained := [d.receipts[0]];
    var removed := [];
    for i := 1 to |d.receipts|
      invariant i <= cut ==> retained == [d.receipts[0]] && removed == d.receipts[1..i]
      invariant cut <= i ==> retained == [d.receipts[0]] + d.receipts[cut..i] && removed == d.receipts[1..cut]
    {
      CutExact(d, cutoff, i);
      SliceGrows(d.receipts, if i < cut then 1 else cut, i);
      if d.receipts[i].sequence <= cutoff {
        removed := removed + [d.receipts[i]];
      } else {
        retained := retained + [d.receipts[i]];
      }
    }
    assert d.receipts[cut..|d.receipts|] == d.receipts[cut..];
    var graves := GravesOf(removed);
    tombstones := SortedByTerminal(d.tombstones + graves);
    PrunedTombstonesSorted(d, cutoff);
  }

  lemma SliceGrows<T>(s: seq<T>, lo: nat, i: nat)
    requires lo <= i < |s|
    ensures s[lo..i + 1] == s[lo..i] + [s[i]]
  {}

  lemma StoredReceipts(d: Checkpoint)
    requires Stored(d)
    ensures ReceiptsContiguous(d)
  {}

  method GravesOf(removed: seq<Receipt>) returns (graves: seq<EventTombstone>)
    ensures graves == Graves(removed)
  {
    graves := [];
    for i := 0 to |removed|
      invariant graves == Graves(removed[..i])
    {
      assert removed[..i + 1][..i] == removed[..i];
      if removed[i].EventTerminal? { graves := graves + [Grave(removed[i])]; }
    }
    assert removed[..|removed|] == removed;
  }

  lemma PrunedTombstonesSorted(d: Checkpoint, cutoff: nat)
    requires Stored(d) && Accepts(d, cutoff)
    ensures SortedTombstones(PrunedDocument(d, cutoff, "").tombstones)
  {
    var d' := PrunedDocument(d, cutoff, "");
    NewGraves(d, cutoff, "");
    forall t | |d.tombstones| <= t < |d'.tombstones|
      ensures d.cutoff.Some? ==> d.cutoff.value < d'.tombstones[t].terminal
    {
      assert FromDropped(d, cutoff, d'.tombstones[t]);
    }
  }

  predicate SortedTombstones(s: seq<EventTombstone>) {
    forall i, j | 0 <= i < j < |s| :: s[i].terminal <= s[j].terminal
  }

  /** The sort by terminal sequence: a stable insertion sort, which leaves a sorted list alone. */
  method SortedByTerminal(s: seq<EventTombstone>) returns (out: seq<EventTombstone>)
    ensures SortedTombstones(out) && multiset(out) == multiset(s)
    ensures SortedTombstones(s) ==> out == s
  {
    out := [];
    for i := 0 to |s|
      invariant SortedTombstones(out) && multiset(out) == multiset(s[..i])
      invariant SortedTombstones(s) ==> out == s[..i]
    {
      assert s[..i + 1] == s[..i] + [s[i]];
      out := InsertTombstone(out, s[i]);
    }
    assert s[..|s|] == s;
  }

  method InsertTombstone(s: seq<EventTombstone>, x: EventTombstone) returns (out: seq<EventTombstone>)
    requires SortedTombstones(s)
    ensures SortedTombstones(out) && multiset(out) == multiset(s) + multiset{x}
    ensures SortedTombstones(s + [x]) ==> out == s + [x]
  {
    var p := |s|;
    while 0 < p && x.terminal < s[p - 1].terminal
      invariant 0 <= p <= |s|
      invariant forall j | p <= j < |s| :: x.terminal < s[j].terminal
    {
      p := p - 1;
    }
    out := s[..p] + [x] + s[p..];
    InsertedCounts(s, p, x);
    if p < |s| {
      assert (s + [x])[p] == s[p] && (s + [x])[|s|] == x;
    }
  }

  lemma InsertedCounts(s: seq<EventTombstone>, p: nat, x: EventTombstone)
    requires p <= |s|
    ensures multiset(s[..p] + [x] + s[p..]) == multiset(s) + multiset{x}
  {
    assert s == s[..p] + s[p..];
  }
}
