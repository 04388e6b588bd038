/** Every change of a document, one lemma each: under the guard of its operation the change keeps
    the document's invariant, and its records only evolve. */
module EffectsChanges {
  import opened Options
  import opened Queueing
  import opened CheckpointV1
  import opened Effects
  import opened EffectsInvariant
  import A = CheckpointAdmission
  import H = CheckpointHost
  import O = CheckpointOutbox
  import S = CheckpointSettlement
  import T = CheckpointStep

  /** A checkpoint that keeps the acceptances and the effects of an earlier one. A step rewrites
      the receipts that refer to mail it settles or requeues, so those are not kept as they are. */
  ghost predicate Extends(c: Checkpoint, c': Checkpoint) {
    && c'.rootInstance == c.rootInstance && Stored(c')
    && (forall x | x in c.receipts && x.Acceptance? :: x in c'.receipts)
    && (forall e | Located(c, e) :: Located(c', e))
  }

  lemma Same(c: Checkpoint)
    requires Stored(c)
    ensures Extends(c, c)
  {}

  lemma StaysValid(c: Checkpoint, c': Checkpoint, e: EffectId, r: EffectRecord)
    requires Extends(c, c') && RecordValid(c, e, r)
    ensures RecordValid(c', e, r)
  {}

  /** The conditions under which replacing one record keeps everything else. */
  ghost predicate Replaces(root: string, d: Document, e: EffectId, r': EffectRecord, d': Document) {
    && e in d.records && d'.records == d.records[e := r'] && d.revision <= d'.revision
    && Extends(d.checkpoint, d'.checkpoint) && d'.pinned == CheckpointDigest(d'.checkpoint)
    && d.responses.Keys <= d'.responses.Keys
    && (forall f | f != e :: f in d'.claims <==> f in d.claims)
    && (forall f | f != e && f in d.claims :: d'.claims[f] == d.claims[f])
    && RecordValid(d'.checkpoint, e, r') && RecordOk(d', r') && ClaimOk(root, d', e, r')
    && RecordEvolves(d.records[e], r')
    && AnswersOk(d')
  }

  lemma ReplaceKeeps(root: string, d: Document, e: EffectId, r': EffectRecord, d': Document)
    requires DocumentInv(root, d) && Replaces(root, d, e, r', d')
    ensures DocumentInv(root, d') && DocumentEvolves(d, d')
  {
    hide Stored, AnswersOk, RecordValid, ReportsExact, OutcomeLast, PreclaimCancel, Located;
    forall f | f in d'.records
      ensures RecordValid(d'.checkpoint, f, d'.records[f])
      ensures RecordOk(d', d'.records[f]) && ClaimOk(root, d', f, d'.records[f])
    {
      if f != e {
        StaysValid(d.checkpoint, d'.checkpoint, f, d.records[f]);
        assert RecordOk(d, d.records[f]) && ClaimOk(root, d, f, d.records[f]);
      }
    }
  }

  // ---------------------------------------------------------------- steps of the core

  /** Settling events keeps every acceptance and every effect. */
  lemma SettledExtends(c: Checkpoint, root: Root, ss: seq<S.Settlement>, digest: AggregateDigest, outbox: seq<PendingIntent>)
    requires root.Retained? ==> AggregateOk(root.aggregate)
    requires Stored(S.Settled(c, root, ss, digest, outbox))
    ensures Extends(c, S.Settled(c, root, ss, digest, outbox))
  {
    hide Stored, AggregateOk;
    var c' := S.Settled(c, root, ss, digest, outbox);
    forall x | x in c.receipts && x.Acceptance?
      ensures x in c'.receipts
    {
      var i :| 0 <= i < |c.receipts| && c.receipts[i] == x;
      AcceptanceStays(c.receipts, i, ss, c.nextReceipt, c.revision + 1, digest, S.LocationsOf(root));
      assert c'.receipts[i] == x;
    }
    forall e | Located(c, e)
      ensures Located(c', e)
    {
      if j :| 0 <= j < |c.pendingOutbox| && c.pendingOutbox[j].effectId == e {
        assert c'.pendingOutbox[j].effectId == e;
      }
    }
  }

  lemma AcceptanceStays(rs: seq<Receipt>, i: nat, ss: seq<S.Settlement>, first: nat, revision: nat,
                        digest: AggregateDigest, locations: S.Locations)
    requires i < |rs| && rs[i].Acceptance?
    ensures var rs' := S.SettledReceipts(rs, ss, first, revision, digest, locations);
      i < |rs'| && rs'[i] == rs[i]
  {
    hide S.SettleRef, S.SyncRef;
  }

  /** What a committed step of the core made of the checkpoint. */
  ghost predicate CoreSteps(c: Checkpoint, target: RuntimeId, c': Checkpoint) {
    exists capacity, decide, disposition :: H.StepsTo(c, target, capacity, decide, disposition, c')
  }

  /** Every committed step of the core keeps the acceptances and the effects. */
  lemma StepExtends(c: Checkpoint, target: RuntimeId, c': Checkpoint)
    requires Stored(c) && CoreSteps(c, target, c')
    ensures Extends(c, c')
  {
    hide Stored, Defers, S.Settled, Extends, AggregateOk, Commits, T.NewIds;
    var capacity, decide, disposition :| H.StepsTo(c, target, capacity, decide, disposition, c');
    if disposition == Deferred {
      var b :| AggregateOk(b) && Defers(c.root.aggregate, target, b) && c' == T.DeferredDocument(c, b);
      T.DeferSettles(c, target, b);
      SettledExtends(c, Retained(b), [], AggregateDigest(b), []);
    } else {
      var sel, r := SteppedBy(c, target, disposition, c');
      SteppedExtends(c, sel, r);
    }
  }

  lemma SteppedBy(c: Checkpoint, target: RuntimeId, disposition: Disposition, c': Checkpoint) returns (sel: Entry, r: StepResult)
    requires H.SettlesTo(c, target, disposition, c')
    ensures T.Stepping(c, sel, r) && AggregateOk(r.state) && c' == T.SteppedDocument(c, sel, r)
  {
    hide Stored, T.SteppedDocument;
    sel := c.root.aggregate.boxes[target].ready[0];
    r :| T.Stepping(c, sel, r) && r.disposition == disposition && c' == T.SteppedDocument(c, sel, r);
  }

  lemma SteppedExtends(c: Checkpoint, sel: Entry, r: StepResult)
    requires T.Stepping(c, sel, r) && AggregateOk(r.state)
    ensures Extends(c, T.SteppedDocument(c, sel, r))
  {
    hide Stored, AggregateOk, T.Stepping, S.Settled, Extends, T.StepSettlements, S.Settles;
    T.StepSettles(c, sel, r);
    SettledExtends(c, Retained(r.state), T.StepSettlements(sel, r, c.nextReceipt), AggregateDigest(r.state),
                   T.IntentsOf(r.emissions, c.revision + 1));
  }

  // ---------------------------------------------------------------- stored requests and answers

  /** Answers stay sound while reports are only appended and receipts stay. */
  lemma AnswersKept(d: Document, e: EffectId, r': EffectRecord, d': Document)
    requires AnswersOk(d) && e in d.records && RecordEvolves(d.records[e], r')
    requires d'.records == d.records[e := r'] && d'.requests == d.requests && d'.answers == d.answers
    ensures AnswersOk(d')
  {
    forall p | p in d.requests
      ensures p.0 in d'.records && 1 <= p.1 <= |d'.records[p.0].reports|
        && d'.records[p.0].reports[p.1 - 1] == ReportOf(d.requests[p])
    {
      assert d.records[p.0].reports <= d'.records[p.0].reports;
    }
  }

  lemma RequestAdded(d0: Document, q: ResultRequest, d': Document)
    requires AnswersOk(d0) && d'.records == d0.records && d'.answers == d0.answers
    requires d'.requests == d0.requests[(q.effect, q.fence) := q]
    requires q.effect in d0.records && 1 <= q.fence <= |d0.records[q.effect].reports|
    requires d0.records[q.effect].reports[q.fence - 1] == ReportOf(q)
    ensures AnswersOk(d')
  {}

  lemma AnswerAdded(d0: Document, e: EffectId, f: nat, a: ResultResponse, d': Document)
    requires AnswersOk(d0) && d'.records == d0.records && d'.requests == d0.requests
    requires d'.answers == d0.answers[(e, f) := a]
    requires e in d0.records
    requires var r := d0.records[e];
      || (r.receipt.Some? && r.outcome.Some? && f == r.outcome.value.fence)
      || (1 <= f <= |r.reports| && !r.reports[f - 1].kind.Ended?)
    ensures AnswersOk(d')
  {}

  // ---------------------------------------------------------------- the changes

  /** Everything the document's invariant says about one record. */
  ghost predicate RecordIs(root: string, d: Document, e: EffectId) {
    && e in d.records && RecordValid(d.checkpoint, e, d.records[e]) && RecordOk(d, d.records[e])
    && ClaimOk(root, d, e, d.records[e])
  }

  lemma RecordIn(root: string, d: Document, e: EffectId)
    requires DocumentInv(root, d) && e in d.records
    ensures RecordIs(root, d, e) && Stored(d.checkpoint) && AnswersOk(d) && d.pinned == CheckpointDigest(d.checkpoint)
    ensures d.checkpoint.rootInstance == root
  {
    hide Stored, AnswersOk, RecordValid, RecordOk, ClaimOk;
  }

  predicate Claimable(r: EffectRecord) { r.invocation in {Unclaimed, Ambiguous} }

  lemma NoOutcome(root: string, d: Document, e: EffectId)
    requires RecordIs(root, d, e) && !Decided(d.records[e].invocation)
    ensures d.records[e].outcome == None && d.records[e].receipt == None && !Prevented(d.records[e])
    ensures forall i | 0 <= i < |d.records[e].reports| :: !d.records[e].reports[i].kind.Ended?
  {
    hide Located;
  }

  lemma ClaimedRecord(root: string, d: Document, e: EffectId, k: Claim, r': EffectRecord)
    requires RecordIs(root, d, e) && Claimable(d.records[e])
    requires k.root == root && k.effect == e && k.token == d.records[e].token && k.fence == d.records[e].fence + 1 && k.active
    requires r' == d.records[e].(fence := k.fence, invocation := Leased)
    ensures RecordValid(d.checkpoint, e, r') && RecordOk(Claimed(d, e, k), r') && ClaimOk(root, Claimed(d, e, k), e, r')
    ensures RecordEvolves(d.records[e], r')
  {
    NoOutcome(root, d, e);
    hide Located;
  }

  lemma ClaimedKeeps(root: string, d: Document, e: EffectId, k: Claim)
    requires DocumentInv(root, d) && e in d.records && Claimable(d.records[e])
    requires k.root == root && k.effect == e && k.token == d.records[e].token && k.fence == d.records[e].fence + 1 && k.active
    ensures DocumentInv(root, Claimed(d, e, k)) && DocumentEvolves(d, Claimed(d, e, k))
  {
    hide DocumentInv, AnswersOk, RecordValid, RecordOk, ClaimOk, Stored, Extends, RecordEvolves, Located, DocumentEvolves;
    RecordIn(root, d, e);
    var d' := Claimed(d, e, k);
    var r' := d'.records[e];
    Same(d.checkpoint);
    ClaimedRecord(root, d, e, k, r');
    AnswersKept(d, e, r', d');
    ReplaceKeeps(root, d, e, r', d');
  }

  /** The request reports the live attempt. */
  predicate Reportable(d: Document, q: ResultRequest) {
    q.effect in d.records && d.records[q.effect].invocation == Leased && q.fence == d.records[q.effect].fence
  }

  /** A record that gained the report of its live attempt. */
  lemma Appended(r: EffectRecord, x: Report)
    requires ReportsExact(r) && r.invocation == Leased && x.fence == r.fence
    ensures var reports := r.reports + [x];
      && |reports| == r.fence && reports[r.fence - 1] == x
      && (forall i | 0 <= i < |reports| :: reports[i].fence == i + 1)
      && (forall i | 0 <= i < |r.reports| :: reports[i] == r.reports[i])
  {}

  lemma ReportRecord(root: string, d: Document, q: ResultRequest, r': EffectRecord)
    requires RecordIs(root, d, q.effect) && Reportable(d, q) && !q.kind.Ended?
    requires r' == ReportedRecord(d.records[q.effect], q)
    ensures RecordValid(d.checkpoint, q.effect, r') && RecordOk(WithReport(d, q), r')
    ensures ClaimOk(root, WithReport(d, q), q.effect, r') && RecordEvolves(d.records[q.effect], r')
  {
    NoOutcome(root, d, q.effect);
    Appended(d.records[q.effect], ReportOf(q));
    hide Located;
  }

  lemma ReportKeeps(root: string, d: Document, q: ResultRequest)
    requires DocumentInv(root, d) && Reportable(d, q) && !q.kind.Ended?
    ensures DocumentInv(root, WithReport(d, q)) && DocumentEvolves(d, WithReport(d, q))
  {
    hide DocumentInv, AnswersOk, RecordValid, OutcomeLast, CancelOk, ClaimOk, Stored, Extends, RecordEvolves, Located,
      DocumentEvolves;
    var e, d' := q.effect, WithReport(d, q);
    RecordIn(root, d, e);
    var r, r' := d.records[e], d'.records[e];
    Appended(r, ReportOf(q));
    Same(d.checkpoint);
    ReportRecord(root, d, q, r');
    var d0 := Replaced(d, e, r');
    var d1 := d0.(requests := d'.requests);
    AnswersKept(d, e, r', d0);
    RequestAdded(d0, q, d1);
    AnswerAdded(d1, e, q.fence, d'.answers[(e, q.fence)], d');
    hide RecordOk;
    ReplaceKeeps(root, d, e, r', d');
  }

  lemma OutcomeRecord(root: string, d: Document, q: ResultRequest, r': EffectRecord)
    requires RecordIs(root, d, q.effect) && Reportable(d, q)
    requires q.kind.Ended? && q.kind.kind in d.records[q.effect].mapping
    requires r' == DecidedRecord(q.effect, d.records[q.effect], q)
    ensures RecordValid(d.checkpoint, q.effect, r') && RecordOk(WithOutcome(d, q), r')
    ensures ClaimOk(root, WithOutcome(d, q), q.effect, r') && RecordEvolves(d.records[q.effect], r')
  {
    NoOutcome(root, d, q.effect);
    Appended(d.records[q.effect], ReportOf(q));
    hide Located;
    assert r'.reports[q.fence - 1] == Report(q.fence, Ended(q.kind.kind), q.payload);
  }

  lemma OutcomeKeeps(root: string, d: Document, q: ResultRequest)
    requires DocumentInv(root, d) && Reportable(d, q) && q.kind.Ended? && q.kind.kind in d.records[q.effect].mapping
    ensures DocumentInv(root, WithOutcome(d, q)) && DocumentEvolves(d, WithOutcome(d, q))
  {
    hide DocumentInv, AnswersOk, RecordValid, OutcomeLast, CancelOk, ClaimOk, Stored, Extends, RecordEvolves, Located,
      DocumentEvolves;
    var e, d' := q.effect, WithOutcome(d, q);
    RecordIn(root, d, e);
    var r' := d'.records[e];
    Appended(d.records[e], ReportOf(q));
    Same(d.checkpoint);
    OutcomeRecord(root, d, q, r');
    AnswersKept(d, e, r', Replaced(d, e, r'));
    RequestAdded(Replaced(d, e, r'), q, d');
    hide RecordOk;
    ReplaceKeeps(root, d, e, r', d');
  }

  lemma LossRecord(root: string, d: Document, e: EffectId, r': EffectRecord)
    requires RecordIs(root, d, e) && d.records[e].invocation == Leased && e in d.claims
    requires r' == LostRecord(d.records[e])
    ensures RecordValid(d.checkpoint, e, r') && RecordOk(WithLoss(d, e), r') && ClaimOk(root, WithLoss(d, e), e, r')
    ensures RecordEvolves(d.records[e], r')
  {
    NoOutcome(root, d, e);
    Appended(d.records[e], Report(d.records[e].fence, AmbiguousReport, ""));
    hide Located;
  }

  lemma LossKeeps(root: string, d: Document, e: EffectId)
    requires DocumentInv(root, d) && e in d.records && d.records[e].invocation == Leased
    ensures e in d.claims
    ensures DocumentInv(root, WithLoss(d, e)) && DocumentEvolves(d, WithLoss(d, e))
  {
    hide DocumentInv, AnswersOk, RecordValid, RecordOk, Stored, Extends, RecordEvolves, Located, DocumentEvolves;
    RecordIn(root, d, e);
    var d' := WithLoss(d, e);
    var r' := d'.records[e];
    Same(d.checkpoint);
    LossRecord(root, d, e, r');
    AnswersKept(d, e, r', d');
    hide ClaimOk;
    ReplaceKeeps(root, d, e, r', d');
  }

  // ---------------------------------------------------------------- admission of a result

  /** The checkpoint that accepts exactly this delivery. */
  ghost predicate AdmitsOne(c: Checkpoint, x: Delivery, c': Checkpoint) {
    c.root.Retained? && A.Admissible(c, [x], AcceptingAll(c.root.aggregate, [x])) && c' == AdmittedOne(c, x)
  }

  function AdmittedOne(c: Checkpoint, x: Delivery): Checkpoint
    requires c.root.Retained?
  {
    A.AdmittedDocument(c, [x], AcceptingAll(c.root.aggregate, [x]))
  }

  lemma AdmitsOneExtends(c: Checkpoint, x: Delivery, c': Checkpoint)
    requires Stored(c) && AdmitsOne(c, x, c') && x.envelope.source == Host
    ensures Extends(c, c') && |c'.receipts| == |c.receipts| + 1
    ensures Receives(c, x, c'.receipts[|c.receipts|]) && c'.receipts[|c.receipts|] in c'.receipts
  {
    hide Stored, A.Admissible;
    var b := AcceptingAll(c.root.aggregate, [x]);
    AdmittedStored(c, x, b);
    AdmittedShape(c, x, b, c');
  }

  lemma AdmittedShape(c: Checkpoint, x: Delivery, b: Aggregate, c': Checkpoint)
    requires c.root.Retained? && c' == A.AdmittedDocument(c, [x], b)
    ensures |c'.receipts| == |c.receipts| + 1 && Receives(c, x, c'.receipts[|c.receipts|])
    ensures c'.rootInstance == c.rootInstance
    ensures forall y | y in c.receipts && y.Acceptance? :: y in c'.receipts
    ensures forall e | Located(c, e) :: Located(c', e)
  {
    assert [x][0] == x;
  }

  lemma AdmittedStored(c: Checkpoint, x: Delivery, b: Aggregate)
    requires Stored(c) && A.Admissible(c, [x], b) && x.envelope.source == Host
    ensures Stored(A.AdmittedDocument(c, [x], b))
  {
    hide Stored, A.Admissible, A.AdmittedDocument;
    A.AdmissionStored(c, [x], b);
    assert forall i | 0 <= i < |[x]| :: [x][i].envelope.source == Host;
  }

  /** The acceptance receipt of a delivery. */
  ghost predicate Receives(c: Checkpoint, x: Delivery, receipt: Receipt) {
    && receipt.Acceptance? && receipt.eventId == x.envelope.eventId && receipt.mode == x.mode
    && receipt.request == EntryDigest(c.rootInstance, x.mode, x.envelope)
  }

  ghost predicate Admissible(root: string, d: Document, e: EffectId, c: Checkpoint) {
    && e in d.records && d.records[e].invocation == OutcomeRecorded && d.records[e].outcome.Some?
    && d.records[e].outcome.value.kind in d.records[e].mapping
    && AdmitsOne(d.checkpoint,
         ResultDelivery(root, e, d.records[e], d.records[e].outcome.value.kind, d.records[e].outcome.value.payload), c)
  }

  lemma AdmissionRecord(root: string, d: Document, e: EffectId, c: Checkpoint, receipt: Receipt, r': EffectRecord, d': Document)
    requires RecordIs(root, d, e) && d.checkpoint.rootInstance == root && Extends(d.checkpoint, c) && receipt in c.receipts
    requires d.records[e].invocation == OutcomeRecorded && d.records[e].outcome.Some?
    requires d.records[e].outcome.value.kind in d.records[e].mapping
    requires Receives(d.checkpoint, ResultDelivery(root, e, d.records[e], d.records[e].outcome.value.kind,
                                                   d.records[e].outcome.value.payload), receipt)
    requires r' == d.records[e].(receipt := Some(receipt), invocation := ResultAdmitted)
    requires d'.responses == d.responses && d'.claims == d.claims
    ensures RecordValid(c, e, r') && RecordOk(d', r') && ClaimOk(root, d', e, r') && RecordEvolves(d.records[e], r')
  {
    hide Stored;
    assert Located(c, e) by { assert Located(d.checkpoint, e); }
    hide Located;
  }

  /** Admitting a recorded outcome keeps the document, whatever else the journal holds. */
  lemma AdmissionKeeps(root: string, d: Document, e: EffectId, c: Checkpoint)
    requires DocumentInv(root, d) && Admissible(root, d, e, c)
    ensures |c.receipts| > 0
    ensures DocumentInv(root, WithAdmission(d, e, c)) && DocumentEvolves(d, WithAdmission(d, e, c))
  {
    hide DocumentInv, AnswersOk, RecordValid, RecordOk, ClaimOk, Stored, Extends, RecordEvolves, Located, DocumentEvolves,
      AdmitsOne;
    RecordIn(root, d, e);
    var r := d.records[e];
    var x := ResultDelivery(root, e, r, r.outcome.value.kind, r.outcome.value.payload);
    AdmitsOneExtends(d.checkpoint, x, c);
    var d' := WithAdmission(d, e, c);
    var r' := d'.records[e];
    AdmissionRecord(root, d, e, c, c.receipts[|d.checkpoint.receipts|], r', d');
    AnswersKept(d, e, r', d'.(answers := d.answers));
    AnswerAdded(d'.(answers := d.answers), e, r.outcome.value.fence, d'.answers[(e, r.outcome.value.fence)], d');
    hide Receives;
    ReplaceKeeps(root, d, e, r', d');
  }

  // ---------------------------------------------------------------- cancellation

  predicate Preventable(d: Document, q: CancelRequest) {
    && q.effect in d.records && d.records[q.effect].invocation == Unclaimed && d.records[q.effect].fence == 0
    && Cancelled in d.records[q.effect].mapping
  }

  lemma CancelRecord(root: string, d: Document, q: CancelRequest, r': EffectRecord)
    requires RecordIs(root, d, q.effect) && Preventable(d, q) && r' == CancelledRecord(q.effect, d.records[q.effect], q)
    ensures RecordValid(d.checkpoint, q.effect, r') && RecordOk(WithCancellation(d, q, r'), r')
    ensures ClaimOk(root, WithCancellation(d, q, r'), q.effect, r') && RecordEvolves(d.records[q.effect], r')
  {
    NoOutcome(root, d, q.effect);
    hide Located;
  }

  lemma PreventKeeps(root: string, d: Document, q: CancelRequest)
    requires DocumentInv(root, d) && Preventable(d, q)
    ensures var d' := WithCancellation(d, q, CancelledRecord(q.effect, d.records[q.effect], q));
      DocumentInv(root, d') && DocumentEvolves(d, d')
  {
    hide DocumentInv, AnswersOk, RecordValid, RecordOk, ClaimOk, Stored, Extends, RecordEvolves, Located, DocumentEvolves;
    var e, r' := q.effect, CancelledRecord(q.effect, d.records[q.effect], q);
    var d' := WithCancellation(d, q, r');
    RecordIn(root, d, e);
    Same(d.checkpoint);
    CancelRecord(root, d, q, r');
    AnswersKept(d, e, r', d');
    ReplaceKeeps(root, d, e, r', d');
  }

  lemma LateRecord(root: string, d: Document, q: CancelRequest, r': EffectRecord)
    requires RecordIs(root, d, q.effect) && !Prevented(d.records[q.effect])
    requires r' == LateCancelRecord(d.records[q.effect], q)
    ensures RecordValid(d.checkpoint, q.effect, r') && RecordOk(WithCancellation(d, q, r'), r')
    ensures ClaimOk(root, WithCancellation(d, q, r'), q.effect, r') && RecordEvolves(d.records[q.effect], r')
  {
    hide Located;
  }

  lemma LateCancelKeeps(root: string, d: Document, q: CancelRequest)
    requires DocumentInv(root, d) && q.effect in d.records && !Prevented(d.records[q.effect])
    ensures var d' := WithCancellation(d, q, LateCancelRecord(d.records[q.effect], q));
      DocumentInv(root, d') && DocumentEvolves(d, d')
  {
    hide DocumentInv, AnswersOk, RecordValid, RecordOk, ClaimOk, Stored, Extends, RecordEvolves, Located, DocumentEvolves;
    var e, r' := q.effect, LateCancelRecord(d.records[q.effect], q);
    var d' := WithCancellation(d, q, r');
    RecordIn(root, d, e);
    Same(d.checkpoint);
    LateRecord(root, d, q, r');
    AnswersKept(d, e, r', d');
    ReplaceKeeps(root, d, e, r', d');
  }

  /** A late cancellation is refused by the journal check at commit exactly when an earlier
      cancellation had prevented the start: nothing before the commit refuses it. */
  lemma LateCancelValid(root: string, d: Document, q: CancelRequest)
    requires DocumentInv(root, d) && q.effect in d.records
    ensures JournalValid(WithCancellation(d, q, LateCancelRecord(d.records[q.effect], q))) <==> !Prevented(d.records[q.effect])
  {
    hide DocumentInv, Stored, Located, AnswersOk;
    var r := d.records[q.effect];
    var d' := WithCancellation(d, q, LateCancelRecord(r, q));
    RecordIn(root, d, q.effect);
    if Prevented(r) {
      assert r.reports == [] && d'.records[q.effect].outcome == r.outcome;
      assert !OutcomeOk(q.effect, d'.records[q.effect]);
    } else {
      hide RecordValid;
      LateCancelKeeps(root, d, q);
      DocumentParts(root, d');
    }
  }

  // ---------------------------------------------------------------- the checkpoint moves on

  lemma CheckpointKeeps(root: string, d: Document, c: Checkpoint)
    requires DocumentInv(root, d) && Extends(d.checkpoint, c)
    ensures DocumentInv(root, WithCheckpoint(d, c)) && DocumentEvolves(d, WithCheckpoint(d, c))
  {
    hide Stored, RecordValid, Located;
    var d' := WithCheckpoint(d, c);
    forall e | e in d.records
      ensures RecordValid(c, e, d.records[e]) && RecordOk(d', d.records[e]) && ClaimOk(root, d', e, d.records[e])
    {
      StaysValid(d.checkpoint, c, e, d.records[e]);
      assert RecordOk(d, d.records[e]) && ClaimOk(root, d, e, d.records[e]);
    }
  }

  lemma TerminalizedExtends(c: Checkpoint, i: nat, outcome: string)
    requires Stored(c) && i < |c.pendingOutbox|
    ensures Extends(c, O.TerminalizedDocument(c, i, outcome))
  {
    var c' := O.TerminalizedDocument(c, i, outcome);
    O.TerminalizeStored(c, i, outcome);
    hide Stored;
    forall e | Located(c, e)
      ensures Located(c', e)
    {
      if j :| 0 <= j < |c.pendingOutbox| && c.pendingOutbox[j].effectId == e {
        if j == i {
          assert c'.terminalOutbox[|c.terminalOutbox|].effectId == e;
        } else {
          O.RemovedIndex(c.pendingOutbox, i, j);
          assert c'.pendingOutbox[if j < i then j else j - 1].effectId == e;
        }
      } else if j :| 0 <= j < |c.terminalOutbox| && c.terminalOutbox[j].effectId == e {
        assert c'.terminalOutbox[j].effectId == e;
      }
    }
  }

  // ---------------------------------------------------------------- production

  /** The journal after a production: the old records, and a fresh one for each new effect. */
  predicate ProducesRecords(d: Document, c: Checkpoint, blank: EffectRecord, records: map<EffectId, EffectRecord>) {
    && (forall e | e in d.records :: e in records && records[e] == d.records[e])
    && (forall i | 0 <= i < |c.pendingOutbox| :: c.pendingOutbox[i].effectId in records)
    && (forall e | e in records && e !in d.records ::
          && records[e] == blank
          && exists i | 0 <= i < |c.pendingOutbox| :: c.pendingOutbox[i].effectId == e)
  }

  lemma ProductionKeeps(root: string, d: Document, q: ProduceRequest, c: Checkpoint, route: Route,
                        records: map<EffectId, EffectRecord>)
    requires DocumentInv(root, d) && Extends(d.checkpoint, c)
    requires ProducesRecords(d, c, NewRecord(q.token, route), records)
    ensures DocumentInv(root, WithProduction(d, q, c, records)) && DocumentEvolves(d, WithProduction(d, q, c, records))
  {
    hide Stored, RecordValid, RecordOk, ClaimOk, Located;
    var d' := WithProduction(d, q, c, records);
    forall e | e in records
      ensures RecordValid(c, e, records[e]) && RecordOk(d', records[e]) && ClaimOk(root, d', e, records[e])
    {
      if e in d.records {
        StaysValid(d.checkpoint, c, e, d.records[e]);
        RecordIn(root, d, e);
        ProducedOld(root, d, d', e);
      } else {
        ProducedNew(root, d, q, c, route, d', e, records[e]);
      }
    }
  }

  lemma ProducedOld(root: string, d: Document, d': Document, e: EffectId)
    requires RecordIs(root, d, e) && d.responses.Keys <= d'.responses.Keys && d'.claims == d.claims
    ensures RecordOk(d', d.records[e]) && ClaimOk(root, d', e, d.records[e])
  {
    hide Located;
  }

  lemma ProducedNew(root: string, d: Document, q: ProduceRequest, c: Checkpoint, route: Route, d': Document,
                    e: EffectId, r: EffectRecord)
    requires ClaimsOk(root, d) && e !in d.records && d'.claims == d.claims && r == NewRecord(q.token, route)
    requires exists i | 0 <= i < |c.pendingOutbox| :: c.pendingOutbox[i].effectId == e
    ensures RecordValid(c, e, r) && RecordOk(d', r) && ClaimOk(root, d', e, r)
  {}
}
