/** Committed native effects (`effects.py`): the journal of effect invocations, the leases that
    workers hold on them, and the scope-authority ledger that mirrors both (`authority.py`).

    Identities and digests are the tuples they are taken over. A journal is a list sorted by
    unique effect id; here it is a map keyed by that id. */
module Effects {
  import opened Options
  import opened Queueing
  import opened CheckpointV1
  import A = CheckpointAdmission

  type EffectId = string

  /** Outcomes end an invocation; the other two reports leave it to be retried or reconciled. */
  datatype Kind = Succeeded | DomainRejected | TerminalFailure | Cancelled

  datatype ReportKind = Ended(kind: Kind) | RetryableFailure | AmbiguousReport

  datatype Report = Report(fence: nat, kind: ReportKind, payload: string)

  datatype Invocation = Unclaimed | Leased | Ambiguous | OutcomeRecorded | ResultAdmitted | Closed

  datatype Outcome = Outcome(kind: Kind, payload: string, fence: nat)

  datatype CancelState = PreventedStart | ReconciliationRequired

  datatype Cancellation = Cancellation(operation: string, reason: string, state: CancelState)

  datatype Slot = Slot(event: string, name: string)

  datatype EffectRecord = EffectRecord(
    token: string, mapping: map<Kind, Slot>, target: RuntimeId, deduplicates: bool,
    fence: nat, reports: seq<Report>, invocation: Invocation,
    outcome: Option<Outcome>, event: Option<EventId>, receipt: Option<Receipt>, cancellation: Option<Cancellation>)

  datatype Claim = Claim(
    root: string, effect: EffectId, token: string, epoch: nat, fence: nat, principal: string, expires: int, active: bool)

  datatype ResultRequest = ResultRequest(effect: EffectId, token: string, fence: nat, kind: ReportKind, payload: string)

  datatype ResultStatus = CommittedResult | ReportRecorded | OutcomeOnly

  datatype ResultResponse = ResultResponse(
    status: ResultStatus, fence: nat, report: Option<Report>, outcome: Option<Outcome>, event: Option<EventId>,
    receipt: Option<Receipt>, checkpointRevision: nat, journalRevision: nat)

  datatype CancelRequest = CancelRequest(operation: string, effect: EffectId, reason: string, payload: string)

  datatype ProduceRequest = ProduceRequest(operation: string, target: RuntimeId, token: string)

  /** Stored answers, with the request they answered. */
  datatype OperationResponse =
    | Produced(request: ProduceRequest, checkpointRevision: nat)
    | CancelAnswered(cancel: CancelRequest, cancellation: Cancellation, outcome: Option<Outcome>,
                     event: Option<EventId>, journalRevision: nat)

  /** One row: a checkpoint with its journal, claims and stored answers. */
  datatype Document = Document(
    checkpoint: Checkpoint, records: map<EffectId, EffectRecord>, revision: nat, pinned: CheckpointDigest,
    claims: map<EffectId, Claim>, requests: map<(EffectId, nat), ResultRequest>,
    answers: map<(EffectId, nat), ResultResponse>, responses: map<string, OperationResponse>)

  datatype ScopeState = Active | Frozen | InDoubt

  datatype Binding = Binding(root: string, token: string)

  datatype Ledger = Ledger(
    state: ScopeState, epoch: nat, generation: nat, roots: set<string>,
    fences: map<EffectId, nat>, work: map<EffectId, Binding>, active: map<EffectId, Claim>,
    history: set<Claim>, checkpoints: set<CheckpointDigest>)

  /** A scope: its documents, its ledger, and every handler invocation so far. */
  datatype Scope = Scope(documents: map<string, Document>, ledger: Ledger, invoked: set<(EffectId, nat)>)

  datatype EffectError =
    | WrongRoot | StaleAttemptFence | StaleScopeAuthority | UnauthorizedScope | EffectNotOutstanding
    | EffectResultConflict | OperationIdConflict | InvalidHostRequest | InvalidEffectJournal
    | ScopeGenerationConflict | HostCapabilityMismatch | CoreRefused

  datatype Result<T> = Ok(value: T) | Err(error: EffectError)

  // ---------------------------------------------------------------- journal validation

  function ResultEvent(e: EffectId, slot: Slot): EventId {
    "result:" + e + ":" + slot.name
  }

  function ResultEnvelope(e: EffectId, r: EffectRecord, kind: Kind, payload: string): Envelope
    requires kind in r.mapping
  {
    var id := ResultEvent(e, r.mapping[kind]);
    Envelope(r.mapping[kind].event, id, id, Host, r.target, payload)
  }

  /** The delivery that admits a result, addressed to the pinned target runtime. */
  function ResultDelivery(root: string, e: EffectId, r: EffectRecord, kind: Kind, payload: string): Delivery
    requires kind in r.mapping
  {
    var envelope := ResultEnvelope(e, r, kind, payload);
    Delivery(Input, envelope, EntryDigest(root, Input, envelope))
  }

  predicate Located(c: Checkpoint, e: EffectId) {
    || (exists i | 0 <= i < |c.pendingOutbox| :: c.pendingOutbox[i].effectId == e)
    || (exists i | 0 <= i < |c.terminalOutbox| :: c.terminalOutbox[i].effectId == e)
    || (exists i | 0 <= i < |c.outboxTombstones| :: c.outboxTombstones[i].effectId == e)
  }

  predicate Decided(s: Invocation) { s in {OutcomeRecorded, ResultAdmitted, Closed} }

  predicate FencesAscend(r: EffectRecord) {
    && (forall i, j | 0 <= i < j < |r.reports| :: r.reports[i].fence < r.reports[j].fence)
    && (forall i | 0 <= i < |r.reports| :: r.reports[i].fence <= r.fence)
  }

  predicate StagesOk(c: Checkpoint, e: EffectId, r: EffectRecord) {
    && (!Decided(r.invocation) ==> r.outcome == None && r.event == None && r.receipt == None)
    && (Decided(r.invocation) ==> r.outcome.Some? && r.event.Some?)
    && (r.invocation == OutcomeRecorded ==> r.receipt == None)
    && (r.invocation in {ResultAdmitted, Closed} ==>
          && r.receipt.Some? && r.receipt.value in c.receipts
          && r.receipt.value.Acceptance? && r.receipt.value.eventId == r.event.value && r.receipt.value.mode == Input
          && r.outcome.value.kind in r.mapping
          && r.receipt.value.request
             == ResultDelivery(c.rootInstance, e, r, r.outcome.value.kind, r.outcome.value.payload).digest)
  }

  /** Cancellation won before any claim: the one outcome that no report backs. */
  predicate PreclaimCancel(r: EffectRecord) {
    && r.outcome.Some? && r.outcome.value.kind == Cancelled && r.outcome.value.fence == 0 && r.fence == 0
    && r.cancellation.Some? && r.cancellation.value.state == PreventedStart
  }

  predicate OutcomeOk(e: EffectId, r: EffectRecord) {
    r.outcome.Some? ==>
      && r.outcome.value.kind in r.mapping
      && r.event == Some(ResultEvent(e, r.mapping[r.outcome.value.kind]))
      && (if PreclaimCancel(r) then r.reports == []
          else exists i | 0 <= i < |r.reports| ::
            r.reports[i] == Report(r.outcome.value.fence, Ended(r.outcome.value.kind), r.outcome.value.payload))
  }

  predicate RecordValid(c: Checkpoint, e: EffectId, r: EffectRecord) {
    Located(c, e) && FencesAscend(r) && StagesOk(c, e, r) && OutcomeOk(e, r)
  }

  /** `validate_journal`. */
  predicate JournalValid(d: Document) {
    && d.pinned == CheckpointDigest(d.checkpoint)
    && forall e | e in d.records :: RecordValid(d.checkpoint, e, d.records[e])
  }

  /** `_validate_authority_pair`. */
  predicate PairValid(l: Ledger, root: string, d: Document) {
    && root in l.roots && CheckpointDigest(d.checkpoint) in l.checkpoints
    && forall e | e in d.records ::
         && e in l.work && l.work[e] == Binding(root, d.records[e].token)
         && e in l.fences && l.fences[e] == d.records[e].fence
         && (forall k | k in l.history && k.effect == e :: k.fence <= d.records[e].fence)
         && (if d.records[e].invocation == Leased
             then e in l.active && e in d.claims && l.active[e] == d.claims[e]
             else e !in l.active)
  }

  // ---------------------------------------------------------------- changes of a document

  function Replaced(d: Document, e: EffectId, r: EffectRecord): Document {
    d.(records := d.records[e := r], revision := d.revision + 1)
  }

  /** `_issue_effect_claim`: the next fence, leased. */
  function Claimed(d: Document, e: EffectId, k: Claim): Document
    requires e in d.records
  {
    Replaced(d, e, d.records[e].(fence := k.fence, invocation := Leased)).(claims := d.claims[e := k])
  }

  function ReportOf(q: ResultRequest): Report {
    Report(q.fence, q.kind, q.payload)
  }

  function ReportedRecord(r: EffectRecord, q: ResultRequest): EffectRecord {
    r.(reports := r.reports + [ReportOf(q)], invocation := if q.kind == RetryableFailure then Unclaimed else Ambiguous)
  }

  /** A report that is no outcome ends the lease and is answered at once. */
  function WithReport(d: Document, q: ResultRequest): Document
    requires q.effect in d.records
  {
    var d' := Replaced(d, q.effect, ReportedRecord(d.records[q.effect], q));
    d'.(requests := d.requests[(q.effect, q.fence) := q],
        answers := d.answers[(q.effect, q.fence) := ResultResponse(ReportRecorded, d.records[q.effect].fence,
          Some(ReportOf(q)), None, None, None, d.checkpoint.revision, d'.revision)])
  }

  function DecidedRecord(e: EffectId, r: EffectRecord, q: ResultRequest): EffectRecord
    requires q.kind.Ended? && q.kind.kind in r.mapping
  {
    r.(reports := r.reports + [ReportOf(q)], outcome := Some(Outcome(q.kind.kind, q.payload, q.fence)),
       event := Some(ResultEvent(e, r.mapping[q.kind.kind])), invocation := OutcomeRecorded)
  }

  /** An outcome becomes durable before the result is admitted. */
  function WithOutcome(d: Document, q: ResultRequest): Document
    requires q.effect in d.records && q.kind.Ended? && q.kind.kind in d.records[q.effect].mapping
  {
    Replaced(d, q.effect, DecidedRecord(q.effect, d.records[q.effect], q)).(requests := d.requests[(q.effect, q.fence) := q])
  }

  function CommittedResponse(d: Document, r: EffectRecord): ResultResponse {
    ResultResponse(CommittedResult, r.fence, None, r.outcome, r.event, r.receipt, d.checkpoint.revision, d.revision)
  }

  /** `_admit`: the checkpoint accepts the result delivery and the record keeps its receipt. */
  function WithAdmission(d: Document, e: EffectId, c: Checkpoint): Document
    requires e in d.records && d.records[e].outcome.Some? && |c.receipts| > 0
  {
    var r := d.records[e].(receipt := Some(c.receipts[|c.receipts| - 1]), invocation := ResultAdmitted);
    var d' := Replaced(d, e, r).(checkpoint := c, pinned := CheckpointDigest(c));
    d'.(answers := d.answers[(e, r.outcome.value.fence) := CommittedResponse(d', r)])
  }

  function LostRecord(r: EffectRecord): EffectRecord {
    r.(reports := r.reports + [Report(r.fence, AmbiguousReport, "")], invocation := Ambiguous)
  }

  /** `recover` of a lease whose worker disappeared. */
  function WithLoss(d: Document, e: EffectId): Document
    requires e in d.records && e in d.claims
  {
    Replaced(d, e, LostRecord(d.records[e])).(claims := d.claims[e := d.claims[e].(active := false)])
  }

  function CancelledRecord(e: EffectId, r: EffectRecord, q: CancelRequest): EffectRecord
    requires Cancelled in r.mapping
  {
    r.(outcome := Some(Outcome(Cancelled, q.payload, 0)), event := Some(ResultEvent(e, r.mapping[Cancelled])),
       invocation := OutcomeRecorded, cancellation := Some(Cancellation(q.operation, q.reason, PreventedStart)))
  }

  function LateCancelRecord(r: EffectRecord, q: CancelRequest): EffectRecord {
    r.(cancellation := Some(Cancellation(q.operation, q.reason, ReconciliationRequired)))
  }

  /** `cancel`, once the record's new cancellation is decided. */
  function WithCancellation(d: Document, q: CancelRequest, r: EffectRecord): Document
    requires r.cancellation.Some?
  {
    var d' := Replaced(d, q.effect, r);
    var prevented := r.cancellation.value.state == PreventedStart;
    d'.(responses := d.responses[q.operation := CancelAnswered(q, r.cancellation.value,
      if prevented then r.outcome else None, if prevented then r.event else None, d'.revision)])
  }

  /** `terminalize_outbox`: the adapter accepted the effect; the invocation goes on. */
  function WithCheckpoint(d: Document, c: Checkpoint): Document {
    d.(checkpoint := c, pinned := CheckpointDigest(c), revision := d.revision + 1)
  }

  function NewRecord(token: string, route: Route): EffectRecord {
    EffectRecord(token, route.mapping, route.target, route.deduplicates, 0, [], Unclaimed, None, None, None, None)
  }

  datatype Route = Route(generation: nat, mapping: map<Kind, Slot>, target: RuntimeId, deduplicates: bool)

  /** `produce`: the stepped checkpoint, a record for every effect the journal did not have, and
      the stored answer. */
  function WithProduction(d: Document, q: ProduceRequest, c: Checkpoint, records: map<EffectId, EffectRecord>): Document {
    d.(checkpoint := c, pinned := CheckpointDigest(c), records := records, revision := d.revision + 1,
       responses := d.responses[q.operation := Produced(q, c.revision)])
  }

  // ---------------------------------------------------------------- the ledger's mirror

  predicate MirrorRefuses(l: Ledger, root: string, d: Document) {
    exists e | e in d.records ::
      || (e in l.work && l.work[e] != Binding(root, d.records[e].token))
      || (e in l.fences && d.records[e].fence < l.fences[e])
  }

  function ClaimsOf(d: Document): set<Claim> {
    set e | e in d.claims :: d.claims[e]
  }

  /** `_mirror_authority`: what the ledger holds after a change of one document. */
  function Mirrored(l: Ledger, root: string, d: Document, advance: bool): Ledger {
    l.(work := l.work + (map e | e in d.records :: Binding(root, d.records[e].token)),
       fences := l.fences + (map e | e in d.records :: d.records[e].fence),
       active := (l.active - d.records.Keys)
         + (map e | e in d.records && e in d.claims && d.records[e].invocation == Leased :: d.claims[e]),
       history := l.history + ClaimsOf(d),
       checkpoints := l.checkpoints + {CheckpointDigest(d.checkpoint)},
       generation := if advance then l.generation + 1 else l.generation)
  }

  function Committed(s: Scope, root: string, d: Document): Scope {
    s.(documents := s.documents[root := d], ledger := Mirrored(s.ledger, root, d, true))
  }
}
