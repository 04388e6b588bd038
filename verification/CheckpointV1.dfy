/** The version-1 execution checkpoint of `checkpoint_v1.py`: a revisioned document that keeps
    the aggregate together with operation receipts, event tombstones and outbox records, and
    the relation that every stored checkpoint must satisfy. */
module CheckpointV1 {
  import opened Options
  import opened Queueing

  datatype AggregateDigest = AggregateDigest(aggregate: Aggregate)

  datatype TerminalDisposition = Stepped(disposition: Disposition) | DisposedFor(reason: Reason) | RootTombstoned

  /** One entry of a receipt's `emission_references`. */
  datatype Reference =
    | InternalMailbox(index: nat, eventId: EventId, acceptance: nat, queue: nat)
    | InternalTerminal(index: nat, eventId: EventId, acceptance: nat, terminal: nat)
    | ExternalOutbox(index: nat, effectId: string)

  datatype Receipt =
    | Creation(sequence: nat, creationId: string, revision: nat, digest: AggregateDigest, references: seq<Reference>)
    | Acceptance(sequence: nat, eventId: EventId, request: EntryDigest, acceptance: nat, revision: nat, mode: Mode)
    | EventTerminal(sequence: nat, eventId: EventId, request: EntryDigest, acceptance: nat, finalQueue: nat,
                    revision: nat, digest: AggregateDigest, disposition: TerminalDisposition,
                    references: seq<Reference>)

  datatype EventTombstone = EventTombstone(
    eventId: EventId, request: EntryDigest, acceptance: nat, terminal: nat, disposition: TerminalDisposition)

  datatype Root =
    | Retained(aggregate: Aggregate)
    | TombstonedRoot(rootRuntime: RuntimeId, creationId: string, terminalStatus: Status,
                     finalDigest: AggregateDigest, operationId: string)

  datatype PendingIntent = PendingIntent(effectId: string, stateRevision: nat, delivery: string)

  datatype TerminalIntent = TerminalIntent(sequence: nat, effectId: string, revision: nat, outcome: string)

  datatype Retention = Permanent | Bounded(policy: string)

  /** `migration_audit_records` is not part of the model: no operation below writes it. */
  datatype Checkpoint = Checkpoint(
    rootInstance: string, revision: nat, root: Root, retention: Retention, cutoff: Option<nat>,
    nextReceipt: nat, receipts: seq<Receipt>, tombstones: seq<EventTombstone>,
    pendingOutbox: seq<PendingIntent>, nextTerminal: nat,
    terminalOutbox: seq<TerminalIntent>, outboxTombstones: seq<TerminalIntent>)

  datatype CheckpointDigest = CheckpointDigest(checkpoint: Checkpoint)

  // ---------------------------------------------------------------- reading a document

  function References(r: Receipt): seq<Reference> {
    if r.Acceptance? then [] else r.references
  }

  function FirstRetained(cutoff: Option<nat>): nat {
    if cutoff.None? then 1 else cutoff.value + 1
  }

  function RetainedCount(next: nat, first: nat): nat {
    if first <= next then next - first else 0
  }

  /** The entry waits in a mailbox of the retained aggregate. */
  ghost predicate Waits(d: Checkpoint, x: Entry) {
    d.root.Retained? && Pending(d.root.aggregate, x)
  }

  ghost predicate WaitsFor(d: Checkpoint, e: EventId) {
    exists x :: Waits(d, x) && x.envelope.eventId == e
  }

  predicate AcceptedAt(d: Checkpoint, i: int, e: EventId) {
    0 <= i < |d.receipts| && d.receipts[i].Acceptance? && d.receipts[i].eventId == e
  }

  predicate TerminalAt(d: Checkpoint, i: int, e: EventId) {
    0 <= i < |d.receipts| && d.receipts[i].EventTerminal? && d.receipts[i].eventId == e
  }

  predicate TombstoneAt(d: Checkpoint, t: int, e: EventId) {
    0 <= t < |d.tombstones| && d.tombstones[t].eventId == e
  }

  predicate RefAt(d: Checkpoint, i: int, k: int, ref: Reference) {
    0 <= i < |d.receipts| && 0 <= k < |References(d.receipts[i])| && References(d.receipts[i])[k] == ref
  }

  ghost predicate Accepted(d: Checkpoint, e: EventId) { exists i :: AcceptedAt(d, i, e) }

  ghost predicate Terminated(d: Checkpoint, e: EventId) { exists i :: TerminalAt(d, i, e) }

  ghost predicate Buried(d: Checkpoint, e: EventId) { exists t :: TombstoneAt(d, t, e) }

  predicate MailboxRefFor(ref: Reference, e: EventId) { ref.InternalMailbox? && ref.eventId == e }

  predicate TerminalRefFor(ref: Reference, e: EventId) { ref.InternalTerminal? && ref.eventId == e }

  ghost predicate HasMailboxRef(d: Checkpoint, e: EventId) {
    exists i, k, ref :: RefAt(d, i, k, ref) && MailboxRefFor(ref, e)
  }

  ghost predicate HasTerminalRef(d: Checkpoint, e: EventId) {
    exists i, k, ref :: RefAt(d, i, k, ref) && TerminalRefFor(ref, e)
  }

  function CurrentDigest(d: Checkpoint): AggregateDigest {
    match d.root
    case Retained(a) => AggregateDigest(a)
    case TombstonedRoot(_, _, _, digest, _) => digest
  }

  // ---------------------------------------------------------------- the relation

  /** Receipt zero is always kept; the others are the consecutive ones above the cutoff. */
  ghost predicate ReceiptsContiguous(d: Checkpoint) {
    var first := FirstRetained(d.cutoff);
    && |d.receipts| == 1 + RetainedCount(d.nextReceipt, first)
    && d.receipts[0].sequence == 0
    && (d.cutoff.Some? ==> d.cutoff.value < d.nextReceipt)
    && (forall i | 0 <= i < |d.receipts| :: d.receipts[i].sequence < d.nextReceipt)
    && (forall i | 1 <= i < |d.receipts| :: d.receipts[i].sequence == first + i - 1)
  }

  ghost predicate RootAgrees(d: Checkpoint)
    requires |d.receipts| > 0
  {
    && d.receipts[0].Creation?
    && match d.root
       case Retained(a) =>
         && a.root == d.rootInstance
         && d.receipts[0].creationId == a.creationId
         && (d.revision == 0 ==> d.receipts[0].digest == AggregateDigest(a))
       case TombstonedRoot(_, creationId, _, _, _) => d.receipts[0].creationId == creationId
  }

  ghost predicate PendingDistinct(d: Checkpoint) {
    d.root.Retained? ==>
      forall id, late, x, id', late', y |
        Holds(d.root.aggregate.boxes, id, late, x) && Holds(d.root.aggregate.boxes, id', late', y)
        && x.envelope.eventId == y.envelope.eventId ::
        id == id' && late == late' && x == y
  }

  ghost predicate RevisionsBounded(d: Checkpoint) {
    forall i | 0 <= i < |d.receipts| :: d.receipts[i].revision <= d.revision
  }

  ghost predicate EventsDistinct(d: Checkpoint) {
    && (forall e, i, j | AcceptedAt(d, i, e) && AcceptedAt(d, j, e) :: i == j)
    && (forall e, i, j | TerminalAt(d, i, e) && TerminalAt(d, j, e) :: i == j)
  }

  predicate SameSubject(r: Reference, s: Reference) {
    || (r.InternalMailbox? && s.InternalMailbox? && r.eventId == s.eventId)
    || (r.InternalTerminal? && s.InternalTerminal? && r.eventId == s.eventId)
    || (r.ExternalOutbox? && s.ExternalOutbox? && r.effectId == s.effectId)
  }

  ghost predicate ReferencesDistinct(d: Checkpoint) {
    forall i, k, r, j, l, s | RefAt(d, i, k, r) && RefAt(d, j, l, s) && SameSubject(r, s) :: i == j && k == l
  }

  /** Waiting mail is explained by exactly one of an acceptance receipt, when the host sent
      it, and a producing receipt's mailbox reference, when the aggregate did. */
  ghost predicate PendingAccounted(d: Checkpoint) {
    forall x | Waits(d, x) ::
      var e := x.envelope.eventId;
      && (x.envelope.source == Host <==> Accepted(d, e))
      && (Accepted(d, e) <==> !HasMailboxRef(d, e))
      && (forall i | AcceptedAt(d, i, e) ::
            d.receipts[i].request == x.digest && d.receipts[i].acceptance == x.acceptance)
      && (forall i, k, ref | RefAt(d, i, k, ref) && MailboxRefFor(ref, e) ::
            ref.acceptance == x.acceptance && ref.queue == x.queue)
  }

  ghost predicate PendingNotTerminal(d: Checkpoint) {
    forall x | Waits(d, x) :: !Terminated(d, x.envelope.eventId)
  }

  ghost predicate TerminalsAccounted(d: Checkpoint) {
    forall e, i | TerminalAt(d, i, e) ::
      var t := d.receipts[i];
      && (d.cutoff.None? ==> Accepted(d, e) || HasTerminalRef(d, e))
      && !(Accepted(d, e) && HasTerminalRef(d, e))
      && (forall j | AcceptedAt(d, j, e) ::
            && d.receipts[j].request == t.request && d.receipts[j].acceptance == t.acceptance
            && d.receipts[j].sequence < t.sequence && d.receipts[j].revision <= t.revision)
      && (forall j, k, ref | RefAt(d, j, k, ref) && TerminalRefFor(ref, e) ::
            && ref.terminal == t.sequence && ref.acceptance == t.acceptance
            && d.receipts[j].sequence < t.sequence && d.receipts[j].revision <= t.revision)
  }

  ghost predicate TombstonesOk(d: Checkpoint) {
    && (forall e, s, t | TombstoneAt(d, s, e) && TombstoneAt(d, t, e) :: s == t)
    && (forall e, t | TombstoneAt(d, t, e) :: !WaitsFor(d, e) && !Accepted(d, e) && !Terminated(d, e))
    && (forall t, i | 0 <= t < |d.tombstones| && 0 <= i < |d.receipts| && d.receipts[i].EventTerminal? ::
          d.tombstones[t].terminal != d.receipts[i].sequence)
    && (forall t | 0 <= t < |d.tombstones| :: d.tombstones[t].terminal < d.nextReceipt)
    && (forall s, t | 0 <= s < t < |d.tombstones| :: d.tombstones[s].terminal <= d.tombstones[t].terminal)
  }

  ghost predicate AcceptancesSettled(d: Checkpoint) {
    forall e, i | AcceptedAt(d, i, e) :: WaitsFor(d, e) || Terminated(d, e)
  }

  ghost predicate TerminalRefsBacked(d: Checkpoint) {
    forall i, k, ref | RefAt(d, i, k, ref) && ref.InternalTerminal? ::
      || (exists j :: TerminalAt(d, j, ref.eventId) && d.receipts[j].sequence == ref.terminal)
      || (!Terminated(d, ref.eventId) && exists t :: TombstoneAt(d, t, ref.eventId) && d.tombstones[t].terminal == ref.terminal)
  }

  /** Pairs of revision and receipt sequence are in lexicographic order. */
  ghost predicate Chronological(d: Checkpoint) {
    forall i, j | 0 <= i < j < |d.receipts| ::
      || d.receipts[i].revision < d.receipts[j].revision
      || (d.receipts[i].revision == d.receipts[j].revision && d.receipts[i].sequence <= d.receipts[j].sequence)
  }

  ghost predicate QueuesDistinct(d: Checkpoint) {
    && (forall x, y | Waits(d, x) && Waits(d, y) && x.queue == y.queue :: x == y)
    && (forall i, j | 0 <= i < j < |d.receipts| && d.receipts[i].EventTerminal? && d.receipts[j].EventTerminal? ::
          d.receipts[i].finalQueue != d.receipts[j].finalQueue)
    && (forall x, i | Waits(d, x) && 0 <= i < |d.receipts| && d.receipts[i].EventTerminal? ::
          x.queue != d.receipts[i].finalQueue)
  }

  /** The document says that event `e` was given acceptance sequence `n`. */
  ghost predicate Owns(d: Checkpoint, e: EventId, n: int) {
    || (exists x :: Waits(d, x) && x.envelope.eventId == e && x.acceptance == n)
    || (exists i :: (AcceptedAt(d, i, e) || TerminalAt(d, i, e)) && d.receipts[i].acceptance == n)
    || (exists t :: TombstoneAt(d, t, e) && d.tombstones[t].acceptance == n)
  }

  ghost predicate AcceptanceOwners(d: Checkpoint) {
    forall e, f, n | Owns(d, e, n) && Owns(d, f, n) :: e == f
  }

  ghost predicate AllocationBounded(d: Checkpoint) {
    d.root.Retained? ==>
      && (forall e, n | Owns(d, e, n) :: n < d.root.aggregate.nextAcceptance)
      && (forall x | Waits(d, x) :: x.queue < d.root.aggregate.nextQueue)
      && (forall i | 0 <= i < |d.receipts| && d.receipts[i].EventTerminal? ::
            d.receipts[i].finalQueue < d.root.aggregate.nextQueue)
  }

  ghost predicate DigestsAgree(d: Checkpoint) {
    && (forall i, j | 0 <= i < j < |d.receipts| && d.receipts[i].EventTerminal? && d.receipts[j].EventTerminal?
          && d.receipts[i].revision == d.receipts[j].revision :: d.receipts[i].digest == d.receipts[j].digest)
    && (forall i | 0 <= i < |d.receipts| && d.receipts[i].EventTerminal? && d.receipts[i].revision == d.revision ::
          d.receipts[i].digest == CurrentDigest(d))
  }

  predicate PendingEffect(d: Checkpoint, i: int, f: string) {
    0 <= i < |d.pendingOutbox| && d.pendingOutbox[i].effectId == f
  }

  predicate TerminalEffect(d: Checkpoint, i: int, f: string) {
    0 <= i < |d.terminalOutbox| && d.terminalOutbox[i].effectId == f
  }

  predicate BuriedEffect(d: Checkpoint, i: int, f: string) {
    0 <= i < |d.outboxTombstones| && d.outboxTombstones[i].effectId == f
  }

  ghost predicate EffectKnown(d: Checkpoint, f: string) {
    exists i :: PendingEffect(d, i, f) || TerminalEffect(d, i, f) || BuriedEffect(d, i, f)
  }

  ghost predicate EffectReferenced(d: Checkpoint, f: string) {
    exists i, k, ref :: RefAt(d, i, k, ref) && ref.ExternalOutbox? && ref.effectId == f
  }

  /** Outbox effects live in exactly one of the three lists, and are exactly the referenced ones. */
  ghost predicate EffectsAccounted(d: Checkpoint) {
    && (forall f, i, j | PendingEffect(d, i, f) && PendingEffect(d, j, f) :: i == j)
    && (forall f, i, j | TerminalEffect(d, i, f) && TerminalEffect(d, j, f) :: i == j)
    && (forall f, i, j | BuriedEffect(d, i, f) && BuriedEffect(d, j, f) :: i == j)
    && (forall f, i, j | PendingEffect(d, i, f) :: !TerminalEffect(d, j, f))
    && (forall f, i, j | PendingEffect(d, i, f) :: !BuriedEffect(d, j, f))
    && (forall f, i, j | TerminalEffect(d, i, f) :: !BuriedEffect(d, j, f))
    && (forall f :: EffectReferenced(d, f) <==> EffectKnown(d, f))
  }

  ghost predicate TerminalSequencesOk(d: Checkpoint) {
    && (forall i, j | 0 <= i < j < |d.terminalOutbox| :: d.terminalOutbox[i].sequence < d.terminalOutbox[j].sequence)
    && (forall i, j | 0 <= i < j < |d.outboxTombstones| :: d.outboxTombstones[i].sequence < d.outboxTombstones[j].sequence)
    && (forall i, j | 0 <= i < |d.terminalOutbox| && 0 <= j < |d.outboxTombstones| ::
          d.terminalOutbox[i].sequence != d.outboxTombstones[j].sequence)
    && (forall i | 0 <= i < |d.terminalOutbox| :: d.terminalOutbox[i].sequence < d.nextTerminal)
    && (forall i | 0 <= i < |d.outboxTombstones| :: d.outboxTombstones[i].sequence < d.nextTerminal)
  }

  /** `_validate_checkpoint_semantics` for a document without migration records. */
  ghost predicate Valid(d: Checkpoint) {
    && ReceiptsContiguous(d)
    && RootAgrees(d)
    && PendingDistinct(d)
    && RevisionsBounded(d)
    && EventsDistinct(d)
    && ReferencesDistinct(d)
    && PendingAccounted(d)
    && PendingNotTerminal(d)
    && TerminalsAccounted(d)
    && TombstonesOk(d)
    && AcceptancesSettled(d)
    && TerminalRefsBacked(d)
    && Chronological(d)
    && QueuesDistinct(d)
    && AcceptanceOwners(d)
    && AllocationBounded(d)
    && DigestsAgree(d)
    && EffectsAccounted(d)
    && TerminalSequencesOk(d)
  }

  /** A mailbox reference is about mail that still waits. The stored relation does not say so,
      but every operation keeps it, and admission relies on it. */
  ghost predicate MailboxRefsWait(d: Checkpoint) {
    forall i, k, ref | RefAt(d, i, k, ref) && ref.InternalMailbox? :: WaitsFor(d, ref.eventId)
  }

  /** Tombstones stand for pruned receipts only. The stored relation does not say this either;
      it is why the sort in `prune_checkpoint_v1` never moves anything. */
  ghost predicate TombstonesPruned(d: Checkpoint) {
    && (|d.tombstones| > 0 ==> d.cutoff.Some?)
    && (forall t | 0 <= t < |d.tombstones| :: d.tombstones[t].terminal <= d.cutoff.value)
  }

  /** What a store holds: the relation, an aggregate that restores, and the two facts above. */
  ghost predicate Stored(d: Checkpoint) {
    Valid(d) && MailboxRefsWait(d) && TombstonesPruned(d) && (d.root.Retained? ==> AggregateOk(d.root.aggregate))
  }
}
