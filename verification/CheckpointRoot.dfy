/** The two ends of a root's life: the checkpoint that creation writes (`create_checkpoint_v1`)
    and the one that tombstoning the root leaves behind (`tombstone_root_v1`). */
module CheckpointRoot {
  import opened Options
  import opened Queueing
  import opened CheckpointV1
  import opened CheckpointSettlement
  import opened CheckpointStep
  import SettlementInvariant

  // ---------------------------------------------------------------- creation

  function LifecycleSettlements(ls: seq<Lifecycle>): seq<Settlement> {
    seq(|ls|, k requires 0 <= k < |ls| => LifecycleSettlement(ls[k]))
  }

  /** Receipt zero carries the initialization emissions; disposed ones are settled at once. */
  function CreatedDocument(r: StepResult): Checkpoint {
    var digest := AggregateDigest(r.state);
    Checkpoint(r.state.root, 0, Retained(r.state), Permanent, None, 1 + |r.lifecycle|,
      [Creation(0, r.state.creationId, 0, digest, ReferencesOf(r.emissions, 0))]
        + TerminalReceipts(LifecycleSettlements(r.lifecycle), 1, 0, digest),
      [], IntentsOf(r.emissions, 0), 0, [], [])
  }

  /** Initialization emissions routed over empty mailboxes, external ones with distinct ids. */
  ghost predicate Creates(a: Aggregate, sel: Entry, r: StepResult) {
    && (forall y :: !Pending(a, y))
    && Commits(a, sel, r)
    && (forall i, j | 0 <= i < j < |r.emissions| :: !SameEffect(r.emissions[i], r.emissions[j]))
  }

  predicate EmittedAs(r: StepResult, i: int, e: EventId, n: int) {
    0 <= i < |r.emissions| && RuntimeBound(r.emissions[i]) && r.emissions[i].eventId == e && r.emissions[i].acceptance == n
  }

  lemma CreatedMail(a: Aggregate, sel: Entry, r: StepResult, x: Entry)
    returns (i: int)
    requires Creates(a, sel, r) && Pending(r.state, x)
    ensures 0 <= i < |r.emissions| && r.emissions[i].Mailbox? && Reports(r.emissions[i], x)
    ensures EmittedAs(r, i, x.envelope.eventId, x.acceptance)
    ensures x.envelope.source != Host
  {
    assert !SurvivorOf(a, sel, x);
    i :| 0 <= i < |r.emissions| && r.emissions[i].Mailbox? && Reports(r.emissions[i], x);
  }

  lemma CreatedDisposal(a: Aggregate, sel: Entry, r: StepResult, k: int)
    returns (i: int)
    requires Creates(a, sel, r) && 0 <= k < |r.lifecycle|
    ensures NewRecord(a, r, k, i) && EmittedAs(r, i, r.lifecycle[k].eventId, r.lifecycle[k].acceptance)
    ensures r.lifecycle[k].acceptance < r.state.nextAcceptance && r.lifecycle[k].finalQueue < r.state.nextQueue
  {
    RecordKind(a, sel, r, k);
    assert forall y :: !OldRecord(a, sel, r.lifecycle[k], y);
    i :| NewRecord(a, r, k, i);
    assert r.lifecycle[k] in r.lifecycle;
  }

  lemma EmittedOnce(a: Aggregate, r: StepResult, i: int, j: int)
    requires EmissionsOk(a, r)
    requires 0 <= i < |r.emissions| && 0 <= j < |r.emissions| && RuntimeBound(r.emissions[i]) && RuntimeBound(r.emissions[j])
    requires r.emissions[i].eventId == r.emissions[j].eventId || r.emissions[i].acceptance == r.emissions[j].acceptance
    ensures i == j
  {}

  ghost predicate CreatedView(r: StepResult, d: Checkpoint) {
    && |d.receipts| == 1 + |r.lifecycle|
    && d.receipts[0] == Creation(0, r.state.creationId, 0, AggregateDigest(r.state), ReferencesOf(r.emissions, 0))
    && (forall i | 1 <= i < |d.receipts| ::
          d.receipts[i] == TerminalReceipt(LifecycleSettlement(r.lifecycle[i - 1]), i, 0, AggregateDigest(r.state)))
    && (forall i, e :: !AcceptedAt(d, i, e))
    && (forall i, e :: TerminalAt(d, i, e) <==> 1 <= i < |d.receipts| && r.lifecycle[i - 1].eventId == e)
    && (forall i, k, ref :: RefAt(d, i, k, ref) <==>
          i == 0 && 0 <= k < |r.emissions| && ref == ReferenceOf(r.emissions[k], 0))
    && (forall x :: Waits(d, x) <==> Pending(r.state, x))
    && d.tombstones == [] && d.cutoff == None && d.revision == 0 && d.nextReceipt == 1 + |r.lifecycle|
  }

  lemma CreatedViews(r: StepResult)
    ensures CreatedView(r, CreatedDocument(r))
  {
    var d := CreatedDocument(r);
    assert forall i | 1 <= i < |d.receipts| :: d.receipts[i].EventTerminal? && References(d.receipts[i]) == [];
  }

  lemma CreatedChronicle(r: StepResult, d: Checkpoint)
    requires d == CreatedDocument(r) && CreatedView(r, d) && AggregateOk(r.state)
    ensures ReceiptsContiguous(d) && RootAgrees(d) && RevisionsBounded(d) && Chronological(d) && DigestsAgree(d)
  {
    hide RefAt, Waits, AcceptedAt, TerminalAt;
  }

  lemma CreatedReceipts(r: StepResult, d: Checkpoint)
    requires DistinctEvents(r.lifecycle) && d == CreatedDocument(r) && CreatedView(r, d) && AggregateOk(r.state)
    ensures ReceiptsContiguous(d) && RootAgrees(d) && RevisionsBounded(d) && Chronological(d) && DigestsAgree(d)
    ensures EventsDistinct(d) && TombstonesPruned(d) && TerminalSequencesOk(d) && PendingDistinct(d)
  {
    CreatedChronicle(r, d);
    hide RefAt, Waits, ReceiptsContiguous, RootAgrees, RevisionsBounded, Chronological, DigestsAgree;
  }

  lemma CreatedGraves(r: StepResult, d: Checkpoint)
    requires CreatedView(r, d)
    ensures TombstonesOk(d) && AcceptancesSettled(d)
  {
    assert forall t, e :: !TombstoneAt(d, t, e);
  }

  lemma CreatedPending(a: Aggregate, sel: Entry, r: StepResult, d: Checkpoint, x: Entry)
    requires Creates(a, sel, r) && CreatedView(r, d) && Waits(d, x)
    ensures x.envelope.source != Host && HasMailboxRef(d, x.envelope.eventId) && !Terminated(d, x.envelope.eventId)
    ensures forall i, k, ref | RefAt(d, i, k, ref) && MailboxRefFor(ref, x.envelope.eventId) ::
      ref.acceptance == x.acceptance && ref.queue == x.queue
  {
    var i := CreatedMail(a, sel, r, x);
    assert RefAt(d, 0, i, ReferenceOf(r.emissions[i], 0)) && MailboxRefFor(ReferenceOf(r.emissions[i], 0), x.envelope.eventId);
    forall j, k, ref | RefAt(d, j, k, ref) && MailboxRefFor(ref, x.envelope.eventId)
      ensures ref.acceptance == x.acceptance && ref.queue == x.queue
    {
      EmittedOnce(a, r, i, k);
    }
    assert forall k | 0 <= k < |r.lifecycle| :: r.lifecycle[k] in r.lifecycle;
  }

  lemma CreatedTerminal(a: Aggregate, sel: Entry, r: StepResult, d: Checkpoint, i: int, e: EventId)
    requires Creates(a, sel, r) && CreatedView(r, d) && TerminalAt(d, i, e)
    ensures HasTerminalRef(d, e)
    ensures forall j, k, ref | RefAt(d, j, k, ref) && TerminalRefFor(ref, e) ::
      j == 0 && ref.terminal == d.receipts[i].sequence && ref.acceptance == d.receipts[i].acceptance
  {
    var p := CreatedDisposal(a, sel, r, i - 1);
    assert RefAt(d, 0, p, ReferenceOf(r.emissions[p], 0)) && TerminalRefFor(ReferenceOf(r.emissions[p], 0), e);
    forall j, k, ref | RefAt(d, j, k, ref) && TerminalRefFor(ref, e)
      ensures j == 0 && ref.terminal == d.receipts[i].sequence && ref.acceptance == d.receipts[i].acceptance
    {
      EmittedOnce(a, r, p, k);
    }
  }

  lemma CreatedRefs(a: Aggregate, sel: Entry, r: StepResult, d: Checkpoint)
    requires Creates(a, sel, r) && CreatedView(r, d)
    ensures ReferencesDistinct(d) && MailboxRefsWait(d) && TerminalRefsBacked(d)
  {
    forall k, l | 0 <= k < l < |r.emissions|
      ensures !SameSubject(ReferenceOf(r.emissions[k], 0), ReferenceOf(r.emissions[l], 0))
      ensures !SameSubject(ReferenceOf(r.emissions[l], 0), ReferenceOf(r.emissions[k], 0))
    {
      assert !SameEffect(r.emissions[k], r.emissions[l]);
      assert forall e | e in r.emissions :: e.Outbox? || RuntimeBound(e);
    }
    forall i, k, ref | RefAt(d, i, k, ref) && ref.InternalMailbox?
      ensures WaitsFor(d, ref.eventId)
    {
      assert Emitted(r.state, r.emissions[k]);
      var x :| Pending(r.state, x) && Reports(r.emissions[k], x);
      assert Waits(d, x);
    }
    forall i, k, ref | RefAt(d, i, k, ref) && ref.InternalTerminal?
      ensures exists j :: TerminalAt(d, j, ref.eventId) && d.receipts[j].sequence == ref.terminal
    {
      var l := r.emissions[k].lifecycleIndex;
      assert TerminalAt(d, 1 + l, ref.eventId);
    }
  }

  lemma CreatedOwner(a: Aggregate, sel: Entry, r: StepResult, d: Checkpoint, e: EventId, n: int)
    returns (i: int)
    requires Creates(a, sel, r) && CreatedView(r, d) && Owns(d, e, n)
    ensures EmittedAs(r, i, e, n) && n < r.state.nextAcceptance
  {
    if x :| Waits(d, x) && x.envelope.eventId == e && x.acceptance == n {
      i := CreatedMail(a, sel, r, x);
      PendingBounded(r.state, x);
    } else {
      assert forall t :: !TombstoneAt(d, t, e);
      var j :| TerminalAt(d, j, e) && d.receipts[j].acceptance == n;
      i := CreatedDisposal(a, sel, r, j - 1);
    }
  }

  lemma CreatedSequences(a: Aggregate, sel: Entry, r: StepResult, d: Checkpoint)
    requires Creates(a, sel, r) && CreatedView(r, d) && d.root == Retained(r.state)
    ensures QueuesDistinct(d) && AcceptanceOwners(d) && AllocationBounded(d)
  {
    assert forall k | 0 <= k < |r.lifecycle| :: r.lifecycle[k] in r.lifecycle;
    assert forall i | 0 <= i < |d.receipts| && d.receipts[i].EventTerminal? :: 1 <= i;
    forall x, y | Waits(d, x) && Waits(d, y) && x.queue == y.queue
      ensures x == y
    {
      SameEntry(r.state, x, y);
    }
    forall x | Waits(d, x)
      ensures x.queue < r.state.nextQueue
    {
      PendingBounded(r.state, x);
    }
    forall e, f, n | Owns(d, e, n) && Owns(d, f, n)
      ensures e == f
    {
      var i := CreatedOwner(a, sel, r, d, e, n);
      var j := CreatedOwner(a, sel, r, d, f, n);
      EmittedOnce(a, r, i, j);
    }
    forall e, n | Owns(d, e, n)
      ensures n < r.state.nextAcceptance
    {
      var i := CreatedOwner(a, sel, r, d, e, n);
    }
  }

  lemma CreatedEffects(r: StepResult, d: Checkpoint)
    requires forall i, j | 0 <= i < j < |r.emissions| :: !SameEffect(r.emissions[i], r.emissions[j])
    requires CreatedView(r, d) && d.pendingOutbox == IntentsOf(r.emissions, 0)
    requires d.terminalOutbox == [] && d.outboxTombstones == []
    ensures EffectsAccounted(d)
  {
    IntentsExact(r.emissions, 0);
    assert forall i, f :: PendingEffect(d, i, f) <==> Intended(d.pendingOutbox, i, f);
    forall f
      ensures EffectReferenced(d, f) <==> EffectKnown(d, f)
    {
      if i, k, ref :| RefAt(d, i, k, ref) && ref.ExternalOutbox? && ref.effectId == f {
        assert ExternalAt(r.emissions, k, f);
        var p :| Intended(d.pendingOutbox, p, f);
      }
      if p :| PendingEffect(d, p, f) || TerminalEffect(d, p, f) || BuriedEffect(d, p, f) {
        assert Intended(d.pendingOutbox, p, f);
        var k :| ExternalAt(r.emissions, k, f);
        assert RefAt(d, 0, k, ReferenceOf(r.emissions[k], 0));
      }
    }
  }

  /** The checkpoint that creation writes satisfies the whole stored relation. */
  lemma CreatedStored(a: Aggregate, sel: Entry, r: StepResult)
    requires Creates(a, sel, r)
    ensures Stored(CreatedDocument(r))
  {
    var d := CreatedDocument(r);
    CreatedViews(r);
    CreatedReceipts(r, d);
    CreatedGraves(r, d);
    forall x | Waits(d, x)
      ensures x.envelope.source != Host && HasMailboxRef(d, x.envelope.eventId) && !Terminated(d, x.envelope.eventId)
      ensures forall i, k, ref | RefAt(d, i, k, ref) && MailboxRefFor(ref, x.envelope.eventId) ::
        ref.acceptance == x.acceptance && ref.queue == x.queue
    {
      CreatedPending(a, sel, r, d, x);
    }
    assert PendingAccounted(d) && PendingNotTerminal(d) by {
      assert forall e :: !Accepted(d, e);
    }
    CreatedAccounted(a, sel, r, d);
    CreatedRefs(a, sel, r, d);
    CreatedSequences(a, sel, r, d);
    CreatedEffects(r, d);
  }

  lemma CreatedAccounted(a: Aggregate, sel: Entry, r: StepResult, d: Checkpoint)
    requires Creates(a, sel, r) && CreatedView(r, d)
    ensures TerminalsAccounted(d)
  {
    forall e, i | TerminalAt(d, i, e)
      ensures HasTerminalRef(d, e)
      ensures forall j, k, ref | RefAt(d, j, k, ref) && TerminalRefFor(ref, e) ::
        j == 0 && ref.terminal == d.receipts[i].sequence && ref.acceptance == d.receipts[i].acceptance
    {
      CreatedTerminal(a, sel, r, d, i, e);
    }
    assert forall e :: !Accepted(d, e);
  }

  // ---------------------------------------------------------------- tombstoning the root

  function EntrySettlement(x: Entry): Settlement {
    Settlement(x.envelope.eventId, x.digest, x.acceptance, x.queue, RootTombstoned, [])
  }

  function EntrySettlements(entries: seq<Entry>): seq<Settlement> {
    seq(|entries|, k requires 0 <= k < |entries| => EntrySettlement(entries[k]))
  }

  /** The list names every waiting entry exactly once. */
  ghost predicate Lists(a: Aggregate, entries: seq<Entry>) {
    && (forall x :: x in entries <==> Pending(a, x))
    && (forall i, j | 0 <= i < j < |entries| :: entries[i] != entries[j])
  }

  function TombstoneRecord(a: Aggregate, operation: string): Root
    requires a.rootRuntime in a.boxes
  {
    TombstonedRoot(a.rootRuntime, a.creationId, a.boxes[a.rootRuntime].status, AggregateDigest(a), operation)
  }

  function TombstonedDocument(d: Checkpoint, entries: seq<Entry>, operation: string): Checkpoint
    requires d.root.Retained? && d.root.aggregate.rootRuntime in d.root.aggregate.boxes
  {
    var a := d.root.aggregate;
    Settled(d, TombstoneRecord(a, operation), EntrySettlements(entries), AggregateDigest(a), [])
  }

  lemma TombstoneSettlementsOk(d: Checkpoint, entries: seq<Entry>, root: Root, ss: seq<Settlement>)
    requires d.root.Retained? && AggregateOk(d.root.aggregate) && Lists(d.root.aggregate, entries)
    requires root.TombstonedRoot? && ss == EntrySettlements(entries)
    ensures SettlementsOk(d, root, ss)
  {
    hide AggregateOk, Pending, SettlesNew;
    forall m | 0 <= m < |ss|
      ensures SettlesNew(d, ss, m) || exists y :: SettlesOld(d, ss[m], y)
    {
      assert entries[m] in entries;
      assert SettlesOld(d, ss[m], entries[m]);
    }
    forall m, n | 0 <= m < n < |ss|
      ensures ss[m].eventId != ss[n].eventId && ss[m].finalQueue != ss[n].finalQueue && ss[m].acceptance != ss[n].acceptance
    {
      assert entries[m] in entries && entries[n] in entries;
      OtherEntry(d.root.aggregate, entries[m], entries[n]);
    }
    forall m, n | 0 <= m < |ss| && 0 <= n < |ss| && ss[m].acceptance == ss[n].acceptance
      ensures m == n
    {
      assert !(m < n) && !(n < m);
    }
  }

  lemma TombstoneMailMoves(d: Checkpoint, entries: seq<Entry>, root: Root, ss: seq<Settlement>)
    requires d.root.Retained? && Lists(d.root.aggregate, entries)
    requires root.TombstonedRoot? && root.creationId == d.root.aggregate.creationId && ss == EntrySettlements(entries)
    ensures MailMoves(d, root, ss)
  {
    forall y | Waits(d, y)
      ensures exists m :: 0 <= m < |ss| && SettlesOld(d, ss[m], y)
    {
      var m :| 0 <= m < |entries| && entries[m] == y;
      assert SettlesOld(d, ss[m], y);
    }
  }

  /** Tombstoning the root settles every waiting entry and keeps the whole stored relation. */
  lemma TombstoneSettles(d: Checkpoint, entries: seq<Entry>, operation: string)
    requires Stored(d) && d.root.Retained? && Lists(d.root.aggregate, entries)
    ensures Settles(d, TombstoneRecord(d.root.aggregate, operation), EntrySettlements(entries),
                    AggregateDigest(d.root.aggregate), [])
    ensures Stored(TombstonedDocument(d, entries, operation))
  {
    hide Valid, MailboxRefsWait, TombstonesPruned, Settled, SettlementsOk, MailMoves;
    var root, ss := TombstoneRecord(d.root.aggregate, operation), EntrySettlements(entries);
    TombstoneSettlementsOk(d, entries, root, ss);
    TombstoneMailMoves(d, entries, root, ss);
    assert ss == [] || ss[0].references == [];
    SettlementInvariant.SettledStored(d, root, ss, AggregateDigest(d.root.aggregate), []);
  }
}
