/** Whole runs of one root's checkpoint: from creation through any interleaving of admission,
    steps, outbox operations, pruning and tombstoning. */
module CheckpointRuns {
  import opened Options
  import opened Queueing
  import opened CheckpointV1
  import opened CheckpointSettlement
  import opened CheckpointStep
  import opened CheckpointAdmission
  import opened CheckpointPrune
  import opened CheckpointOutbox
  import opened CheckpointRoot
  import opened CheckpointLoops
  import opened CheckpointHost
  import SettlementInvariant

  /** One committed operation. Admission is of host mail, and pruning drops no producer of an
      outbox effect: in the other cases the operation itself leaves the stored relation. */
  ghost predicate Next(d: Checkpoint, d': Checkpoint) {
    || (exists ds :: AdmitsBatch(d, ds, d') && HostOnly(d, ds))
    || (exists target :: DefersTo(d, target, d'))
    || (exists target, disposition :: SettlesTo(d, target, disposition, d'))
    || (exists operation :: TombstonesTo(d, operation, d'))
    || (exists cutoff, policy :: PrunesTo(d, cutoff, policy, d') && !DropsEffect(d, cutoff))
    || (exists effect, delivery :: UpdatesTo(d, effect, delivery, d'))
    || (exists effect, result :: TerminalizesTo(d, effect, result, d'))
    || (exists effect :: CompactsTo(d, effect, d'))
  }

  ghost predicate PrunesTo(d: Checkpoint, cutoff: nat, policy: string, d': Checkpoint) {
    Accepts(d, cutoff) && Prunable(d, cutoff) && ReceiptsContiguous(d) && d' == PrunedDocument(d, cutoff, policy)
  }

  ghost predicate Created(d: Checkpoint) {
    exists a, nobody, r :: Creates(a, nobody, r) && d == CreatedDocument(r)
  }

  /** A run: a created checkpoint and one committed operation after another. */
  ghost predicate Run(ds: seq<Checkpoint>) {
    && |ds| > 0 && Created(ds[0])
    && forall i | 0 <= i < |ds| - 1 :: Next(ds[i], ds[i + 1])
  }

  /** The step is a settlement: a committed step, a deferral or the end of the root. */
  ghost predicate SettlementStep(d: Checkpoint, d': Checkpoint) {
    exists root, ss, digest, outbox :: SettledTo(d, root, ss, digest, outbox, d')
  }

  ghost predicate SettledTo(d: Checkpoint, root: Root, ss: seq<Settlement>, digest: AggregateDigest,
                            outbox: seq<PendingIntent>, d': Checkpoint)
  {
    Settles(d, root, ss, digest, outbox) && d' == Settled(d, root, ss, digest, outbox)
  }

  lemma NextKind(d: Checkpoint, d': Checkpoint)
    requires Stored(d) && Next(d, d')
    ensures
      || (exists ds :: AdmitsBatch(d, ds, d') && HostOnly(d, ds))
      || SettlementStep(d, d')
      || (exists cutoff, policy :: PrunesTo(d, cutoff, policy, d') && !DropsEffect(d, cutoff))
      || (OnlyOutbox(d, d') && Stored(d'))
  {
    hide Stored, AdmitsBatch, HostOnly, DropsEffect, PrunesTo, Settles, Settled, Stepping, Defers, AggregateOk, Lists,
      SteppedDocument, DeferredDocument, TombstonedDocument;
    if target :| DefersTo(d, target, d') {
      DeferIsSettlement(d, target, d');
    } else if target, disposition :| SettlesTo(d, target, disposition, d') {
      StepIsSettlement(d, target, disposition, d');
    } else if operation :| TombstonesTo(d, operation, d') {
      TombstoneIsSettlement(d, operation, d');
    } else if effect, delivery :| UpdatesTo(d, effect, delivery, d') {
      var i :| PendingEffect(d, i, effect) && d' == UpdatedDocument(d, i, delivery);
      UpdateStored(d, i, delivery);
    } else if effect, result :| TerminalizesTo(d, effect, result, d') {
      var i :| PendingEffect(d, i, effect) && d' == TerminalizedDocument(d, i, result);
      TerminalizeStored(d, i, result);
    } else if effect :| CompactsTo(d, effect, d') {
      var i :| TerminalEffect(d, i, effect) && d' == CompactedDocument(d, i);
      CompactStored(d, i);
    }
  }

  lemma DeferIsSettlement(d: Checkpoint, target: RuntimeId, d': Checkpoint)
    requires Stored(d) && DefersTo(d, target, d')
    ensures SettlementStep(d, d')
  {
    hide Stored, Settles, Settled, Defers, AggregateOk;
    var b :| AggregateOk(b) && Defers(d.root.aggregate, target, b) && d' == DeferredDocument(d, b);
    DeferSettles(d, target, b);
    assert SettledTo(d, Retained(b), [], AggregateDigest(b), [], d');
  }

  lemma StepIsSettlement(d: Checkpoint, target: RuntimeId, disposition: Disposition, d': Checkpoint)
    requires Stored(d) && SettlesTo(d, target, disposition, d')
    ensures SettlementStep(d, d')
  {
    var sel := d.root.aggregate.boxes[target].ready[0];
    var r :| Stepping(d, sel, r) && r.disposition == disposition && d' == SteppedDocument(d, sel, r);
    StepSettlement(d, sel, r);
  }

  lemma StepSettlement(d: Checkpoint, sel: Entry, r: StepResult)
    requires Stepping(d, sel, r)
    ensures SettlementStep(d, SteppedDocument(d, sel, r))
  {
    hide Stored, Settles, Settled, Stepping, AggregateOk, StepSettlements, IntentsOf;
    StepAggregateOk(d, sel, r);
    StepSettles(d, sel, r);
    assert SettledTo(d, Retained(r.state), StepSettlements(sel, r, d.nextReceipt), AggregateDigest(r.state),
                     IntentsOf(r.emissions, d.revision + 1), SteppedDocument(d, sel, r));
  }

  lemma StepAggregateOk(d: Checkpoint, sel: Entry, r: StepResult)
    requires Stepping(d, sel, r)
    ensures AggregateOk(r.state)
  {}

  lemma TombstoneIsSettlement(d: Checkpoint, operation: string, d': Checkpoint)
    requires Stored(d) && TombstonesTo(d, operation, d')
    ensures SettlementStep(d, d')
  {
    hide Stored, Settles, Settled, Lists;
    var entries :| Lists(d.root.aggregate, entries) && d' == TombstonedDocument(d, entries, operation);
    TombstoneSettles(d, entries, operation);
    assert SettledTo(d, TombstoneRecord(d.root.aggregate, operation), EntrySettlements(entries),
                     AggregateDigest(d.root.aggregate), [], d');
  }

  /** Every committed operation keeps the whole stored relation. */
  lemma NextStored(d: Checkpoint, d': Checkpoint)
    requires Stored(d) && Next(d, d')
    ensures Stored(d')
  {
    hide Stored, Next, Settles, Settled, Prunable, DropsEffect, Accepts, SettledTo;
    NextKind(d, d');
    if ds :| AdmitsBatch(d, ds, d') && HostOnly(d, ds) {
      AdmitStored(d, ds, d');
    } else if SettlementStep(d, d') {
      SettlementStored(d, d');
    } else if cutoff, policy :| PrunesTo(d, cutoff, policy, d') && !DropsEffect(d, cutoff) {
      PruneStored(d, cutoff, policy);
    }
  }

  lemma SettlementStored(d: Checkpoint, d': Checkpoint)
    requires SettlementStep(d, d')
    ensures Stored(d')
  {
    hide Stored, SettlementsOk, MailMoves, OutboxMatches, Settled;
    var root, ss, digest, outbox :| SettledTo(d, root, ss, digest, outbox, d');
    SettlementInvariant.SettledStored(d, root, ss, digest, outbox);
  }

  lemma AdmitStored(d: Checkpoint, ds: seq<Delivery>, d': Checkpoint)
    requires Stored(d) && AdmitsBatch(d, ds, d') && HostOnly(d, ds)
    ensures Stored(d')
  {
    hide Stored;
    var b :| Admissible(d, NewsOf(d, ds), b) && d' == AdmittedDocument(d, NewsOf(d, ds), b);
    NewsHost(d, ds);
    assert forall i | 0 <= i < |NewsOf(d, ds)| :: NewsOf(d, ds)[i].envelope.source == Host;
    AdmissionStored(d, NewsOf(d, ds), b);
  }

  /** Every checkpoint of every run satisfies the whole stored relation. */
  lemma {:induction false} RunStored(ds: seq<Checkpoint>, i: nat)
    requires Run(ds) && i < |ds|
    ensures Stored(ds[i])
  {
    hide Stored, Next, Creates, CreatedDocument;
    if i == 0 {
      var a, nobody, r :| Creates(a, nobody, r) && ds[0] == CreatedDocument(r);
      CreatedStored(a, nobody, r);
    } else {
      RunStored(ds, i - 1);
      assert Next(ds[i - 1], ds[i - 1 + 1]);
      NextStored(ds[i - 1], ds[i]);
    }
  }

  // ---------------------------------------------------------------- exactly-once settlement

  lemma SettlementKnows(d: Checkpoint, d': Checkpoint, e: EventId, g: EntryDigest, root: Root, ss: seq<Settlement>,
                        digest: AggregateDigest, outbox: seq<PendingIntent>)
    requires d.root.Retained? && MailMoves(d, root, ss)
    requires SettlementInvariant.Bridged(d, root, ss, digest, d') && d'.root == root && d'.tombstones == d.tombstones
    requires Known(d, e, g)
    ensures Known(d', e, g)
  {
    if y :| Waits(d, y) && y.envelope.eventId == e && y.digest == g {
      if m :| 0 <= m < |ss| && SettlesOld(d, ss[m], y) {
        assert SettlementInvariant.SettledHere(d, ss, |d.receipts| + m, e);
        assert TerminalAt(d', |d.receipts| + m, e);
      } else {
        var x :| WaitsIn(root, x) && Follows(y, x, d.root.aggregate.nextQueue);
        assert Waits(d', x);
      }
    } else if i :| TerminalAt(d, i, e) && d.receipts[i].request == g {
      assert TerminalAt(d', i, e) && SameHead(d.receipts[i], d'.receipts[i]);
    } else {
      var t :| TombstoneAt(d, t, e) && d.tombstones[t].request == g;
      assert TombstoneAt(d', t, e);
    }
  }

  lemma SettlementKeepsSettled(d: Checkpoint, d': Checkpoint, e: EventId, n: nat, root: Root, ss: seq<Settlement>,
                               digest: AggregateDigest)
    requires SettlementInvariant.Bridged(d, root, ss, digest, d') && d'.tombstones == d.tombstones
    requires SettledUnder(d, e, n)
    ensures SettledUnder(d', e, n)
  {
    if i :| TerminalAt(d, i, e) && d.receipts[i].sequence == n {
      assert TerminalAt(d', i, e) && SameHead(d.receipts[i], d'.receipts[i]);
    } else {
      var t :| TombstoneAt(d, t, e) && d.tombstones[t].terminal == n;
      assert TombstoneAt(d', t, e);
    }
  }

  lemma SettlementRemembers(d: Checkpoint, d': Checkpoint, e: EventId, g: EntryDigest, n: nat)
    requires SettlementStep(d, d')
    ensures Known(d, e, g) ==> Known(d', e, g)
    ensures SettledUnder(d, e, n) ==> SettledUnder(d', e, n)
  {
    hide Known, SettledUnder, Valid, MailboxRefsWait, TombstonesPruned, AggregateOk, SettlementsOk, OutboxMatches;
    var root, ss, digest, outbox :| SettledTo(d, root, ss, digest, outbox, d');
    SettlementBridge(d, root, ss, digest, outbox);
    if Known(d, e, g) { SettlementKnows(d, d', e, g, root, ss, digest, outbox); }
    if SettledUnder(d, e, n) { SettlementKeepsSettled(d, d', e, n, root, ss, digest); }
  }

  lemma SettlementBridge(d: Checkpoint, root: Root, ss: seq<Settlement>, digest: AggregateDigest, outbox: seq<PendingIntent>)
    requires Settles(d, root, ss, digest, outbox)
    ensures SettlementInvariant.Bridged(d, root, ss, digest, Settled(d, root, ss, digest, outbox))
  {
    hide Stored, OutboxMatches, Settled, Survives, Arrives, SettlesOld, AggregateOk;
    SettlementsSettle(d, root, ss, digest, outbox);
    SettledShape(d, root, ss, digest, outbox);
    SettlementInvariant.Bridge(d, root, ss, digest, outbox, Settled(d, root, ss, digest, outbox));
  }

  lemma SettlementsSettle(d: Checkpoint, root: Root, ss: seq<Settlement>, digest: AggregateDigest, outbox: seq<PendingIntent>)
    requires Settles(d, root, ss, digest, outbox)
    ensures Settling(d, root, ss)
  {}

  lemma AdmissionRemembers(d: Checkpoint, ds: seq<Delivery>, d': Checkpoint, e: EventId, g: EntryDigest, n: nat)
    requires AdmitsBatch(d, ds, d')
    ensures Known(d, e, g) ==> Known(d', e, g)
    ensures SettledUnder(d, e, n) ==> SettledUnder(d', e, n)
  {
    var news := NewsOf(d, ds);
    var b :| Admissible(d, news, b) && d' == AdmittedDocument(d, news, b);
    AdmissionKnows(d, news, b, e, g);
    assert forall i | 0 <= i < |d.receipts| :: d'.receipts[i] == d.receipts[i];
    assert forall i | TerminalAt(d, i, e) :: TerminalAt(d', i, e);
    assert forall t | TombstoneAt(d, t, e) :: TombstoneAt(d', t, e);
  }

  lemma PruneRemembers(d: Checkpoint, cutoff: nat, policy: string, d': Checkpoint, e: EventId, g: EntryDigest, n: nat)
    requires PrunesTo(d, cutoff, policy, d')
    ensures Known(d, e, g) ==> Known(d', e, g)
    ensures SettledUnder(d, e, n) ==> SettledUnder(d', e, n)
  {
    hide Known, Prunable;
    PruneKnows(d, cutoff, policy, e, g);
    PrunedView(d, cutoff, policy);
    if i :| TerminalAt(d, i, e) && d.receipts[i].sequence == n {
      if RemovedAt(d, cutoff, i) {
        var t :| TombstoneAt(d', t, e) && d'.tombstones[t] == Grave(d.receipts[i]);
      } else {
        var j :| 0 <= j < |d'.receipts| && Origin(Cut(d, cutoff), j) == i;
        assert TerminalAt(d', j, e);
      }
    } else if t :| TombstoneAt(d, t, e) && d.tombstones[t].terminal == n {
      assert TombstoneAt(d', t, e);
    }
  }

  lemma OutboxRemembers(d: Checkpoint, d': Checkpoint, e: EventId, g: EntryDigest, n: nat)
    requires OnlyOutbox(d, d')
    ensures Known(d, e, g) ==> Known(d', e, g)
    ensures SettledUnder(d, e, n) ==> SettledUnder(d', e, n)
  {
    OutboxKnows(d, d', e, g);
    assert forall i | TerminalAt(d, i, e) :: TerminalAt(d', i, e);
    assert forall t | TombstoneAt(d, t, e) :: TombstoneAt(d', t, e);
  }

  /** No operation forgets an event, its digest, or the receipt sequence that settled it. */
  lemma NextRemembers(d: Checkpoint, d': Checkpoint, e: EventId, g: EntryDigest, n: nat)
    requires Stored(d) && Next(d, d')
    ensures Known(d, e, g) ==> Known(d', e, g)
    ensures SettledUnder(d, e, n) ==> SettledUnder(d', e, n)
  {
    hide Stored, Next, Known, SettledUnder, SettlementStep, AdmitsBatch, PrunesTo, OnlyOutbox, DropsEffect, HostOnly;
    NextKind(d, d');
    if ds :| AdmitsBatch(d, ds, d') && HostOnly(d, ds) {
      AdmissionRemembers(d, ds, d', e, g, n);
    } else if SettlementStep(d, d') {
      SettlementRemembers(d, d', e, g, n);
    } else if cutoff, policy :| PrunesTo(d, cutoff, policy, d') && !DropsEffect(d, cutoff) {
      PruneRemembers(d, cutoff, policy, d', e, g, n);
    } else {
      OutboxRemembers(d, d', e, g, n);
    }
  }

  /** An event is settled at most once, and a settled event no longer waits. */
  lemma SettledOnce(d: Checkpoint, e: EventId, m: nat, n: nat)
    requires Stored(d) && SettledUnder(d, e, m) && SettledUnder(d, e, n)
    ensures m == n && !WaitsFor(d, e)
  {
    assert Terminated(d, e) || Buried(d, e);
    assert !(Terminated(d, e) && Buried(d, e));
  }

  lemma {:induction false} RunRemembers(ds: seq<Checkpoint>, i: nat, j: nat, e: EventId, g: EntryDigest, n: nat)
    requires Run(ds) && i <= j < |ds|
    ensures Known(ds[i], e, g) ==> Known(ds[j], e, g)
    ensures SettledUnder(ds[i], e, n) ==> SettledUnder(ds[j], e, n)
    decreases j - i
  {
    hide Stored, Next, Known, SettledUnder, Created;
    if i < j {
      RunRemembers(ds, i, j - 1, e, g, n);
      RunStored(ds, j - 1);
      assert Next(ds[j - 1], ds[j - 1 + 1]);
      NextRemembers(ds[j - 1], ds[j], e, g, n);
    }
  }

  /** Over any run, once an event is known its verdict is fixed: a later delivery with the same
      digest is a replay, one with another digest a conflict, and none is ever new again. */
  lemma VerdictFixed(ds: seq<Checkpoint>, i: nat, j: nat, e: EventId, g: EntryDigest)
    requires Run(ds) && i <= j < |ds| && Known(ds[i], e, g)
    ensures Known(ds[j], e, g) && !Unknown(ds[j], e)
    ensures forall g' | Known(ds[j], e, g') :: g' == g
  {
    RunRemembers(ds, i, j, e, g, 0);
    RunStored(ds, j);
    forall g' | Known(ds[j], e, g') ensures g' == g { KnownOnce(ds[j], e, g, g'); }
    KnownNotUnknown(ds[j], e, g);
  }

  lemma KnownNotUnknown(d: Checkpoint, e: EventId, g: EntryDigest)
    requires Known(d, e, g)
    ensures !Unknown(d, e)
  {}

  /** Exactly-once settlement: an event settled under receipt `n` stays settled under `n`, by a
      receipt or by its tombstone, is never settled again and never waits again. */
  lemma SettledForGood(ds: seq<Checkpoint>, i: nat, j: nat, e: EventId, n: nat)
    requires Run(ds) && i <= j < |ds| && SettledUnder(ds[i], e, n)
    ensures SettledUnder(ds[j], e, n) && !WaitsFor(ds[j], e)
    ensures forall m | SettledUnder(ds[j], e, m) :: m == n
  {
    hide Run, Stored, SettledUnder, WaitsFor, Known;
    RunRemembers(ds, i, j, e, EntryDigest("", Input, Envelope("", e, "", Host, "", "")), n);
    RunStored(ds, j);
    SettledOnce(ds[j], e, n, n);
    forall m | SettledUnder(ds[j], e, m) ensures m == n { SettledOnce(ds[j], e, m, n); }
  }
}
