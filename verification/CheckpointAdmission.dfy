/** Admission into a checkpoint (`admit_checkpoint_v1`): replay lookup, the document an accepted
    batch writes, and exactly when that document satisfies the stored relation. */
module CheckpointAdmission {
  import opened Options
  import opened Queueing
  import opened CheckpointV1

  // ---------------------------------------------------------------- what a document knows

  /** The document has evidence of event `e` under request digest `g`. */
  ghost predicate Known(d: Checkpoint, e: EventId, g: EntryDigest) {
    || (exists x :: Waits(d, x) && x.envelope.eventId == e && x.digest == g)
    || (exists i :: TerminalAt(d, i, e) && d.receipts[i].request == g)
    || (exists t :: TombstoneAt(d, t, e) && d.tombstones[t].request == g)
  }

  ghost predicate Unknown(d: Checkpoint, e: EventId) {
    !WaitsFor(d, e) && !Terminated(d, e) && !Buried(d, e)
  }

  /** Each event is in at most one of mailbox, terminal receipt and tombstone, so the digest
      that decides between replay and conflict is unique. */
  lemma KnownOnce(d: Checkpoint, e: EventId, g: EntryDigest, g': EntryDigest)
    requires Stored(d) && Known(d, e, g) && Known(d, e, g')
    ensures g == g'
    ensures !(WaitsFor(d, e) && Terminated(d, e))
    ensures !(WaitsFor(d, e) && Buried(d, e))
    ensures !(Terminated(d, e) && Buried(d, e))
  {
    if WaitsFor(d, e) {
      var x :| Waits(d, x) && x.envelope.eventId == e;
      assert !Terminated(d, e) && !Buried(d, e);
      var y :| Waits(d, y) && y.envelope.eventId == e && y.digest == g;
      var z :| Waits(d, z) && z.envelope.eventId == e && z.digest == g';
      SameWaiting(d, y, z);
    } else {
      assert Terminated(d, e) || Buried(d, e);
      assert !(Terminated(d, e) && Buried(d, e));
    }
  }

  lemma SameWaiting(d: Checkpoint, x: Entry, y: Entry)
    requires PendingDistinct(d) && Waits(d, x) && Waits(d, y) && x.envelope.eventId == y.envelope.eventId
    ensures x == y
  {
    var id, late :| Holds(d.root.aggregate.boxes, id, late, x);
    var id', late' :| Holds(d.root.aggregate.boxes, id', late', y);
  }

  // ---------------------------------------------------------------- the admitted document

  function AcceptanceReceipt(root: string, delivery: Delivery, sequence: nat, acceptance: nat, revision: nat): Receipt {
    Acceptance(sequence, delivery.envelope.eventId, EntryDigest(root, delivery.mode, delivery.envelope),
               acceptance, revision, delivery.mode)
  }

  function AdmittedDocument(d: Checkpoint, news: seq<Delivery>, b: Aggregate): Checkpoint
    requires d.root.Retained?
  {
    d.(revision := d.revision + 1, root := Retained(b), nextReceipt := d.nextReceipt + |news|,
       receipts := d.receipts + seq(|news|, i requires 0 <= i < |news| =>
         AcceptanceReceipt(d.rootInstance, news[i], d.nextReceipt + i, d.root.aggregate.nextAcceptance + i, d.revision + 1)))
  }

  /** A batch of deliveries that passed validation and that the document knows nothing about. */
  ghost predicate Admissible(d: Checkpoint, news: seq<Delivery>, b: Aggregate) {
    && d.root.Retained?
    && FreshIds(d.root.aggregate, news)
    && (forall i | 0 <= i < |news| :: ValidDelivery(d.root.aggregate, news[i]) && Unknown(d, news[i].envelope.eventId))
    && Admits(d.root.aggregate, news, b)
    && AggregateOk(b)
  }

  predicate NewAt(d: Checkpoint, news: seq<Delivery>, i: int, e: EventId) {
    |d.receipts| <= i < |d.receipts| + |news| && news[i - |d.receipts|].envelope.eventId == e
  }

  /** Entry number `i` of the batch. */
  ghost predicate NewEntry(d: Checkpoint, news: seq<Delivery>, i: int, x: Entry)
    requires d.root.Retained?
  {
    0 <= i < |news| && x == AdmittedEntry(d.root.aggregate, news[i], i)
  }

  /** The index views of the admitted document in terms of the old one. */
  ghost predicate Viewed(d: Checkpoint, news: seq<Delivery>, d': Checkpoint)
    requires d.root.Retained?
  {
    var n := |d.receipts|;
    && |d'.receipts| == n + |news|
    && (forall i | 0 <= i < n :: d'.receipts[i] == d.receipts[i])
    && (forall i | n <= i < n + |news| ::
          d'.receipts[i] == AcceptanceReceipt(d.rootInstance, news[i - n], d.nextReceipt + i - n,
                                              d.root.aggregate.nextAcceptance + i - n, d.revision + 1))
    && (forall i, e :: AcceptedAt(d', i, e) <==> AcceptedAt(d, i, e) || NewAt(d, news, i, e))
    && (forall i, e :: TerminalAt(d', i, e) <==> TerminalAt(d, i, e))
    && (forall i, k, ref :: RefAt(d', i, k, ref) <==> RefAt(d, i, k, ref))
    && (forall x :: Waits(d', x) <==> Waits(d, x) || exists i :: NewEntry(d, news, i, x))
    && (forall t, e :: TombstoneAt(d', t, e) <==> TombstoneAt(d, t, e))
    && (forall m | 0 <= m < |news| :: Unknown(d, news[m].envelope.eventId))
  }

  lemma AdmittedView(d: Checkpoint, news: seq<Delivery>, b: Aggregate)
    requires Admissible(d, news, b)
    ensures Viewed(d, news, AdmittedDocument(d, news, b))
  {
    hide AggregateOk, FreshIds, Admits, ValidDelivery, Unknown;
    var d' := AdmittedDocument(d, news, b);
    assert forall i | 0 <= i < |d.receipts| :: d'.receipts[i] == d.receipts[i];
    assert forall i | |d.receipts| <= i < |d'.receipts| :: d'.receipts[i].Acceptance?;
    forall x
      ensures Waits(d', x) <==> Waits(d, x) || exists i :: NewEntry(d, news, i, x)
    {
      AdmittedWaits(d, news, b, x);
    }
  }

  lemma AdmittedWaits(d: Checkpoint, news: seq<Delivery>, b: Aggregate, x: Entry)
    requires d.root.Retained? && Admits(d.root.aggregate, news, b)
    ensures Pending(b, x) <==> Waits(d, x) || exists i :: NewEntry(d, news, i, x)
  {
    var a := d.root.aggregate;
    if id, late :| Holds(b.boxes, id, late, x) {
      if !Holds(a.boxes, id, late, x) {
        var i :| 0 <= i < |news| && id == news[i].envelope.target && x == AdmittedEntry(a, news[i], i);
        assert NewEntry(d, news, i, x);
      }
    }
    if id, late :| Holds(a.boxes, id, late, x) {
      assert Holds(b.boxes, id, late, x);
    }
    if i :| NewEntry(d, news, i, x) {
      assert Holds(b.boxes, news[i].envelope.target, false, x);
    }
  }

  // ---------------------------------------------------------------- keeping the relation

  lemma AdmitReceipts(d: Checkpoint, news: seq<Delivery>, d': Checkpoint)
    requires d.root.Retained? && Viewed(d, news, d')
    requires d'.nextReceipt == d.nextReceipt + |news| && d'.revision == d.revision + 1 && d'.cutoff == d.cutoff
    requires ReceiptsContiguous(d) && RevisionsBounded(d) && Chronological(d) && DigestsAgree(d)
    ensures ReceiptsContiguous(d') && RevisionsBounded(d') && Chronological(d') && DigestsAgree(d')
  {}

  lemma NotAccepted(d: Checkpoint, news: seq<Delivery>, d': Checkpoint, m: int)
    requires d.root.Retained? && Viewed(d, news, d') && AcceptancesSettled(d) && 0 <= m < |news|
    ensures !Accepted(d, news[m].envelope.eventId)
  {
    assert Unknown(d, news[m].envelope.eventId);
  }

  lemma AdmitEvents(d: Checkpoint, news: seq<Delivery>, d': Checkpoint)
    requires d.root.Retained? && Viewed(d, news, d') && FreshIds(d.root.aggregate, news)
    requires AcceptancesSettled(d) && EventsDistinct(d) && ReferencesDistinct(d) && TerminalsAccounted(d)
    requires TerminalRefsBacked(d) && d'.tombstones == d.tombstones && d'.cutoff == d.cutoff
    ensures EventsDistinct(d') && ReferencesDistinct(d') && TerminalsAccounted(d') && TerminalRefsBacked(d')
  {
    forall m | 0 <= m < |news|
      ensures !Accepted(d, news[m].envelope.eventId) && !Terminated(d, news[m].envelope.eventId)
    {
      NotAccepted(d, news, d', m);
    }
    assert EventsDistinct(d');
    assert forall e :: HasTerminalRef(d', e) <==> HasTerminalRef(d, e);
    assert forall e | Terminated(d, e) :: Accepted(d', e) <==> Accepted(d, e) by {
      forall e | Terminated(d, e) ensures Accepted(d', e) <==> Accepted(d, e) {
        assert forall i :: AcceptedAt(d', i, e) <==> AcceptedAt(d, i, e);
      }
    }
    AdmitTerminals(d, news, d');
    AdmitBacking(d, news, d');
  }

  lemma AdmitTerminals(d: Checkpoint, news: seq<Delivery>, d': Checkpoint)
    requires d.root.Retained? && Viewed(d, news, d') && TerminalsAccounted(d) && d'.cutoff == d.cutoff
    requires forall e | Terminated(d, e) :: Accepted(d', e) <==> Accepted(d, e)
    requires forall e :: HasTerminalRef(d', e) <==> HasTerminalRef(d, e)
    ensures TerminalsAccounted(d')
  {
    forall e, i | TerminalAt(d', i, e)
      ensures TerminalAt(d, i, e) && d'.receipts[i] == d.receipts[i] && Terminated(d, e)
      ensures forall j :: AcceptedAt(d', j, e) <==> AcceptedAt(d, j, e)
    {}
    assert forall i, k, ref | RefAt(d, i, k, ref) :: d'.receipts[i] == d.receipts[i];
  }

  lemma AdmitBacking(d: Checkpoint, news: seq<Delivery>, d': Checkpoint)
    requires d.root.Retained? && Viewed(d, news, d') && TerminalRefsBacked(d) && d'.tombstones == d.tombstones
    ensures TerminalRefsBacked(d')
  {
    forall i, k, ref | RefAt(d', i, k, ref) && ref.InternalTerminal?
      ensures (exists j :: TerminalAt(d', j, ref.eventId) && d'.receipts[j].sequence == ref.terminal)
           || (!Terminated(d', ref.eventId)
               && exists t :: TombstoneAt(d', t, ref.eventId) && d'.tombstones[t].terminal == ref.terminal)
    {
      assert RefAt(d, i, k, ref);
      if j :| TerminalAt(d, j, ref.eventId) && d.receipts[j].sequence == ref.terminal {
        assert TerminalAt(d', j, ref.eventId);
      } else {
        var t :| TombstoneAt(d, t, ref.eventId) && d.tombstones[t].terminal == ref.terminal;
        assert TombstoneAt(d', t, ref.eventId);
      }
    }
  }

  lemma AdmitPending(d: Checkpoint, news: seq<Delivery>, d': Checkpoint)
    requires d.root.Retained? && Viewed(d, news, d') && FreshIds(d.root.aggregate, news)
    requires PendingAccounted(d) && PendingNotTerminal(d) && AcceptancesSettled(d) && MailboxRefsWait(d)
    requires forall i | 0 <= i < |news| :: news[i].envelope.source == Host
    requires forall i | 0 <= i < |news| :: news[i].digest == EntryDigest(d.rootInstance, news[i].mode, news[i].envelope)
    ensures PendingAccounted(d') && PendingNotTerminal(d') && AcceptancesSettled(d') && MailboxRefsWait(d')
  {
    assert forall e :: Terminated(d', e) <==> Terminated(d, e);
    assert forall e :: HasMailboxRef(d', e) <==> HasMailboxRef(d, e);
    forall x | Waits(d', x)
      ensures PendingAccountedAt(d', x)
    {
      if Waits(d, x) {
        AdmitOldMail(d, news, d', x);
      } else {
        var m :| NewEntry(d, news, m, x);
        AdmitNewMail(d, news, d', x, m);
      }
    }
    forall e, i | AcceptedAt(d', i, e)
      ensures WaitsFor(d', e) || Terminated(d', e)
    {
      if NewAt(d, news, i, e) {
        var m := i - |d.receipts|;
        assert NewEntry(d, news, m, AdmittedEntry(d.root.aggregate, news[m], m));
        assert Waits(d', AdmittedEntry(d.root.aggregate, news[m], m));
      } else if x :| Waits(d, x) && x.envelope.eventId == e {
        assert Waits(d', x);
      }
    }
    forall i, k, ref | RefAt(d', i, k, ref) && ref.InternalMailbox?
      ensures WaitsFor(d', ref.eventId)
    {
      assert RefAt(d, i, k, ref);
      var x :| Waits(d, x) && x.envelope.eventId == ref.eventId;
      assert Waits(d', x);
    }
  }

  ghost predicate PendingAccountedAt(d: Checkpoint, x: Entry) {
    var e := x.envelope.eventId;
    && (x.envelope.source == Host <==> Accepted(d, e))
    && (Accepted(d, e) <==> !HasMailboxRef(d, e))
    && (forall i | AcceptedAt(d, i, e) ::
          d.receipts[i].request == x.digest && d.receipts[i].acceptance == x.acceptance)
    && (forall i, k, ref | RefAt(d, i, k, ref) && MailboxRefFor(ref, e) ::
          ref.acceptance == x.acceptance && ref.queue == x.queue)
    && !Terminated(d, e)
  }

  lemma AdmitOldMail(d: Checkpoint, news: seq<Delivery>, d': Checkpoint, x: Entry)
    requires d.root.Retained? && Viewed(d, news, d')
    requires PendingAccounted(d) && PendingNotTerminal(d) && Waits(d, x)
    requires HasMailboxRef(d', x.envelope.eventId) <==> HasMailboxRef(d, x.envelope.eventId)
    requires Terminated(d', x.envelope.eventId) <==> Terminated(d, x.envelope.eventId)
    ensures PendingAccountedAt(d', x)
  {
    var e := x.envelope.eventId;
    assert WaitsFor(d, e);
    assert forall m | 0 <= m < |news| :: news[m].envelope.eventId != e;
    assert forall i :: AcceptedAt(d', i, e) <==> AcceptedAt(d, i, e);
  }

  lemma AdmitNewMail(d: Checkpoint, news: seq<Delivery>, d': Checkpoint, x: Entry, m: int)
    requires d.root.Retained? && Viewed(d, news, d') && FreshIds(d.root.aggregate, news)
    requires AcceptancesSettled(d) && MailboxRefsWait(d) && NewEntry(d, news, m, x)
    requires x.envelope.source == Host && x.digest == EntryDigest(d.rootInstance, x.mode, x.envelope)
    ensures PendingAccountedAt(d', x)
  {
    var e := x.envelope.eventId;
    NotAccepted(d, news, d', m);
    assert Unknown(d, e);
    assert NewAt(d, news, |d.receipts| + m, e) && AcceptedAt(d', |d.receipts| + m, e);
    assert forall i :: !TerminalAt(d', i, e);
    assert forall i, k, ref :: RefAt(d', i, k, ref) ==> !MailboxRefFor(ref, e);
    forall i | AcceptedAt(d', i, e)
      ensures i == |d.receipts| + m
    {
      assert NewAt(d, news, i, e);
      assert !(i - |d.receipts| < m) && !(m < i - |d.receipts|);
    }
  }

  lemma AdmitGraves(d: Checkpoint, news: seq<Delivery>, d': Checkpoint)
    requires d.root.Retained? && Viewed(d, news, d')
    requires TombstonesOk(d) && d'.tombstones == d.tombstones && d'.nextReceipt >= d.nextReceipt
    ensures TombstonesOk(d')
  {
    forall e, t | TombstoneAt(d', t, e)
      ensures !WaitsFor(d', e) && !Accepted(d', e) && !Terminated(d', e)
    {
      assert TombstoneAt(d, t, e) && Buried(d, e);
      assert forall m | 0 <= m < |news| :: news[m].envelope.eventId != e;
    }
    forall i | 0 <= i < |d'.receipts| && d'.receipts[i].EventTerminal?
      ensures i < |d.receipts| && d.receipts[i] == d'.receipts[i]
    {}
  }

  lemma AdmitQueues(d: Checkpoint, news: seq<Delivery>, d': Checkpoint)
    requires d.root.Retained? && Viewed(d, news, d') && d'.root.Retained?
    requires AggregateOk(d'.root.aggregate)
    requires d'.root.aggregate.nextQueue == d.root.aggregate.nextQueue + |news|
    requires QueuesDistinct(d) && AllocationBounded(d)
    ensures QueuesDistinct(d')
    ensures forall x | Waits(d', x) :: x.queue < d'.root.aggregate.nextQueue
    ensures forall i | 0 <= i < |d'.receipts| && d'.receipts[i].EventTerminal? ::
      d'.receipts[i].finalQueue < d'.root.aggregate.nextQueue
  {
    forall i | 0 <= i < |d'.receipts| && d'.receipts[i].EventTerminal?
      ensures i < |d.receipts| && d.receipts[i] == d'.receipts[i]
    {}
    forall x, y | Waits(d', x) && Waits(d', y) && x.queue == y.queue
      ensures x == y
    {
      var id, late :| Holds(d'.root.aggregate.boxes, id, late, x);
      var id', late' :| Holds(d'.root.aggregate.boxes, id', late', y);
    }
    forall x | Waits(d', x)
      ensures x.queue < d'.root.aggregate.nextQueue
    {
      var id, late :| Holds(d'.root.aggregate.boxes, id, late, x);
    }
  }

  lemma AdmitSequences(d: Checkpoint, news: seq<Delivery>, d': Checkpoint)
    requires d.root.Retained? && Viewed(d, news, d') && d'.root.Retained? && d'.tombstones == d.tombstones
    requires AggregateOk(d'.root.aggregate)
    requires d'.root.aggregate.nextAcceptance == d.root.aggregate.nextAcceptance + |news|
    requires d'.root.aggregate.nextQueue == d.root.aggregate.nextQueue + |news|
    requires QueuesDistinct(d) && AllocationBounded(d) && AcceptanceOwners(d)
    ensures QueuesDistinct(d') && AllocationBounded(d') && AcceptanceOwners(d')
  {
    AdmitQueues(d, news, d');
    hide AggregateOk, Viewed, QueuesDistinct, Owns, Waits;
    forall e, n | Owns(d', e, n)
      ensures Owns(d, e, n) || exists m :: Given(d, news, m, e, n)
    {
      AdmitOwner(d, news, d', e, n);
    }
    OwnersKept(d, news, d');
  }

  /** The new owners take the next acceptance numbers, in order. */
  lemma OwnersKept(d: Checkpoint, news: seq<Delivery>, d': Checkpoint)
    requires d.root.Retained? && d'.root.Retained?
    requires d'.root.aggregate.nextAcceptance == d.root.aggregate.nextAcceptance + |news|
    requires AcceptanceOwners(d) && forall e, n | Owns(d, e, n) :: n < d.root.aggregate.nextAcceptance
    requires forall e, n | Owns(d', e, n) :: Owns(d, e, n) || exists m :: Given(d, news, m, e, n)
    ensures AcceptanceOwners(d') && forall e, n | Owns(d', e, n) :: n < d'.root.aggregate.nextAcceptance
  {
    hide Owns;
    forall e, f, n | Owns(d', e, n) && Owns(d', f, n) ensures e == f {
    }
  }

  ghost predicate Given(d: Checkpoint, news: seq<Delivery>, m: int, e: EventId, n: int)
    requires d.root.Retained?
  {
    0 <= m < |news| && news[m].envelope.eventId == e && n == d.root.aggregate.nextAcceptance + m
  }

  lemma AdmitOwner(d: Checkpoint, news: seq<Delivery>, d': Checkpoint, e: EventId, n: int)
    requires d.root.Retained? && Viewed(d, news, d') && d'.tombstones == d.tombstones
    requires Owns(d', e, n)
    ensures Owns(d, e, n) || exists m :: Given(d, news, m, e, n)
  {
    if x :| Waits(d', x) && x.envelope.eventId == e && x.acceptance == n {
      if !Waits(d, x) {
        var m :| NewEntry(d, news, m, x);
        assert Given(d, news, m, e, n);
      }
    } else if i :| (AcceptedAt(d', i, e) || TerminalAt(d', i, e)) && d'.receipts[i].acceptance == n {
      if NewAt(d, news, i, e) {
        assert Given(d, news, i - |d.receipts|, e, n);
      } else {
        assert AcceptedAt(d, i, e) || TerminalAt(d, i, e);
      }
    } else {
      var t :| TombstoneAt(d', t, e) && d'.tombstones[t].acceptance == n;
      assert TombstoneAt(d, t, e);
    }
  }

  /** Outbox lists and referenced effects unchanged: the effects stay accounted for. */
  lemma SameOutbox(d: Checkpoint, d': Checkpoint)
    requires d'.pendingOutbox == d.pendingOutbox && d'.terminalOutbox == d.terminalOutbox
    requires d'.outboxTombstones == d.outboxTombstones && d'.nextTerminal == d.nextTerminal
    requires EffectsAccounted(d) && TerminalSequencesOk(d)
    requires forall f :: EffectReferenced(d', f) <==> EffectReferenced(d, f)
    ensures EffectsAccounted(d') && TerminalSequencesOk(d')
  {
    assert forall i, f :: PendingEffect(d', i, f) <==> PendingEffect(d, i, f);
    assert forall i, f :: TerminalEffect(d', i, f) <==> TerminalEffect(d, i, f);
    assert forall i, f :: BuriedEffect(d', i, f) <==> BuriedEffect(d, i, f);
    assert forall f :: EffectKnown(d', f) <==> EffectKnown(d, f);
  }

  lemma AdmitOutbox(d: Checkpoint, news: seq<Delivery>, d': Checkpoint)
    requires d.root.Retained? && Viewed(d, news, d')
    requires d'.pendingOutbox == d.pendingOutbox && d'.terminalOutbox == d.terminalOutbox
    requires d'.outboxTombstones == d.outboxTombstones && d'.nextTerminal == d.nextTerminal
    requires EffectsAccounted(d) && TerminalSequencesOk(d)
    ensures EffectsAccounted(d') && TerminalSequencesOk(d')
  {
    SameOutbox(d, d');
  }

  lemma HostAdmission(d: Checkpoint, news: seq<Delivery>, b: Aggregate)
    requires Stored(d) && Admissible(d, news, b)
    requires forall i | 0 <= i < |news| :: news[i].envelope.source == Host
    ensures Stored(AdmittedDocument(d, news, b))
  {
    hide ReceiptsContiguous, PendingDistinct, RevisionsBounded, EventsDistinct, ReferencesDistinct, PendingAccounted,
      PendingNotTerminal, TerminalsAccounted, TombstonesOk, AcceptancesSettled, TerminalRefsBacked, Chronological,
      QueuesDistinct, AcceptanceOwners, AllocationBounded, DigestsAgree, EffectsAccounted, TerminalSequencesOk,
      MailboxRefsWait, TombstonesPruned, AggregateOk, Viewed, FreshIds, Admits, Unknown, CurrentDigest;
    var d' := AdmittedDocument(d, news, b);
    AdmittedView(d, news, b);
    assert d.root.aggregate.root == d.rootInstance;
    AdmittedFields(d, news, b);
    AdmitReceipts(d, news, d');
    AdmitEvents(d, news, d');
    AdmitPending(d, news, d');
    AdmitGraves(d, news, d');
    AdmitSequences(d, news, d');
    AdmitOutbox(d, news, d');
  }

  lemma AdmittedFields(d: Checkpoint, news: seq<Delivery>, b: Aggregate)
    requires ReceiptsContiguous(d) && d.root.Retained? && RootAgrees(d)
    requires Admits(d.root.aggregate, news, b) && AggregateOk(b) && TombstonesPruned(d)
    ensures var d' := AdmittedDocument(d, news, b);
      && |d'.receipts| > 0 && RootAgrees(d') && PendingDistinct(d') && TombstonesPruned(d')
      && b.nextAcceptance == d.root.aggregate.nextAcceptance + |news|
      && b.nextQueue == d.root.aggregate.nextQueue + |news|
  {
    var d' := AdmittedDocument(d, news, b);
    assert d'.tombstones == d.tombstones && d'.cutoff == d.cutoff;
  }

  /** The admitted document satisfies the stored relation exactly when every new delivery
      comes from the host: an accepted delivery from a runtime or from the system leaves mail
      with an acceptance receipt that the relation reserves for host mail. */
  lemma AdmissionStored(d: Checkpoint, news: seq<Delivery>, b: Aggregate)
    requires Stored(d) && Admissible(d, news, b)
    ensures Stored(AdmittedDocument(d, news, b)) <==> forall i | 0 <= i < |news| :: news[i].envelope.source == Host
  {
    if forall i | 0 <= i < |news| :: news[i].envelope.source == Host {
      HostAdmission(d, news, b);
    } else {
      var i :| 0 <= i < |news| && news[i].envelope.source != Host;
      InternalAdmission(d, news, b, i);
    }
  }

  lemma InternalAdmission(d: Checkpoint, news: seq<Delivery>, b: Aggregate, i: int)
    requires Admissible(d, news, b) && 0 <= i < |news| && news[i].envelope.source != Host
    ensures !PendingAccounted(AdmittedDocument(d, news, b))
  {
    var d', e := AdmittedDocument(d, news, b), news[i].envelope.eventId;
    AdmittedView(d, news, b);
    var x := AdmittedEntry(d.root.aggregate, news[i], i);
    assert NewEntry(d, news, i, x) && Waits(d', x);
    assert NewAt(d, news, |d.receipts| + i, e) && AcceptedAt(d', |d.receipts| + i, e) && Accepted(d', e);
  }

  /** Admission forgets nothing and learns exactly the new events. */
  lemma AdmissionKnows(d: Checkpoint, news: seq<Delivery>, b: Aggregate, e: EventId, g: EntryDigest)
    requires Admissible(d, news, b)
    ensures Known(AdmittedDocument(d, news, b), e, g) <==>
      || Known(d, e, g)
      || exists i | 0 <= i < |news| :: news[i].envelope.eventId == e && news[i].digest == g
  {
    var d' := AdmittedDocument(d, news, b);
    AdmittedView(d, news, b);
    if i :| 0 <= i < |news| && news[i].envelope.eventId == e && news[i].digest == g {
      assert NewEntry(d, news, i, AdmittedEntry(d.root.aggregate, news[i], i));
      assert Waits(d', AdmittedEntry(d.root.aggregate, news[i], i));
    }
    if x :| Waits(d', x) && x.envelope.eventId == e && x.digest == g && !Waits(d, x) {
      var i :| NewEntry(d, news, i, x);
      assert news[i].envelope.eventId == e && news[i].digest == g;
    }
    assert forall i :: TerminalAt(d', i, e) <==> TerminalAt(d, i, e);
    assert forall t :: TombstoneAt(d', t, e) <==> TombstoneAt(d, t, e);
    assert forall x | Waits(d, x) :: Waits(d', x);
  }
}
