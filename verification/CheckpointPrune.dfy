/** Replay pruning (`prune_checkpoint_v1`): receipts up to a cutoff are dropped, their settled
    events are kept as tombstones, and the result satisfies the stored relation exactly when no
    dropped receipt had produced an outbox effect. */
module CheckpointPrune {
  import opened Options
  import opened Queueing
  import opened CheckpointV1
  import opened CheckpointAdmission

  predicate Accepts(d: Checkpoint, cutoff: nat) {
    (if d.cutoff.None? then true else d.cutoff.value < cutoff) && cutoff < d.nextReceipt
  }

  predicate RemovedAt(d: Checkpoint, cutoff: nat, i: int) {
    1 <= i < |d.receipts| && d.receipts[i].sequence <= cutoff
  }

  /** The dependency checks: nothing that waits, and no undelivered effect, loses its receipt. */
  ghost predicate Prunable(d: Checkpoint, cutoff: nat) {
    && (forall i, e | RemovedAt(d, cutoff, i) && AcceptedAt(d, i, e) ::
          !WaitsFor(d, e) && exists j :: TerminalAt(d, j, e) && RemovedAt(d, cutoff, j))
    && (forall i, k, ref | RemovedAt(d, cutoff, i) && RefAt(d, i, k, ref) && ref.InternalMailbox? :: !WaitsFor(d, ref.eventId))
    && (forall i, k, ref, p | RemovedAt(d, cutoff, i) && RefAt(d, i, k, ref) && ref.ExternalOutbox? ::
          !PendingEffect(d, p, ref.effectId))
  }

  /** A dropped receipt had produced an outbox effect. */
  ghost predicate DropsEffect(d: Checkpoint, cutoff: nat) {
    exists i, k, ref :: RemovedAt(d, cutoff, i) && RefAt(d, i, k, ref) && ref.ExternalOutbox?
  }

  /** Index of the first kept receipt after receipt zero. */
  function Cut(d: Checkpoint, cutoff: nat): nat
    requires Accepts(d, cutoff)
  {
    cutoff - FirstRetained(d.cutoff) + 2
  }

  function Grave(r: Receipt): EventTombstone
    requires r.EventTerminal?
  {
    EventTombstone(r.eventId, r.request, r.acceptance, r.sequence, r.disposition)
  }

  function Graves(rs: seq<Receipt>): seq<EventTombstone> {
    if rs == [] then []
    else Graves(rs[..|rs| - 1]) + if rs[|rs| - 1].EventTerminal? then [Grave(rs[|rs| - 1])] else []
  }

  function PrunedDocument(d: Checkpoint, cutoff: nat, policy: string): Checkpoint
    requires ReceiptsContiguous(d) && Accepts(d, cutoff)
  {
    var cut := Cut(d, cutoff);
    d.(revision := d.revision + 1, retention := Bounded(policy), cutoff := Some(cutoff),
       receipts := [d.receipts[0]] + d.receipts[cut..],
       tombstones := d.tombstones + Graves(d.receipts[1..cut]))
  }

  lemma CutExact(d: Checkpoint, cutoff: nat, i: int)
    requires ReceiptsContiguous(d) && Accepts(d, cutoff)
    ensures 1 <= Cut(d, cutoff) <= |d.receipts|
    ensures RemovedAt(d, cutoff, i) <==> 1 <= i < Cut(d, cutoff)
  {}

  /** Tombstones of the dropped receipts: each dropped terminal receipt has one, in order. */
  lemma {:induction false} GravesExact(rs: seq<Receipt>)
    ensures forall g | g in Graves(rs) :: exists i :: 0 <= i < |rs| && rs[i].EventTerminal? && g == Grave(rs[i])
    ensures forall i | 0 <= i < |rs| && rs[i].EventTerminal? :: Grave(rs[i]) in Graves(rs)
  {
    if rs != [] {
      var front := rs[..|rs| - 1];
      GravesExact(front);
      forall g | g in Graves(rs)
        ensures exists i :: 0 <= i < |rs| && rs[i].EventTerminal? && g == Grave(rs[i])
      {
        if g in Graves(front) {
          var i :| 0 <= i < |front| && front[i].EventTerminal? && g == Grave(front[i]);
          assert rs[i] == front[i];
        }
      }
      forall i | 0 <= i < |rs| && rs[i].EventTerminal?
        ensures Grave(rs[i]) in Graves(rs)
      {
        if i < |front| { assert front[i] == rs[i]; }
      }
    }
  }

  lemma {:induction false} GravesSorted(rs: seq<Receipt>)
    requires forall i, j | 0 <= i < j < |rs| :: rs[i].sequence < rs[j].sequence
    ensures forall s, t | 0 <= s < t < |Graves(rs)| :: Graves(rs)[s].terminal < Graves(rs)[t].terminal
  {
    if rs != [] {
      var front := rs[..|rs| - 1];
      GravesSorted(front);
      GravesExact(front);
      forall s | 0 <= s < |Graves(front)|
        ensures Graves(front)[s].terminal < rs[|rs| - 1].sequence
      {
        assert Graves(front)[s] in Graves(front);
        var i :| 0 <= i < |front| && front[i].EventTerminal? && Graves(front)[s] == Grave(front[i]);
      }
    }
  }

  // ---------------------------------------------------------------- the pruned document

  function Origin(cut: nat, j: int): int {
    if j == 0 then 0 else j + cut - 1
  }

  predicate BuriedHere(d: Checkpoint, cutoff: nat, i: int, e: EventId, g: EventTombstone) {
    RemovedAt(d, cutoff, i) && TerminalAt(d, i, e) && g == Grave(d.receipts[i])
  }

  ghost predicate FromDropped(d: Checkpoint, cutoff: nat, g: EventTombstone) {
    exists i :: BuriedHere(d, cutoff, i, g.eventId, g)
  }

  ghost predicate DroppedReceipts(d: Checkpoint, cutoff: nat, d': Checkpoint)
    requires ReceiptsContiguous(d) && Accepts(d, cutoff)
  {
    var cut := Cut(d, cutoff);
    && |d'.receipts| == |d.receipts| - cut + 1
    && (forall j | 0 <= j < |d'.receipts| :: d'.receipts[j] == d.receipts[Origin(cut, j)] && !RemovedAt(d, cutoff, Origin(cut, j)))
    && (forall i | 0 <= i < |d.receipts| && !RemovedAt(d, cutoff, i) ::
          exists j :: 0 <= j < |d'.receipts| && Origin(cut, j) == i)
  }

  ghost predicate DroppedGraves(d: Checkpoint, cutoff: nat, d': Checkpoint) {
    && |d.tombstones| <= |d'.tombstones|
    && (forall t | 0 <= t < |d.tombstones| :: d'.tombstones[t] == d.tombstones[t])
    && (forall t | |d.tombstones| <= t < |d'.tombstones| :: FromDropped(d, cutoff, d'.tombstones[t]))
    && (forall i, e | RemovedAt(d, cutoff, i) && TerminalAt(d, i, e) ::
          exists t :: TombstoneAt(d', t, e) && d'.tombstones[t] == Grave(d.receipts[i]))
    && (forall s, t | |d.tombstones| <= s < t < |d'.tombstones| :: d'.tombstones[s].terminal < d'.tombstones[t].terminal)
  }

  ghost predicate Dropped(d: Checkpoint, cutoff: nat, d': Checkpoint)
    requires ReceiptsContiguous(d) && Accepts(d, cutoff)
  {
    DroppedReceipts(d, cutoff, d') && DroppedGraves(d, cutoff, d')
  }

  lemma KeptReceipts(d: Checkpoint, cutoff: nat, policy: string)
    requires ReceiptsContiguous(d) && Accepts(d, cutoff)
    ensures DroppedReceipts(d, cutoff, PrunedDocument(d, cutoff, policy))
  {
    var d', cut := PrunedDocument(d, cutoff, policy), Cut(d, cutoff);
    forall j | 0 <= j < |d'.receipts|
      ensures d'.receipts[j] == d.receipts[Origin(cut, j)] && !RemovedAt(d, cutoff, Origin(cut, j))
    {
      CutExact(d, cutoff, Origin(cut, j));
    }
    forall i | 0 <= i < |d.receipts| && !RemovedAt(d, cutoff, i)
      ensures exists j :: 0 <= j < |d'.receipts| && Origin(cut, j) == i
    {
      CutExact(d, cutoff, i);
      assert Origin(cut, if i == 0 then 0 else i - cut + 1) == i;
    }
  }

  lemma NewGraves(d: Checkpoint, cutoff: nat, policy: string)
    requires ReceiptsContiguous(d) && Accepts(d, cutoff)
    ensures DroppedGraves(d, cutoff, PrunedDocument(d, cutoff, policy))
  {
    var d', cut := PrunedDocument(d, cutoff, policy), Cut(d, cutoff);
    var gone, n := d.receipts[1..cut], |d.tombstones|;
    assert forall i | 0 <= i < |gone| :: gone[i] == d.receipts[i + 1];
    GravesExact(gone);
    GravesSorted(gone);
    var graves := Graves(gone);
    hide ReceiptsContiguous, Graves;
    assert forall t | n <= t < |d'.tombstones| :: d'.tombstones[t] == graves[t - n];
    forall t | n <= t < |d'.tombstones|
      ensures FromDropped(d, cutoff, d'.tombstones[t])
    {
      assert graves[t - n] in graves;
      var i :| 0 <= i < |gone| && gone[i].EventTerminal? && d'.tombstones[t] == Grave(gone[i]);
      CutExact(d, cutoff, i + 1);
      assert BuriedHere(d, cutoff, i + 1, d'.tombstones[t].eventId, d'.tombstones[t]);
    }
    forall i, e | RemovedAt(d, cutoff, i) && TerminalAt(d, i, e)
      ensures exists t :: TombstoneAt(d', t, e) && d'.tombstones[t] == Grave(d.receipts[i])
    {
      CutExact(d, cutoff, i);
      assert gone[i - 1] == d.receipts[i];
      var t :| 0 <= t < |graves| && graves[t] == Grave(d.receipts[i]);
      assert TombstoneAt(d', n + t, e);
    }
  }

  lemma PrunedView(d: Checkpoint, cutoff: nat, policy: string)
    requires ReceiptsContiguous(d) && Accepts(d, cutoff)
    ensures Dropped(d, cutoff, PrunedDocument(d, cutoff, policy))
  {
    KeptReceipts(d, cutoff, policy);
    NewGraves(d, cutoff, policy);
  }

  /** The index views of the pruned document in terms of the old one. */
  ghost predicate Viewed(d: Checkpoint, cutoff: nat, d': Checkpoint)
    requires ReceiptsContiguous(d) && Accepts(d, cutoff)
  {
    var cut := Cut(d, cutoff);
    && Dropped(d, cutoff, d')
    && (forall j, e :: AcceptedAt(d', j, e) <==> 0 <= j < |d'.receipts| && AcceptedAt(d, Origin(cut, j), e))
    && (forall j, e :: TerminalAt(d', j, e) <==> 0 <= j < |d'.receipts| && TerminalAt(d, Origin(cut, j), e))
    && (forall j, k, ref :: RefAt(d', j, k, ref) <==> 0 <= j < |d'.receipts| && RefAt(d, Origin(cut, j), k, ref))
    && (forall i, e | AcceptedAt(d, i, e) && !RemovedAt(d, cutoff, i) :: Accepted(d', e))
    && (forall i, e | TerminalAt(d, i, e) && !RemovedAt(d, cutoff, i) :: Terminated(d', e))
    && (forall i, k, ref | RefAt(d, i, k, ref) && !RemovedAt(d, cutoff, i) :: exists j :: RefAt(d', j, k, ref))
    && d'.root == d.root && d'.cutoff == Some(cutoff) && d'.nextReceipt == d.nextReceipt
    && d'.revision == d.revision + 1
  }

  lemma PrunedViews(d: Checkpoint, cutoff: nat, policy: string)
    requires ReceiptsContiguous(d) && Accepts(d, cutoff)
    ensures Viewed(d, cutoff, PrunedDocument(d, cutoff, policy))
  {
    var d', cut := PrunedDocument(d, cutoff, policy), Cut(d, cutoff);
    PrunedView(d, cutoff, policy);
    forall i, e | AcceptedAt(d, i, e) && !RemovedAt(d, cutoff, i)
      ensures Accepted(d', e)
    {
      var j :| 0 <= j < |d'.receipts| && Origin(cut, j) == i;
      assert AcceptedAt(d', j, e);
    }
    forall i, e | TerminalAt(d, i, e) && !RemovedAt(d, cutoff, i)
      ensures Terminated(d', e)
    {
      var j :| 0 <= j < |d'.receipts| && Origin(cut, j) == i;
      assert TerminalAt(d', j, e);
    }
    forall i, k, ref | RefAt(d, i, k, ref) && !RemovedAt(d, cutoff, i)
      ensures exists j :: RefAt(d', j, k, ref)
    {
      var j :| 0 <= j < |d'.receipts| && Origin(cut, j) == i;
      assert RefAt(d', j, k, ref);
    }
  }

  // ---------------------------------------------------------------- keeping the relation

  lemma PruneReceipts(d: Checkpoint, cutoff: nat, d': Checkpoint)
    requires ReceiptsContiguous(d) && Accepts(d, cutoff) && Viewed(d, cutoff, d')
    requires RevisionsBounded(d) && Chronological(d)
    ensures ReceiptsContiguous(d') && RevisionsBounded(d') && Chronological(d')
  {
    hide Chronological, RefAt, AcceptedAt, TerminalAt, TombstoneAt, FromDropped;
    CutExact(d, cutoff, 0);
    PruneOrder(d, cutoff, d');
  }

  lemma PruneOrder(d: Checkpoint, cutoff: nat, d': Checkpoint)
    requires ReceiptsContiguous(d) && Accepts(d, cutoff) && Dropped(d, cutoff, d') && Chronological(d)
    ensures Chronological(d')
  {
    hide FromDropped;
    CutExact(d, cutoff, 0);
    var cut := Cut(d, cutoff);
    forall i, j | 0 <= i < j < |d'.receipts|
      ensures Origin(cut, i) < Origin(cut, j) < |d.receipts|
    {}
  }

  lemma PruneDigests(d: Checkpoint, cutoff: nat, d': Checkpoint)
    requires ReceiptsContiguous(d) && Accepts(d, cutoff) && Viewed(d, cutoff, d')
    requires RevisionsBounded(d) && DigestsAgree(d)
    ensures DigestsAgree(d')
  {
    hide FromDropped, RefAt, AcceptedAt, TerminalAt, TombstoneAt;
    CutExact(d, cutoff, 0);
    var cut := Cut(d, cutoff);
    forall i, j | 0 <= i < j < |d'.receipts|
      ensures Origin(cut, i) < Origin(cut, j) < |d.receipts|
    {}
  }

  lemma PruneEvents(d: Checkpoint, cutoff: nat, d': Checkpoint)
    requires ReceiptsContiguous(d) && Accepts(d, cutoff) && Viewed(d, cutoff, d')
    requires EventsDistinct(d) && ReferencesDistinct(d)
    ensures EventsDistinct(d') && ReferencesDistinct(d')
  {}

  lemma PrunePending(d: Checkpoint, cutoff: nat, d': Checkpoint)
    requires ReceiptsContiguous(d) && Accepts(d, cutoff) && Viewed(d, cutoff, d')
    requires Prunable(d, cutoff) && PendingAccounted(d) && PendingNotTerminal(d) && MailboxRefsWait(d)
    ensures PendingAccounted(d') && PendingNotTerminal(d') && MailboxRefsWait(d')
  {
    forall x | Waits(d', x)
      ensures PendingAccountedAt(d', x)
    {
      PrunePendingAt(d, cutoff, d', x);
    }
    forall j, k, ref | RefAt(d', j, k, ref) && ref.InternalMailbox?
      ensures WaitsFor(d', ref.eventId)
    {
      assert RefAt(d, Origin(Cut(d, cutoff), j), k, ref);
      var x :| Waits(d, x) && x.envelope.eventId == ref.eventId;
      assert Waits(d', x);
    }
  }

  lemma PruneAccepted(d: Checkpoint, cutoff: nat, d': Checkpoint, e: EventId)
    requires ReceiptsContiguous(d) && Accepts(d, cutoff) && Viewed(d, cutoff, d')
    requires Prunable(d, cutoff) && WaitsFor(d, e)
    ensures Accepted(d', e) <==> Accepted(d, e)
  {
    hide RefAt, TerminalAt;
    var cut := Cut(d, cutoff);
    if i :| AcceptedAt(d, i, e) { assert !RemovedAt(d, cutoff, i); }
    if j :| AcceptedAt(d', j, e) { assert AcceptedAt(d, Origin(cut, j), e); }
  }

  lemma PruneReferred(d: Checkpoint, cutoff: nat, d': Checkpoint, e: EventId)
    requires ReceiptsContiguous(d) && Accepts(d, cutoff) && Viewed(d, cutoff, d')
    requires Prunable(d, cutoff) && WaitsFor(d, e)
    ensures HasMailboxRef(d', e) <==> HasMailboxRef(d, e)
  {
    hide TerminalAt, AcceptedAt;
    var cut := Cut(d, cutoff);
    if i, k, ref :| RefAt(d, i, k, ref) && MailboxRefFor(ref, e) {
      assert !RemovedAt(d, cutoff, i);
      var j :| RefAt(d', j, k, ref);
    }
    if j, k, ref :| RefAt(d', j, k, ref) && MailboxRefFor(ref, e) { assert RefAt(d, Origin(cut, j), k, ref); }
  }

  lemma PrunePendingAt(d: Checkpoint, cutoff: nat, d': Checkpoint, x: Entry)
    requires ReceiptsContiguous(d) && Accepts(d, cutoff) && Viewed(d, cutoff, d')
    requires Prunable(d, cutoff) && PendingAccounted(d) && PendingNotTerminal(d) && Waits(d, x)
    ensures PendingAccountedAt(d', x)
  {
    var e, cut := x.envelope.eventId, Cut(d, cutoff);
    assert WaitsFor(d, e);
    PruneAccepted(d, cutoff, d', e);
    PruneReferred(d, cutoff, d', e);
    hide Prunable, Accepts, ReceiptsContiguous;
    assert !Terminated(d, e);
    assert forall j :: !TerminalAt(d, Origin(cut, j), e);
  }

  /** An acceptance is dropped together with the receipt that settled its event. */
  lemma KeptTogether(d: Checkpoint, cutoff: nat, i: int, j: int, e: EventId)
    requires ReceiptsContiguous(d) && |d.receipts| > 0 && d.receipts[0].Creation?
    requires TerminalsAccounted(d) && EventsDistinct(d) && Prunable(d, cutoff)
    requires AcceptedAt(d, i, e) && TerminalAt(d, j, e)
    ensures RemovedAt(d, cutoff, i) <==> RemovedAt(d, cutoff, j)
  {
    assert d.receipts[i].sequence < d.receipts[j].sequence;
  }

  lemma PruneTerminals(d: Checkpoint, cutoff: nat, d': Checkpoint)
    requires ReceiptsContiguous(d) && Accepts(d, cutoff) && Viewed(d, cutoff, d')
    requires TerminalsAccounted(d)
    ensures TerminalsAccounted(d')
  {
    var cut := Cut(d, cutoff);
    forall e, i | TerminalAt(d', i, e)
      ensures !(Accepted(d', e) && HasTerminalRef(d', e))
    {
      assert TerminalAt(d, Origin(cut, i), e);
      if j :| AcceptedAt(d', j, e) { assert AcceptedAt(d, Origin(cut, j), e) && Accepted(d, e); }
      if j, k, ref :| RefAt(d', j, k, ref) && TerminalRefFor(ref, e) {
        assert RefAt(d, Origin(cut, j), k, ref) && HasTerminalRef(d, e);
      }
    }
  }

  /** An event has a tombstone afterwards when it had one, or when its terminal receipt went. */
  lemma BuriedBack(d: Checkpoint, cutoff: nat, d': Checkpoint, t: int, e: EventId)
    requires ReceiptsContiguous(d) && Accepts(d, cutoff) && Viewed(d, cutoff, d')
    requires TombstoneAt(d', t, e)
    ensures TombstoneAt(d, t, e) || exists i :: BuriedHere(d, cutoff, i, e, d'.tombstones[t])
  {}

  lemma PruneGraves(d: Checkpoint, cutoff: nat, d': Checkpoint)
    requires ReceiptsContiguous(d) && Accepts(d, cutoff) && Viewed(d, cutoff, d') && d.receipts[0].Creation?
    requires TombstonesOk(d) && TombstonesPruned(d) && EventsDistinct(d) && TerminalsAccounted(d)
    requires PendingNotTerminal(d) && Prunable(d, cutoff)
    ensures TombstonesOk(d') && TombstonesPruned(d')
  {
    forall e, t | TombstoneAt(d', t, e)
      ensures !WaitsFor(d', e) && !Accepted(d', e) && !Terminated(d', e)
    {
      PruneGraveAlone(d, cutoff, d', t, e);
    }
    forall e, s, t | TombstoneAt(d', s, e) && TombstoneAt(d', t, e)
      ensures s == t
    {
      PruneGraveOnce(d, cutoff, d', s, t, e);
    }
    forall t | |d.tombstones| <= t < |d'.tombstones|
      ensures d'.tombstones[t].terminal <= cutoff
      ensures d.cutoff.Some? ==> d.cutoff.value < d'.tombstones[t].terminal
    {
      var i :| BuriedHere(d, cutoff, i, d'.tombstones[t].eventId, d'.tombstones[t]);
    }
    PruneGraveSequences(d, cutoff, d');
  }

  lemma PruneGraveSequences(d: Checkpoint, cutoff: nat, d': Checkpoint)
    requires ReceiptsContiguous(d) && Accepts(d, cutoff) && Viewed(d, cutoff, d') && d.receipts[0].Creation?
    requires TombstonesOk(d) && TombstonesPruned(d)
    requires forall t | |d.tombstones| <= t < |d'.tombstones| ::
      d'.tombstones[t].terminal <= cutoff && (d.cutoff.Some? ==> d.cutoff.value < d'.tombstones[t].terminal)
    ensures forall t, i | 0 <= t < |d'.tombstones| && 0 <= i < |d'.receipts| && d'.receipts[i].EventTerminal? ::
      d'.tombstones[t].terminal != d'.receipts[i].sequence
    ensures forall s, t | 0 <= s < t < |d'.tombstones| :: d'.tombstones[s].terminal <= d'.tombstones[t].terminal
    ensures forall t | 0 <= t < |d'.tombstones| :: d'.tombstones[t].terminal <= cutoff
  {
    forall i | 0 <= i < |d'.receipts| && d'.receipts[i].EventTerminal?
      ensures d'.receipts[i].sequence > cutoff
    {
      assert !RemovedAt(d, cutoff, Origin(Cut(d, cutoff), i));
    }
  }

  lemma PruneGraveAlone(d: Checkpoint, cutoff: nat, d': Checkpoint, t: int, e: EventId)
    requires ReceiptsContiguous(d) && Accepts(d, cutoff) && Viewed(d, cutoff, d') && d.receipts[0].Creation?
    requires TombstonesOk(d) && EventsDistinct(d) && TerminalsAccounted(d)
    requires PendingNotTerminal(d) && Prunable(d, cutoff)
    requires TombstoneAt(d', t, e)
    ensures !WaitsFor(d', e) && !Accepted(d', e) && !Terminated(d', e)
  {
    var cut := Cut(d, cutoff);
    forall x | Waits(d', x) ensures Waits(d, x) {}
    forall j | AcceptedAt(d', j, e) ensures AcceptedAt(d, Origin(cut, j), e) && !RemovedAt(d, cutoff, Origin(cut, j)) {}
    forall j | TerminalAt(d', j, e) ensures TerminalAt(d, Origin(cut, j), e) && !RemovedAt(d, cutoff, Origin(cut, j)) {}
    if !TombstoneAt(d, t, e) {
      var i :| BuriedHere(d, cutoff, i, e, d'.tombstones[t]);
      forall j | AcceptedAt(d, j, e) ensures RemovedAt(d, cutoff, j) {
        KeptTogether(d, cutoff, j, i, e);
      }
      assert forall x | Waits(d, x) :: x.envelope.eventId != e by {
        forall x | Waits(d, x) ensures x.envelope.eventId != e { assert !Terminated(d, x.envelope.eventId); }
      }
    }
  }

  lemma PruneGraveOnce(d: Checkpoint, cutoff: nat, d': Checkpoint, s: int, t: int, e: EventId)
    requires ReceiptsContiguous(d) && Accepts(d, cutoff) && Viewed(d, cutoff, d')
    requires TombstonesOk(d) && EventsDistinct(d)
    requires TombstoneAt(d', s, e) && TombstoneAt(d', t, e)
    ensures s == t
  {
    if TombstoneAt(d, s, e) {
      assert forall i :: !TerminalAt(d, i, e);
      assert TombstoneAt(d, t, e);
    } else {
      var i :| BuriedHere(d, cutoff, i, e, d'.tombstones[s]);
      assert Terminated(d, e) && !TombstoneAt(d, t, e);
      var j :| BuriedHere(d, cutoff, j, e, d'.tombstones[t]);
      assert i == j;
    }
  }

  lemma PruneSettled(d: Checkpoint, cutoff: nat, d': Checkpoint)
    requires ReceiptsContiguous(d) && Accepts(d, cutoff) && Viewed(d, cutoff, d') && d.receipts[0].Creation?
    requires AcceptancesSettled(d) && TerminalRefsBacked(d) && TerminalsAccounted(d) && EventsDistinct(d)
    requires Prunable(d, cutoff) && TombstonesOk(d')
    ensures AcceptancesSettled(d') && TerminalRefsBacked(d')
  {
    var cut := Cut(d, cutoff);
    forall e, j | AcceptedAt(d', j, e)
      ensures WaitsFor(d', e) || Terminated(d', e)
    {
      var i := Origin(cut, j);
      if x :| Waits(d, x) && x.envelope.eventId == e {
        assert Waits(d', x);
      } else {
        var l :| TerminalAt(d, l, e);
        KeptTogether(d, cutoff, i, l, e);
      }
    }
    forall j, k, ref | RefAt(d', j, k, ref) && ref.InternalTerminal?
      ensures (exists l :: TerminalAt(d', l, ref.eventId) && d'.receipts[l].sequence == ref.terminal)
           || (!Terminated(d', ref.eventId)
               && exists t :: TombstoneAt(d', t, ref.eventId) && d'.tombstones[t].terminal == ref.terminal)
    {
      assert RefAt(d, Origin(cut, j), k, ref);
      PruneBacked(d, cutoff, d', ref);
    }
  }

  lemma PruneBacked(d: Checkpoint, cutoff: nat, d': Checkpoint, ref: Reference)
    requires ReceiptsContiguous(d) && Accepts(d, cutoff) && Viewed(d, cutoff, d')
    requires EventsDistinct(d) && TombstonesOk(d') && ref.InternalTerminal?
    requires (exists l :: TerminalAt(d, l, ref.eventId) && d.receipts[l].sequence == ref.terminal)
      || (!Terminated(d, ref.eventId)
          && exists t :: TombstoneAt(d, t, ref.eventId) && d.tombstones[t].terminal == ref.terminal)
    ensures (exists l :: TerminalAt(d', l, ref.eventId) && d'.receipts[l].sequence == ref.terminal)
      || (!Terminated(d', ref.eventId)
          && exists t :: TombstoneAt(d', t, ref.eventId) && d'.tombstones[t].terminal == ref.terminal)
  {
    var e := ref.eventId;
    if l :| TerminalAt(d, l, e) && d.receipts[l].sequence == ref.terminal {
      if RemovedAt(d, cutoff, l) {
        var t :| TombstoneAt(d', t, e) && d'.tombstones[t] == Grave(d.receipts[l]);
        assert d'.tombstones[t].terminal == ref.terminal;
        assert !Terminated(d', e);
      } else {
        var j :| 0 <= j < |d'.receipts| && Origin(Cut(d, cutoff), j) == l;
        assert TerminalAt(d', j, e);
      }
    } else {
      var t :| TombstoneAt(d, t, e) && d.tombstones[t].terminal == ref.terminal;
      assert TombstoneAt(d', t, e);
    }
  }

  lemma PruneSequences(d: Checkpoint, cutoff: nat, d': Checkpoint)
    requires ReceiptsContiguous(d) && Accepts(d, cutoff) && Viewed(d, cutoff, d')
    requires QueuesDistinct(d) && AcceptanceOwners(d) && AllocationBounded(d)
    ensures QueuesDistinct(d') && AcceptanceOwners(d') && AllocationBounded(d')
  {
    assert forall x :: Waits(d', x) <==> Waits(d, x);
    forall e, n | Owns(d', e, n)
      ensures Owns(d, e, n)
    {
      PruneOwner(d, cutoff, d', e, n);
    }
  }

  lemma PruneOwner(d: Checkpoint, cutoff: nat, d': Checkpoint, e: EventId, n: int)
    requires ReceiptsContiguous(d) && Accepts(d, cutoff) && Viewed(d, cutoff, d')
    requires Owns(d', e, n)
    ensures Owns(d, e, n)
  {
    if x :| Waits(d', x) && x.envelope.eventId == e && x.acceptance == n {
      assert Waits(d, x);
    } else if j :| (AcceptedAt(d', j, e) || TerminalAt(d', j, e)) && d'.receipts[j].acceptance == n {
      assert AcceptedAt(d, Origin(Cut(d, cutoff), j), e) || TerminalAt(d, Origin(Cut(d, cutoff), j), e);
    } else {
      var t :| TombstoneAt(d', t, e) && d'.tombstones[t].acceptance == n;
      if !TombstoneAt(d, t, e) {
        var i :| BuriedHere(d, cutoff, i, e, d'.tombstones[t]);
        assert TerminalAt(d, i, e);
      } else {
        assert d.tombstones[t] == d'.tombstones[t];
      }
    }
  }

  lemma DroppedEffectLost(d: Checkpoint, cutoff: nat, d': Checkpoint, i: int, k: int, ref: Reference)
    requires ReceiptsContiguous(d) && Accepts(d, cutoff) && Viewed(d, cutoff, d') && ReferencesDistinct(d)
    requires RemovedAt(d, cutoff, i) && RefAt(d, i, k, ref) && ref.ExternalOutbox?
    ensures !EffectReferenced(d', ref.effectId)
  {
    forall j, l, s | RefAt(d', j, l, s) && s.ExternalOutbox?
      ensures s.effectId != ref.effectId
    {
      assert RefAt(d, Origin(Cut(d, cutoff), j), l, s) && !RemovedAt(d, cutoff, Origin(Cut(d, cutoff), j));
      assert !SameSubject(ref, s);
    }
  }

  lemma KeptEffects(d: Checkpoint, cutoff: nat, d': Checkpoint, f: string)
    requires ReceiptsContiguous(d) && Accepts(d, cutoff) && Viewed(d, cutoff, d') && !DropsEffect(d, cutoff)
    ensures EffectReferenced(d', f) <==> EffectReferenced(d, f)
  {
    if i, k, ref :| RefAt(d, i, k, ref) && ref.ExternalOutbox? && ref.effectId == f {
      assert !RemovedAt(d, cutoff, i);
      var j :| RefAt(d', j, k, ref);
    }
    if j, k, ref :| RefAt(d', j, k, ref) && ref.ExternalOutbox? && ref.effectId == f {
      assert RefAt(d, Origin(Cut(d, cutoff), j), k, ref);
    }
  }

  /** The effects stay accounted for exactly when no dropped receipt referenced one: terminal
      outbox records and effect tombstones stay behind. */
  lemma PruneEffects(d: Checkpoint, cutoff: nat, d': Checkpoint)
    requires ReceiptsContiguous(d) && Accepts(d, cutoff) && Viewed(d, cutoff, d')
    requires d'.pendingOutbox == d.pendingOutbox && d'.terminalOutbox == d.terminalOutbox
    requires d'.outboxTombstones == d.outboxTombstones && d'.nextTerminal == d.nextTerminal
    requires EffectsAccounted(d) && TerminalSequencesOk(d) && ReferencesDistinct(d)
    ensures TerminalSequencesOk(d')
    ensures EffectsAccounted(d') <==> !DropsEffect(d, cutoff)
  {
    hide Viewed, ReferencesDistinct, ReceiptsContiguous;
    assert TerminalSequencesOk(d');
    if i, k, ref :| RemovedAt(d, cutoff, i) && RefAt(d, i, k, ref) && ref.ExternalOutbox? {
      assert DropsEffect(d, cutoff);
      DroppedEffectLost(d, cutoff, d', i, k, ref);
      DroppedEffectKnown(d, d', i, k, ref);
    } else {
      assert !DropsEffect(d, cutoff);
      forall f
        ensures EffectReferenced(d', f) <==> EffectReferenced(d, f)
      {
        KeptEffects(d, cutoff, d', f);
      }
      SameOutbox(d, d');
    }
  }

  lemma DroppedEffectKnown(d: Checkpoint, d': Checkpoint, i: int, k: int, ref: Reference)
    requires d'.pendingOutbox == d.pendingOutbox && d'.terminalOutbox == d.terminalOutbox
    requires d'.outboxTombstones == d.outboxTombstones && EffectsAccounted(d)
    requires RefAt(d, i, k, ref) && ref.ExternalOutbox?
    ensures EffectKnown(d', ref.effectId)
  {
    var f := ref.effectId;
    assert EffectReferenced(d, f);
    assert EffectKnown(d, f);
    var p :| PendingEffect(d, p, f) || TerminalEffect(d, p, f) || BuriedEffect(d, p, f);
    assert PendingEffect(d', p, f) || TerminalEffect(d', p, f) || BuriedEffect(d', p, f);
  }

  /** At any cutoff the function accepts, pruning keeps the stored relation exactly when no
      dropped receipt had produced an outbox effect. */
  lemma PruneStored(d: Checkpoint, cutoff: nat, policy: string)
    requires Stored(d) && Accepts(d, cutoff) && Prunable(d, cutoff)
    ensures Stored(PrunedDocument(d, cutoff, policy)) <==> !DropsEffect(d, cutoff)
  {
    hide RevisionsBounded, PendingDistinct, EventsDistinct, ReferencesDistinct, PendingAccounted,
      PendingNotTerminal, TerminalsAccounted, TombstonesOk, AcceptancesSettled, TerminalRefsBacked, Chronological,
      QueuesDistinct, AcceptanceOwners, AllocationBounded, DigestsAgree, EffectsAccounted, TerminalSequencesOk,
      MailboxRefsWait, TombstonesPruned, AggregateOk, Viewed, Prunable, DropsEffect, CurrentDigest, Graves;
    var d' := PrunedDocument(d, cutoff, policy);
    PrunedViews(d, cutoff, policy);
    PruneReceipts(d, cutoff, d');
    PruneDigests(d, cutoff, d');
    PruneEvents(d, cutoff, d');
    PrunePending(d, cutoff, d');
    PruneTerminals(d, cutoff, d');
    PruneGraves(d, cutoff, d');
    PruneSettled(d, cutoff, d');
    PruneSequences(d, cutoff, d');
    PruneEffects(d, cutoff, d');
    PrunedRoot(d, cutoff, policy);
  }

  lemma PrunedRoot(d: Checkpoint, cutoff: nat, policy: string)
    requires ReceiptsContiguous(d) && Accepts(d, cutoff) && RootAgrees(d) && PendingDistinct(d)
    ensures var d' := PrunedDocument(d, cutoff, policy);
      |d'.receipts| > 0 && RootAgrees(d') && PendingDistinct(d')
  {}

  lemma PruneKeepsKnown(d: Checkpoint, cutoff: nat, d': Checkpoint, e: EventId, g: EntryDigest)
    requires ReceiptsContiguous(d) && Accepts(d, cutoff) && Viewed(d, cutoff, d') && Known(d, e, g)
    ensures Known(d', e, g)
  {
    if x :| Waits(d, x) && x.envelope.eventId == e && x.digest == g {
      assert Waits(d', x);
    } else if i :| TerminalAt(d, i, e) && d.receipts[i].request == g {
      if RemovedAt(d, cutoff, i) {
        var t :| TombstoneAt(d', t, e) && d'.tombstones[t] == Grave(d.receipts[i]);
      } else {
        var j :| 0 <= j < |d'.receipts| && Origin(Cut(d, cutoff), j) == i;
        assert TerminalAt(d', j, e);
      }
    } else {
      var t :| TombstoneAt(d, t, e) && d.tombstones[t].request == g;
      assert TombstoneAt(d', t, e);
    }
  }

  lemma PruneLearnsNothing(d: Checkpoint, cutoff: nat, d': Checkpoint, e: EventId, g: EntryDigest)
    requires ReceiptsContiguous(d) && Accepts(d, cutoff) && Viewed(d, cutoff, d') && Known(d', e, g)
    ensures Known(d, e, g)
  {
    if x :| Waits(d', x) && x.envelope.eventId == e && x.digest == g {
      assert Waits(d, x);
    } else if j :| TerminalAt(d', j, e) && d'.receipts[j].request == g {
      assert TerminalAt(d, Origin(Cut(d, cutoff), j), e);
    } else {
      var t :| TombstoneAt(d', t, e) && d'.tombstones[t].request == g;
      if TombstoneAt(d, t, e) {
        assert d.tombstones[t] == d'.tombstones[t];
      } else {
        BuriedBack(d, cutoff, d', t, e);
        var i :| BuriedHere(d, cutoff, i, e, d'.tombstones[t]);
        assert TerminalAt(d, i, e);
      }
    }
  }

  /** Pruning changes no replay verdict: every event is known under the same digest as before. */
  lemma PruneKnows(d: Checkpoint, cutoff: nat, policy: string, e: EventId, g: EntryDigest)
    requires ReceiptsContiguous(d) && Accepts(d, cutoff)
    ensures Known(PrunedDocument(d, cutoff, policy), e, g) <==> Known(d, e, g)
  {
    hide Viewed, Known;
    var d' := PrunedDocument(d, cutoff, policy);
    PrunedViews(d, cutoff, policy);
    if Known(d, e, g) { PruneKeepsKnown(d, cutoff, d', e, g); }
    if Known(d', e, g) { PruneLearnsNothing(d, cutoff, d', e, g); }
  }
}
