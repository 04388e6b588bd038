/** A settlement keeps the whole checkpoint relation, one conjunct at a time. */
module SettlementInvariant {
  import opened Options
  import opened Queueing
  import opened CheckpointV1
  import opened CheckpointSettlement

  ghost predicate MovedFrom(d: Checkpoint, root: Root, ss: seq<Settlement>, i: int, k: int, r': Reference) {
    exists r :: RefAt(d, i, k, r) && RefMoved(d, root, ss, r, r')
  }

  predicate FreshAt(d: Checkpoint, ss: seq<Settlement>, i: int, k: int, r': Reference) {
    i == |d.receipts| && |ss| > 0 && 0 <= k < |ss[0].references| && ss[0].references[k] == r'
  }

  predicate SettledHere(d: Checkpoint, ss: seq<Settlement>, i: int, e: EventId) {
    |d.receipts| <= i < |d.receipts| + |ss| && ss[i - |d.receipts|].eventId == e
  }

  /** The index views of the new document in terms of the old one. */
  ghost predicate Bridged(d: Checkpoint, root: Root, ss: seq<Settlement>, digest: AggregateDigest, d': Checkpoint) {
    var n := |d.receipts|;
    && |d'.receipts| == n + |ss|
    && (forall i, e :: AcceptedAt(d', i, e) <==> AcceptedAt(d, i, e))
    && (forall i, e | AcceptedAt(d, i, e) :: d'.receipts[i] == d.receipts[i])
    && (forall i, e :: TerminalAt(d', i, e) <==> TerminalAt(d, i, e) || SettledHere(d, ss, i, e))
    && (forall i | 0 <= i < n :: SameHead(d.receipts[i], d'.receipts[i]))
    && (forall i | n <= i < n + |ss| ::
          d'.receipts[i] == TerminalReceipt(ss[i - n], d.nextReceipt + i - n, d.revision + 1, digest))
    && (forall i, k, r' | RefAt(d', i, k, r') :: MovedFrom(d, root, ss, i, k, r') || FreshAt(d, ss, i, k, r'))
    && (forall i, k, r | RefAt(d, i, k, r) :: exists r' :: RefAt(d', i, k, r') && RefMoved(d, root, ss, r, r'))
    && (forall i, k, r | FreshAt(d, ss, i, k, r) :: RefAt(d', i, k, r))
  }

  lemma BridgeRefs(d: Checkpoint, root: Root, ss: seq<Settlement>, digest: AggregateDigest, outbox: seq<PendingIntent>,
                   d': Checkpoint)
    requires Shaped(d, root, ss, digest, outbox, d')
    requires forall m | 1 <= m < |ss| :: ss[m].references == []
    ensures forall i, k, r' | RefAt(d', i, k, r') :: MovedFrom(d, root, ss, i, k, r') || FreshAt(d, ss, i, k, r')
    ensures forall i, k, r | RefAt(d, i, k, r) :: exists r' :: RefAt(d', i, k, r') && RefMoved(d, root, ss, r, r')
    ensures forall i, k, r | FreshAt(d, ss, i, k, r) :: RefAt(d', i, k, r)
  {
    hide RefMoved;
    var n := |d.receipts|;
    forall i, k, r' | RefAt(d', i, k, r')
      ensures MovedFrom(d, root, ss, i, k, r') || FreshAt(d, ss, i, k, r')
    {
      if i < n {
        assert OldShape(d, root, ss, d'.receipts, i);
        assert RefAt(d, i, k, References(d.receipts[i])[k]);
      } else {
        assert NewShape(d, ss, digest, d'.receipts, i - n);
      }
    }
    forall i, k, r | RefAt(d, i, k, r)
      ensures exists r' :: RefAt(d', i, k, r') && RefMoved(d, root, ss, r, r')
    {
      assert OldShape(d, root, ss, d'.receipts, i);
      assert RefAt(d', i, k, References(d'.receipts[i])[k]);
    }
    forall i, k, r | FreshAt(d, ss, i, k, r)
      ensures RefAt(d', i, k, r)
    {
      assert NewShape(d, ss, digest, d'.receipts, 0);
    }
  }

  lemma Bridge(d: Checkpoint, root: Root, ss: seq<Settlement>, digest: AggregateDigest, outbox: seq<PendingIntent>,
               d': Checkpoint)
    requires Shaped(d, root, ss, digest, outbox, d')
    requires forall m | 1 <= m < |ss| :: ss[m].references == []
    ensures Bridged(d, root, ss, digest, d')
  {
    BridgeRefs(d, root, ss, digest, outbox, d');
    hide RefMoved, RefAt, MovedFrom, FreshAt;
    var n := |d.receipts|;
    forall i | n <= i < n + |ss|
      ensures d'.receipts[i] == TerminalReceipt(ss[i - n], d.nextReceipt + i - n, d.revision + 1, digest)
    {
      assert NewShape(d, ss, digest, d'.receipts, i - n);
    }
    forall i | 0 <= i < n
      ensures SameHead(d.receipts[i], d'.receipts[i])
    {
      assert OldShape(d, root, ss, d'.receipts, i);
    }
  }

  lemma Receipts(d: Checkpoint, root: Root, ss: seq<Settlement>, digest: AggregateDigest, outbox: seq<PendingIntent>,
                 d': Checkpoint)
    requires Shaped(d, root, ss, digest, outbox, d') && Bridged(d, root, ss, digest, d')
    requires ReceiptsContiguous(d) && RevisionsBounded(d) && Chronological(d)
    ensures ReceiptsContiguous(d') && RevisionsBounded(d') && Chronological(d')
  {
    hide RefAt, AcceptedAt, TerminalAt, MovedFrom, FreshAt, SettledHere, OldShape, NewShape;
  }

  lemma RootStays(d: Checkpoint, root: Root, ss: seq<Settlement>, digest: AggregateDigest, outbox: seq<PendingIntent>,
                  d': Checkpoint)
    requires Shaped(d, root, ss, digest, outbox, d') && Bridged(d, root, ss, digest, d')
    requires |d.receipts| > 0 && RootAgrees(d) && d.root.Retained? && MailMoves(d, root, ss)
    ensures RootAgrees(d') && PendingDistinct(d')
  {}

  lemma Events(d: Checkpoint, root: Root, ss: seq<Settlement>, digest: AggregateDigest, d': Checkpoint)
    requires Bridged(d, root, ss, digest, d')
    requires EventsDistinct(d) && PendingNotTerminal(d) && d.root.Retained? && SettlementsOk(d, root, ss)
    ensures EventsDistinct(d')
  {
    forall m | 0 <= m < |ss|
      ensures !Terminated(d, ss[m].eventId)
    {
      NotTerminated(d, root, ss, m);
    }
  }

  lemma NotTerminated(d: Checkpoint, root: Root, ss: seq<Settlement>, m: int)
    requires PendingNotTerminal(d) && d.root.Retained? && SettlementsOk(d, root, ss)
    requires 0 <= m < |ss|
    ensures !Terminated(d, ss[m].eventId)
  {
    if !SettlesNew(d, ss, m) {
      var y :| SettlesOld(d, ss[m], y);
      assert !Terminated(d, y.envelope.eventId);
    }
  }

  lemma Refs(d: Checkpoint, root: Root, ss: seq<Settlement>, digest: AggregateDigest, d': Checkpoint)
    requires Bridged(d, root, ss, digest, d')
    requires ReferencesDistinct(d) && TerminalRefsBacked(d) && PendingNotTerminal(d) && TombstonesOk(d)
    requires d.root.Retained? && SettlementsOk(d, root, ss)
    ensures ReferencesDistinct(d')
  {
    forall i, k, r, j, l, s | RefAt(d', i, k, r) && RefAt(d', j, l, s) && SameSubject(r, s)
      ensures i == j && k == l
    {
      if MovedFrom(d, root, ss, i, k, r) && MovedFrom(d, root, ss, j, l, s) {
        var r0 :| RefAt(d, i, k, r0) && RefMoved(d, root, ss, r0, r);
        var s0 :| RefAt(d, j, l, s0) && RefMoved(d, root, ss, s0, s);
        MovedSubjects(d, root, ss, i, k, r0, r, j, l, s0, s);
      } else if MovedFrom(d, root, ss, i, k, r) {
        FreshSubject(d, root, ss, i, k, r, l, s);
      } else if MovedFrom(d, root, ss, j, l, s) {
        FreshSubject(d, root, ss, j, l, s, k, r);
      }
    }
  }

  lemma MovedSubjects(d: Checkpoint, root: Root, ss: seq<Settlement>,
                      i: int, k: int, r0: Reference, r: Reference, j: int, l: int, s0: Reference, s: Reference)
    requires ReferencesDistinct(d) && TerminalRefsBacked(d) && PendingNotTerminal(d) && TombstonesOk(d)
    requires d.root.Retained? && SettlementsOk(d, root, ss)
    requires RefAt(d, i, k, r0) && RefMoved(d, root, ss, r0, r)
    requires RefAt(d, j, l, s0) && RefMoved(d, root, ss, s0, s)
    requires SameSubject(r, s)
    ensures i == j && k == l
  {
    if !SameSubject(r0, s0) {
      // one of the two was a mailbox reference that turned terminal beside an old terminal one
      if r0.InternalMailbox? {
        NotYetTerminal(d, root, ss, r0, r, i, k, j, l, s0);
      } else {
        NotYetTerminal(d, root, ss, s0, s, j, l, i, k, r0);
      }
    }
  }

  lemma NotYetTerminal(d: Checkpoint, root: Root, ss: seq<Settlement>, r0: Reference, r: Reference,
                       i: int, k: int, j: int, l: int, s0: Reference)
    requires TerminalRefsBacked(d) && PendingNotTerminal(d) && TombstonesOk(d)
    requires d.root.Retained? && SettlementsOk(d, root, ss)
    requires RefAt(d, i, k, r0) && r0.InternalMailbox? && RefMoved(d, root, ss, r0, r) && r.InternalTerminal?
    requires RefAt(d, j, l, s0) && s0.InternalTerminal?
    ensures s0.eventId != r.eventId
  {
    var m :| TurnsTerminal(d, ss, r0, r, m);
    assert MailboxRefFor(r0, r0.eventId) && HasMailboxRef(d, r0.eventId) && Mentions(d, r0.eventId);
    assert !SettlesNew(d, ss, m);
    var y :| SettlesOld(d, ss[m], y);
    assert !Terminated(d, y.envelope.eventId);
    assert WaitsFor(d, y.envelope.eventId);
  }

  lemma FreshSubject(d: Checkpoint, root: Root, ss: seq<Settlement>, i: int, k: int, r: Reference, l: int, s: Reference)
    requires d.root.Retained? && SettlementsOk(d, root, ss)
    requires MovedFrom(d, root, ss, i, k, r) && FreshAt(d, ss, |d.receipts|, l, s)
    ensures !SameSubject(r, s)
  {
    var r0 :| RefAt(d, i, k, r0) && RefMoved(d, root, ss, r0, r);
    assert ReferenceOk(d, root, ss, ss[0].references[l]);
    match r0
    case InternalMailbox(_, e, _, _) =>
      assert MailboxRefFor(r0, e) && HasMailboxRef(d, e) && Mentions(d, e);
    case InternalTerminal(_, e, _, _) =>
      assert TerminalRefFor(r0, e) && HasTerminalRef(d, e) && Mentions(d, e);
    case ExternalOutbox(_, f) =>
      assert EffectReferenced(d, f);
  }

  /** The step's own references are about events the document had never mentioned ... */
  lemma NoFreshRef(d: Checkpoint, root: Root, ss: seq<Settlement>, e: EventId)
    requires d.root.Retained? && SettlementsOk(d, root, ss) && Mentions(d, e)
    ensures forall i, k, ref | FreshAt(d, ss, i, k, ref) :: !MailboxRefFor(ref, e) && !TerminalRefFor(ref, e)
  {
    forall i, k, ref | FreshAt(d, ss, i, k, ref)
      ensures !MailboxRefFor(ref, e) && !TerminalRefFor(ref, e)
    {
      assert ReferenceOk(d, root, ss, ss[0].references[k]);
    }
  }

  /** ... and the older ones are not about new events. */
  lemma NoOldRef(d: Checkpoint, root: Root, ss: seq<Settlement>, e: EventId)
    requires !Mentions(d, e)
    ensures forall i, k, ref | MovedFrom(d, root, ss, i, k, ref) :: !MailboxRefFor(ref, e) && !TerminalRefFor(ref, e)
  {
    forall i, k, ref | MovedFrom(d, root, ss, i, k, ref)
      ensures !MailboxRefFor(ref, e) && !TerminalRefFor(ref, e)
    {
      var r :| RefAt(d, i, k, r) && RefMoved(d, root, ss, r, ref);
      assert r.InternalMailbox? ==> MailboxRefFor(r, r.eventId) && HasMailboxRef(d, r.eventId);
      assert r.InternalTerminal? ==> TerminalRefFor(r, r.eventId) && HasTerminalRef(d, r.eventId);
    }
  }

  lemma Pendings(d: Checkpoint, root: Root, ss: seq<Settlement>, digest: AggregateDigest, d': Checkpoint)
    requires Bridged(d, root, ss, digest, d') && d'.root == root
    requires PendingAccounted(d) && PendingNotTerminal(d)
    requires d.root.Retained? && SettlementsOk(d, root, ss) && MailMoves(d, root, ss)
    ensures PendingAccounted(d') && PendingNotTerminal(d')
  {
    forall x | Waits(d', x)
      ensures PendingAccountedFor(d', x)
      ensures !Terminated(d', x.envelope.eventId)
    {
      if Survives(d, ss, x) {
        Survivor(d, root, ss, digest, d', x);
      } else {
        Arrival(d, root, ss, digest, d', x);
      }
    }
  }

  ghost predicate PendingAccountedFor(d: Checkpoint, x: Entry) {
    var e := x.envelope.eventId;
    && (x.envelope.source == Host <==> Accepted(d, e))
    && (Accepted(d, e) <==> !HasMailboxRef(d, e))
    && (forall i | AcceptedAt(d, i, e) ::
          d.receipts[i].request == x.digest && d.receipts[i].acceptance == x.acceptance)
    && (forall i, k, ref | RefAt(d, i, k, ref) && MailboxRefFor(ref, e) ::
          ref.acceptance == x.acceptance && ref.queue == x.queue)
  }

  /** The references to an event that survives: they stay, and follow it to its queue sequence. */
  lemma SurvivorRefs(d: Checkpoint, root: Root, ss: seq<Settlement>, digest: AggregateDigest, d': Checkpoint, x: Entry,
                     y: Entry)
    requires Bridged(d, root, ss, digest, d') && d.root.Retained? && SettlementsOk(d, root, ss)
    requires WaitsIn(root, x) && Waits(d, y) && y.envelope.eventId == x.envelope.eventId
    requires forall m | 0 <= m < |ss| :: ss[m].eventId != x.envelope.eventId
    ensures forall i, k, ref | RefAt(d', i, k, ref) && MailboxRefFor(ref, x.envelope.eventId) ::
      HasMailboxRef(d, x.envelope.eventId) && ref.acceptance == x.acceptance && ref.queue == x.queue
    ensures HasMailboxRef(d, x.envelope.eventId) ==> HasMailboxRef(d', x.envelope.eventId)
  {
    hide SettlementsOk;
    var e := x.envelope.eventId;
    assert WaitsFor(d, e) && Mentions(d, e);
    NoFreshRef(d, root, ss, e);
    hide AcceptedAt, TerminalAt, Mentions;
    forall i, k, ref | RefAt(d', i, k, ref) && MailboxRefFor(ref, e)
      ensures HasMailboxRef(d, e) && ref.acceptance == x.acceptance && ref.queue == x.queue
    {
      var r :| RefAt(d, i, k, r) && RefMoved(d, root, ss, r, ref);
      assert MailboxRefFor(r, e);
      assert WaitsIn(root, x);
    }
    if HasMailboxRef(d, e) {
      var i, k, r :| RefAt(d, i, k, r) && MailboxRefFor(r, e);
      var r' :| RefAt(d', i, k, r') && RefMoved(d, root, ss, r, r');
      assert MailboxRefFor(r', e);
    }
  }

  lemma Survivor(d: Checkpoint, root: Root, ss: seq<Settlement>, digest: AggregateDigest, d': Checkpoint, x: Entry)
    requires Bridged(d, root, ss, digest, d') && d'.root == root
    requires PendingAccounted(d) && PendingNotTerminal(d)
    requires d.root.Retained? && SettlementsOk(d, root, ss)
    requires Waits(d', x) && Survives(d, ss, x)
    ensures PendingAccountedFor(d', x)
    ensures !Terminated(d', x.envelope.eventId)
  {
    hide SettlementsOk;
    var y :| Waits(d, y) && Follows(y, x, d.root.aggregate.nextQueue)
      && forall m | 0 <= m < |ss| :: ss[m].eventId != y.envelope.eventId;
    var e := x.envelope.eventId;
    assert WaitsIn(root, x);
    SurvivorRefs(d, root, ss, digest, d', x, y);
    hide RefAt, RefMoved, MovedFrom, FreshAt;
    assert !Terminated(d, y.envelope.eventId);
    assert forall i :: AcceptedAt(d', i, e) <==> AcceptedAt(d, i, e);
    assert Accepted(d', e) <==> Accepted(d, e);
  }

  lemma Arrival(d: Checkpoint, root: Root, ss: seq<Settlement>, digest: AggregateDigest, d': Checkpoint, x: Entry)
    requires Bridged(d, root, ss, digest, d') && d'.root == root
    requires d.root.Retained? && SettlementsOk(d, root, ss)
    requires root.Retained? ==> AggregateOk(root.aggregate)
    requires Waits(d', x) && Arrives(d, ss, x)
    ensures PendingAccountedFor(d', x)
    ensures !Terminated(d', x.envelope.eventId)
  {
    var e := x.envelope.eventId;
    var k :| 0 <= k < |ss[0].references| && MailboxRefFor(ss[0].references[k], e);
    assert FreshAt(d, ss, |d.receipts|, k, ss[0].references[k]);
    assert RefAt(d', |d.receipts|, k, ss[0].references[k]);
    assert forall i :: AcceptedAt(d', i, e) <==> AcceptedAt(d, i, e);
    NoOldRef(d, root, ss, e);
    forall i, l, ref | RefAt(d', i, l, ref) && MailboxRefFor(ref, e)
      ensures ref.acceptance == x.acceptance && ref.queue == x.queue
    {
      assert FreshAt(d, ss, i, l, ref) && ReferenceOk(d, root, ss, ref);
      var z :| WaitsIn(root, z) && z.envelope.eventId == e && z.acceptance == ref.acceptance && z.queue == ref.queue;
      SameEntry(root.aggregate, x, z);
    }
    assert WaitsIn(root, x);
    assert forall i :: TerminalAt(d', i, e) <==> TerminalAt(d, i, e) || SettledHere(d, ss, i, e);
  }

  // ---------------------------------------------------------------- terminals

  lemma Terminals(d: Checkpoint, root: Root, ss: seq<Settlement>, digest: AggregateDigest, outbox: seq<PendingIntent>,
                  d': Checkpoint)
    requires Shaped(d, root, ss, digest, outbox, d') && Bridged(d, root, ss, digest, d')
    requires ReceiptsContiguous(d) && RevisionsBounded(d) && EventsDistinct(d) && EventsDistinct(d')
    requires PendingAccounted(d) && PendingNotTerminal(d) && TerminalsAccounted(d)
    requires TombstonesOk(d) && TerminalRefsBacked(d)
    requires d.root.Retained? && SettlementsOk(d, root, ss)
    ensures TerminalsAccounted(d')
  {
    forall e, i | TerminalAt(d', i, e)
      ensures TerminalAccountedAt(d', e, i)
    {
      if TerminalAt(d, i, e) {
        OldTerminal(d, root, ss, digest, d', e, i);
      } else {
        var m := i - |d.receipts|;
        if SettlesNew(d, ss, m) {
          NewTerminal(d, root, ss, digest, d', m);
        } else {
          var y :| SettlesOld(d, ss[m], y);
          SettledTerminal(d, root, ss, digest, d', m, y);
        }
      }
    }
  }

  ghost predicate TerminalAccountedAt(d: Checkpoint, e: EventId, i: int)
    requires TerminalAt(d, i, e)
  {
    var t := d.receipts[i];
    && (d.cutoff.None? ==> Accepted(d, e) || HasTerminalRef(d, e))
    && !(Accepted(d, e) && HasTerminalRef(d, e))
    && (forall j | AcceptedAt(d, j, e) ::
          && d.receipts[j].request == t.request && d.receipts[j].acceptance == t.acceptance
          && d.receipts[j].sequence < t.sequence && d.receipts[j].revision <= t.revision)
    && (forall j, k, ref | RefAt(d, j, k, ref) && TerminalRefFor(ref, e) ::
          && ref.terminal == t.sequence && ref.acceptance == t.acceptance
          && d.receipts[j].sequence < t.sequence && d.receipts[j].revision <= t.revision)
  }

  lemma OldTerminal(d: Checkpoint, root: Root, ss: seq<Settlement>, digest: AggregateDigest, d': Checkpoint,
                    e: EventId, i: int)
    requires Bridged(d, root, ss, digest, d') && d'.cutoff == d.cutoff
    requires PendingNotTerminal(d) && TerminalsAccounted(d)
    requires d.root.Retained? && SettlementsOk(d, root, ss)
    requires TerminalAt(d, i, e) && TerminalAt(d', i, e)
    ensures TerminalAccountedAt(d', e, i)
  {
    assert Terminated(d, e) && Mentions(d, e);
    NoFreshRef(d, root, ss, e);
    assert forall j :: AcceptedAt(d', j, e) <==> AcceptedAt(d, j, e);
    forall j, k, ref | RefAt(d', j, k, ref) && TerminalRefFor(ref, e)
      ensures RefAt(d, j, k, ref)
    {
      var r :| RefAt(d, j, k, r) && RefMoved(d, root, ss, r, ref);
      forall m | 0 <= m < |ss| ensures ss[m].eventId != e {
        NotTerminated(d, root, ss, m);
      }
      assert r == ref;
    }
    forall j, k, ref | RefAt(d, j, k, ref) && TerminalRefFor(ref, e)
      ensures RefAt(d', j, k, ref)
    {
      var r' :| RefAt(d', j, k, r') && RefMoved(d, root, ss, ref, r');
    }
  }

  lemma WaitingHasNoTerminalRef(d: Checkpoint, e: EventId)
    requires TerminalRefsBacked(d) && PendingNotTerminal(d) && TombstonesOk(d)
    requires WaitsFor(d, e)
    ensures !HasTerminalRef(d, e)
  {
    var y :| Waits(d, y) && y.envelope.eventId == e;
    assert !Terminated(d, y.envelope.eventId);
    assert forall t :: !TombstoneAt(d, t, e);
    forall i, k, ref | RefAt(d, i, k, ref) && ref.InternalTerminal?
      ensures ref.eventId != e
    {
      assert forall j :: !TerminalAt(d, j, e);
    }
  }

  /** Terminal references to a settled event come from its old mailbox references ... */
  lemma SettledRefs(d: Checkpoint, root: Root, ss: seq<Settlement>, digest: AggregateDigest, d': Checkpoint, m: int,
                    y: Entry, j: int, k: int, ref: Reference)
    requires Bridged(d, root, ss, digest, d')
    requires PendingAccounted(d) && PendingNotTerminal(d) && TombstonesOk(d) && TerminalRefsBacked(d)
    requires d.root.Retained? && SettlementsOk(d, root, ss)
    requires 0 <= m < |ss| && SettlesOld(d, ss[m], y)
    requires RefAt(d', j, k, ref) && TerminalRefFor(ref, ss[m].eventId)
    ensures HasMailboxRef(d, ss[m].eventId)
    ensures ref.terminal == d.nextReceipt + m && ref.acceptance == y.acceptance
    ensures 0 <= j < |d.receipts|
  {
    var e := ss[m].eventId;
    assert WaitsFor(d, e) && Mentions(d, e);
    NoFreshRef(d, root, ss, e);
    WaitingHasNoTerminalRef(d, e);
    var r :| RefAt(d, j, k, r) && RefMoved(d, root, ss, r, ref);
    assert r.InternalTerminal? ==> TerminalRefFor(r, e);
    assert MailboxRefFor(r, e);
  }

  /** ... and every one of those did turn terminal. */
  lemma SettledRefExists(d: Checkpoint, root: Root, ss: seq<Settlement>, digest: AggregateDigest, d': Checkpoint, m: int)
    requires Bridged(d, root, ss, digest, d')
    requires 0 <= m < |ss| && HasMailboxRef(d, ss[m].eventId)
    ensures HasTerminalRef(d', ss[m].eventId)
  {
    var e := ss[m].eventId;
    var j, k, r :| RefAt(d, j, k, r) && MailboxRefFor(r, e);
    var r' :| RefAt(d', j, k, r') && RefMoved(d, root, ss, r, r');
    assert TerminalRefFor(r', e);
  }

  /** An event that waited is settled: the receipt that explained its waiting explains its end. */
  lemma SettledTerminal(d: Checkpoint, root: Root, ss: seq<Settlement>, digest: AggregateDigest, d': Checkpoint, m: int,
                        y: Entry)
    requires Bridged(d, root, ss, digest, d') && d'.cutoff == d.cutoff
    requires ReceiptsContiguous(d) && RevisionsBounded(d)
    requires PendingAccounted(d) && PendingNotTerminal(d) && TombstonesOk(d) && TerminalRefsBacked(d)
    requires d.root.Retained? && SettlementsOk(d, root, ss)
    requires 0 <= m < |ss| && SettlesOld(d, ss[m], y)
    requires TerminalAt(d', |d.receipts| + m, ss[m].eventId)
    ensures TerminalAccountedAt(d', ss[m].eventId, |d.receipts| + m)
  {
    var e, n := ss[m].eventId, |d.receipts|;
    assert PendingAccountedFor(d, y);
    if HasMailboxRef(d, e) {
      SettledRefExists(d, root, ss, digest, d', m);
    }
    forall j, k, ref | RefAt(d', j, k, ref) && TerminalRefFor(ref, e)
      ensures HasMailboxRef(d, e) && ref.terminal == d.nextReceipt + m && ref.acceptance == y.acceptance
      ensures 0 <= j < n
    {
      SettledRefs(d, root, ss, digest, d', m, y, j, k, ref);
    }
    SettledTerminalGlue(d, root, ss, digest, d', m, y);
  }

  /** The views of the settled document that one event needs. */
  lemma BridgedEvent(d: Checkpoint, root: Root, ss: seq<Settlement>, digest: AggregateDigest, d': Checkpoint, m: int,
                     e: EventId)
    requires Bridged(d, root, ss, digest, d') && 0 <= m < |ss|
    ensures |d'.receipts| == |d.receipts| + |ss|
    ensures forall j :: AcceptedAt(d', j, e) <==> AcceptedAt(d, j, e)
    ensures forall j | AcceptedAt(d, j, e) :: d'.receipts[j] == d.receipts[j]
    ensures forall j | 0 <= j < |d.receipts| ::
      d'.receipts[j].sequence == d.receipts[j].sequence && d'.receipts[j].revision == d.receipts[j].revision
    ensures d'.receipts[|d.receipts| + m] == TerminalReceipt(ss[m], d.nextReceipt + m, d.revision + 1, digest)
  {
    hide RefMoved, FreshAt, SettledHere;
    forall j | 0 <= j < |d.receipts|
      ensures d'.receipts[j].sequence == d.receipts[j].sequence && d'.receipts[j].revision == d.receipts[j].revision
    {
      assert SameHead(d.receipts[j], d'.receipts[j]);
    }
  }

  lemma SettledTerminalGlue(d: Checkpoint, root: Root, ss: seq<Settlement>, digest: AggregateDigest, d': Checkpoint,
                            m: int, y: Entry)
    requires Bridged(d, root, ss, digest, d')
    requires ReceiptsContiguous(d) && RevisionsBounded(d) && PendingAccountedFor(d, y)
    requires 0 <= m < |ss| && SettlesOld(d, ss[m], y)
    requires HasMailboxRef(d, ss[m].eventId) ==> HasTerminalRef(d', ss[m].eventId)
    requires forall j, k, ref | RefAt(d', j, k, ref) && TerminalRefFor(ref, ss[m].eventId) ::
      && HasMailboxRef(d, ss[m].eventId)
      && ref.terminal == d.nextReceipt + m && ref.acceptance == y.acceptance && 0 <= j < |d.receipts|
    requires TerminalAt(d', |d.receipts| + m, ss[m].eventId)
    ensures TerminalAccountedAt(d', ss[m].eventId, |d.receipts| + m)
  {
    var e := ss[m].eventId;
    BridgedEvent(d, root, ss, digest, d', m, e);
    hide Bridged, RefAt, AcceptedAt, Waits, Mentions;
    assert AcceptedAt(d', |d.receipts| + m, e) ==> AcceptedAt(d, |d.receipts| + m, e);
    AcceptedBefore(d, e);
    AcceptedBefore(d', e);
  }

  lemma AcceptedBefore(d: Checkpoint, e: EventId)
    ensures forall j | AcceptedAt(d, j, e) :: 0 <= j < |d.receipts| && d.receipts[j].Acceptance?
  {}

  lemma NewTerminal(d: Checkpoint, root: Root, ss: seq<Settlement>, digest: AggregateDigest, d': Checkpoint, m: int)
    requires Bridged(d, root, ss, digest, d')
    requires d.root.Retained? && SettlementsOk(d, root, ss) && SettlesNew(d, ss, m)
    requires TerminalAt(d', |d.receipts| + m, ss[m].eventId)
    ensures TerminalAccountedAt(d', ss[m].eventId, |d.receipts| + m)
  {
    var e, n := ss[m].eventId, |d.receipts|;
    NoOldRef(d, root, ss, e);
    assert forall j :: AcceptedAt(d', j, e) <==> AcceptedAt(d, j, e);
    forall j, k, ref | RefAt(d', j, k, ref) && TerminalRefFor(ref, e)
      ensures j == n && ref.terminal == d.nextReceipt + m && ref.acceptance == ss[m].acceptance
    {
      assert FreshAt(d, ss, j, k, ref) && ReferenceOk(d, root, ss, ref);
      var m' :| SettlesNew(d, ss, m') && ss[m'].eventId == e && ss[m'].acceptance == ref.acceptance
        && ref.terminal == d.nextReceipt + m';
      assert m' == m;
    }
    var k :| 0 <= k < |ss[0].references| && TerminalRefFor(ss[0].references[k], e);
    assert FreshAt(d, ss, n, k, ss[0].references[k]);
    assert RefAt(d', n, k, ss[0].references[k]);
  }

  // ---------------------------------------------------------------- tombstones, acceptances, backing

  lemma Graves(d: Checkpoint, root: Root, ss: seq<Settlement>, digest: AggregateDigest, d': Checkpoint)
    requires Bridged(d, root, ss, digest, d') && d'.root == root
    requires d'.tombstones == d.tombstones && d'.nextReceipt == d.nextReceipt + |ss|
    requires TombstonesOk(d) && d.root.Retained? && SettlementsOk(d, root, ss) && MailMoves(d, root, ss)
    ensures TombstonesOk(d')
  {
    assert forall t, e :: TombstoneAt(d', t, e) <==> TombstoneAt(d, t, e);
    forall e, t | TombstoneAt(d', t, e)
      ensures !WaitsFor(d', e) && !Accepted(d', e) && !Terminated(d', e)
    {
      assert TombstoneAt(d, t, e) && Buried(d, e) && Mentions(d, e);
      forall x | Waits(d', x) ensures x.envelope.eventId != e {
        assert WaitsIn(root, x);
        if Survives(d, ss, x) {
          var y :| Waits(d, y) && Follows(y, x, d.root.aggregate.nextQueue);
          assert WaitsFor(d, y.envelope.eventId);
        }
      }
      forall m | 0 <= m < |ss| ensures ss[m].eventId != e {
        if !SettlesNew(d, ss, m) {
          var y :| SettlesOld(d, ss[m], y);
          assert WaitsFor(d, y.envelope.eventId);
        }
      }
      assert forall i :: AcceptedAt(d', i, e) <==> AcceptedAt(d, i, e);
      assert forall i :: TerminalAt(d', i, e) <==> TerminalAt(d, i, e) || SettledHere(d, ss, i, e);
    }
    forall t, i | 0 <= t < |d'.tombstones| && 0 <= i < |d'.receipts| && d'.receipts[i].EventTerminal?
      ensures d'.tombstones[t].terminal != d'.receipts[i].sequence
    {
      assert i < |d.receipts| ==> SameHead(d.receipts[i], d'.receipts[i]);
    }
  }

  lemma Acceptances(d: Checkpoint, root: Root, ss: seq<Settlement>, digest: AggregateDigest, d': Checkpoint)
    requires Bridged(d, root, ss, digest, d') && d'.root == root
    requires AcceptancesSettled(d) && d.root.Retained? && MailMoves(d, root, ss)
    ensures AcceptancesSettled(d')
  {
    forall e, i | AcceptedAt(d', i, e)
      ensures WaitsFor(d', e) || Terminated(d', e)
    {
      assert AcceptedAt(d, i, e);
      if y :| Waits(d, y) && y.envelope.eventId == e {
        if m :| 0 <= m < |ss| && SettlesOld(d, ss[m], y) {
          assert SettledHere(d, ss, |d.receipts| + m, e);
          assert TerminalAt(d', |d.receipts| + m, e);
        } else {
          var x :| WaitsIn(root, x) && Follows(y, x, d.root.aggregate.nextQueue);
          assert Waits(d', x);
        }
      } else {
        var j :| TerminalAt(d, j, e);
        assert TerminalAt(d', j, e);
      }
    }
  }

  ghost predicate Backed(d: Checkpoint, ref: Reference)
    requires ref.InternalTerminal?
  {
    || (exists j :: TerminalAt(d, j, ref.eventId) && d.receipts[j].sequence == ref.terminal)
    || (!Terminated(d, ref.eventId) && exists t :: TombstoneAt(d, t, ref.eventId) && d.tombstones[t].terminal == ref.terminal)
  }

  lemma Backing(d: Checkpoint, root: Root, ss: seq<Settlement>, digest: AggregateDigest, d': Checkpoint)
    requires Bridged(d, root, ss, digest, d')
    requires d'.tombstones == d.tombstones
    requires TerminalRefsBacked(d) && TombstonesOk(d') && d.root.Retained? && SettlementsOk(d, root, ss)
    ensures TerminalRefsBacked(d')
  {
    forall i, k, ref | RefAt(d', i, k, ref) && ref.InternalTerminal?
      ensures Backed(d', ref)
    {
      if MovedFrom(d, root, ss, i, k, ref) {
        var r :| RefAt(d, i, k, r) && RefMoved(d, root, ss, r, ref);
        if r.InternalMailbox? {
          var m :| TurnsTerminal(d, ss, r, ref, m);
          BackedByNew(d, root, ss, digest, d', m, ref);
        } else {
          BackedByOld(d, root, ss, digest, d', ref);
        }
      } else {
        assert ReferenceOk(d, root, ss, ref);
        var m :| SettlesNew(d, ss, m) && ss[m].eventId == ref.eventId && ref.terminal == d.nextReceipt + m;
        BackedByNew(d, root, ss, digest, d', m, ref);
      }
    }
  }

  lemma BackedByNew(d: Checkpoint, root: Root, ss: seq<Settlement>, digest: AggregateDigest, d': Checkpoint,
                    m: int, ref: Reference)
    requires Bridged(d, root, ss, digest, d')
    requires 0 <= m < |ss| && ref.InternalTerminal? && ref.eventId == ss[m].eventId && ref.terminal == d.nextReceipt + m
    ensures Backed(d', ref)
  {
    assert SettledHere(d, ss, |d.receipts| + m, ref.eventId);
    assert TerminalAt(d', |d.receipts| + m, ref.eventId);
  }

  lemma BackedByOld(d: Checkpoint, root: Root, ss: seq<Settlement>, digest: AggregateDigest, d': Checkpoint, ref: Reference)
    requires Bridged(d, root, ss, digest, d')
    requires d'.tombstones == d.tombstones && TombstonesOk(d')
    requires ref.InternalTerminal? && Backed(d, ref)
    ensures Backed(d', ref)
  {
    if j :| TerminalAt(d, j, ref.eventId) && d.receipts[j].sequence == ref.terminal {
      assert TerminalAt(d', j, ref.eventId) && SameHead(d.receipts[j], d'.receipts[j]);
    } else {
      var t :| TombstoneAt(d, t, ref.eventId) && d.tombstones[t].terminal == ref.terminal;
      assert TombstoneAt(d', t, ref.eventId);
    }
  }

  lemma LiveRefs(d: Checkpoint, root: Root, ss: seq<Settlement>, digest: AggregateDigest, d': Checkpoint)
    requires Bridged(d, root, ss, digest, d') && d'.root == root
    requires MailboxRefsWait(d) && d.root.Retained? && SettlementsOk(d, root, ss) && MailMoves(d, root, ss)
    ensures MailboxRefsWait(d')
  {
    hide SettlementsOk, MailMoves, Waits;
    forall i, k, ref | RefAt(d', i, k, ref) && ref.InternalMailbox?
      ensures WaitsFor(d', ref.eventId)
    {
      if MovedFrom(d, root, ss, i, k, ref) {
        MovedRefWaits(d, root, ss, i, k, ref);
      } else {
        FreshRefWaits(d, root, ss, i, k, ref);
      }
      assert forall x | WaitsIn(root, x) :: Waits(d', x) by { SameWaits(d', root); }
    }
  }

  lemma SameWaits(d': Checkpoint, root: Root)
    requires d'.root == root
    ensures forall x | WaitsIn(root, x) :: Waits(d', x)
  {}

  lemma MovedRefWaits(d: Checkpoint, root: Root, ss: seq<Settlement>, i: int, k: int, ref: Reference)
    requires MailboxRefsWait(d) && d.root.Retained? && MailMoves(d, root, ss)
    requires MovedFrom(d, root, ss, i, k, ref) && ref.InternalMailbox?
    ensures exists x :: WaitsIn(root, x) && x.envelope.eventId == ref.eventId
  {
    var r :| RefAt(d, i, k, r) && RefMoved(d, root, ss, r, ref);
    var y :| Waits(d, y) && y.envelope.eventId == ref.eventId;
    assert forall m | 0 <= m < |ss| :: !SettlesOld(d, ss[m], y);
    var x :| WaitsIn(root, x) && Follows(y, x, d.root.aggregate.nextQueue);
  }

  lemma FreshRefWaits(d: Checkpoint, root: Root, ss: seq<Settlement>, i: int, k: int, ref: Reference)
    requires d.root.Retained? && SettlementsOk(d, root, ss) && FreshAt(d, ss, i, k, ref) && ref.InternalMailbox?
    ensures exists x :: WaitsIn(root, x) && x.envelope.eventId == ref.eventId
  {
    assert ReferenceOk(d, root, ss, ref);
  }

  // ---------------------------------------------------------------- sequences

  lemma Queues(d: Checkpoint, root: Root, ss: seq<Settlement>, digest: AggregateDigest, d': Checkpoint)
    requires Bridged(d, root, ss, digest, d') && d'.root == root
    requires QueuesDistinct(d) && AllocationBounded(d)
    requires d.root.Retained? && SettlementsOk(d, root, ss) && MailMoves(d, root, ss)
    ensures QueuesDistinct(d')
  {
    forall x, y | Waits(d', x) && Waits(d', y) && x.queue == y.queue
      ensures x == y
    {
      SameEntry(root.aggregate, x, y);
    }
    var n := |d.receipts|;
    forall i | 0 <= i < n && d'.receipts[i].EventTerminal?
      ensures d.receipts[i].EventTerminal? && d'.receipts[i].finalQueue == d.receipts[i].finalQueue
    {
      assert SameHead(d.receipts[i], d'.receipts[i]);
    }
    forall i, m | 0 <= i < n && d'.receipts[i].EventTerminal? && 0 <= m < |ss|
      ensures d'.receipts[i].finalQueue != ss[m].finalQueue
    {
      if !SettlesNew(d, ss, m) {
        var y :| SettlesOld(d, ss[m], y);
      }
    }
    forall x, i | Waits(d', x) && 0 <= i < |d'.receipts| && d'.receipts[i].EventTerminal?
      ensures x.queue != d'.receipts[i].finalQueue
    {
      assert WaitsIn(root, x);
      if Survives(d, ss, x) {
        var y :| Waits(d, y) && Follows(y, x, d.root.aggregate.nextQueue);
      }
    }
  }

  /** An event that got its acceptance sequence in this very step. */
  ghost predicate Newcomer(d: Checkpoint, root: Root, ss: seq<Settlement>, e: EventId, n: int)
    requires d.root.Retained?
  {
    || (exists x :: WaitsIn(root, x) && Arrives(d, ss, x) && x.envelope.eventId == e && x.acceptance == n)
    || (exists m :: SettlesNew(d, ss, m) && ss[m].eventId == e && ss[m].acceptance == n)
  }

  lemma OwnsBack(d: Checkpoint, root: Root, ss: seq<Settlement>, digest: AggregateDigest, d': Checkpoint, e: EventId, n: int)
    requires Bridged(d, root, ss, digest, d') && d'.root == root && d'.tombstones == d.tombstones
    requires d.root.Retained? && SettlementsOk(d, root, ss) && MailMoves(d, root, ss)
    requires Owns(d', e, n)
    ensures Owns(d, e, n) || Newcomer(d, root, ss, e, n)
  {
    if x :| Waits(d', x) && x.envelope.eventId == e && x.acceptance == n {
      assert WaitsIn(root, x);
      if Survives(d, ss, x) {
        var y :| Waits(d, y) && Follows(y, x, d.root.aggregate.nextQueue);
      }
    } else if i :| (AcceptedAt(d', i, e) || TerminalAt(d', i, e)) && d'.receipts[i].acceptance == n {
      if SettledHere(d, ss, i, e) {
        var m := i - |d.receipts|;
        if !SettlesNew(d, ss, m) {
          var y :| SettlesOld(d, ss[m], y);
          assert Waits(d, y);
        }
      } else {
        assert AcceptedAt(d, i, e) || TerminalAt(d, i, e);
        assert SameHead(d.receipts[i], d'.receipts[i]);
      }
    } else {
      var t :| TombstoneAt(d', t, e) && d'.tombstones[t].acceptance == n;
      assert TombstoneAt(d, t, e);
    }
  }

  lemma NewcomerUnique(d: Checkpoint, root: Root, ss: seq<Settlement>, e: EventId, f: EventId, n: int)
    requires d.root.Retained? && SettlementsOk(d, root, ss) && MailMoves(d, root, ss)
    requires Newcomer(d, root, ss, e, n) && Newcomer(d, root, ss, f, n)
    ensures e == f
  {
    if x :| WaitsIn(root, x) && Arrives(d, ss, x) && x.envelope.eventId == e && x.acceptance == n {
      assert forall m | 0 <= m < |ss| :: ss[m].acceptance != n;
      var z :| WaitsIn(root, z) && Arrives(d, ss, z) && z.envelope.eventId == f && z.acceptance == n;
      SameEntry(root.aggregate, x, z);
    } else {
      var m :| SettlesNew(d, ss, m) && ss[m].eventId == e && ss[m].acceptance == n;
      assert forall z | WaitsIn(root, z) :: z.acceptance != n;
    }
  }

  lemma Owners(d: Checkpoint, root: Root, ss: seq<Settlement>, digest: AggregateDigest, d': Checkpoint)
    requires Bridged(d, root, ss, digest, d') && d'.root == root && d'.tombstones == d.tombstones
    requires AcceptanceOwners(d) && AllocationBounded(d)
    requires d.root.Retained? && SettlementsOk(d, root, ss) && MailMoves(d, root, ss)
    ensures AcceptanceOwners(d')
  {
    forall e, f, n | Owns(d', e, n) && Owns(d', f, n)
      ensures e == f
    {
      OwnsBack(d, root, ss, digest, d', e, n);
      OwnsBack(d, root, ss, digest, d', f, n);
      if Newcomer(d, root, ss, e, n) && Newcomer(d, root, ss, f, n) {
        NewcomerUnique(d, root, ss, e, f, n);
      }
    }
  }

  lemma Allocation(d: Checkpoint, root: Root, ss: seq<Settlement>, digest: AggregateDigest, d': Checkpoint)
    requires Bridged(d, root, ss, digest, d') && d'.root == root && d'.tombstones == d.tombstones
    requires AllocationBounded(d)
    requires d.root.Retained? && SettlementsOk(d, root, ss) && MailMoves(d, root, ss)
    ensures AllocationBounded(d')
  {
    if root.Retained? {
      forall e, n | Owns(d', e, n)
        ensures n < root.aggregate.nextAcceptance
      {
        OwnsBack(d, root, ss, digest, d', e, n);
        if Newcomer(d, root, ss, e, n) {
          NewcomerBounded(d, root, ss, e, n);
        }
      }
      forall x | Waits(d', x)
        ensures x.queue < root.aggregate.nextQueue
      {
        var id, late :| Holds(root.aggregate.boxes, id, late, x);
      }
      forall i | 0 <= i < |d.receipts|
        ensures SameHead(d.receipts[i], d'.receipts[i])
      {}
    }
  }

  lemma NewcomerBounded(d: Checkpoint, root: Root, ss: seq<Settlement>, e: EventId, n: int)
    requires d.root.Retained? && MailMoves(d, root, ss) && root.Retained?
    requires Newcomer(d, root, ss, e, n)
    ensures n < root.aggregate.nextAcceptance
  {
    if x :| WaitsIn(root, x) && Arrives(d, ss, x) && x.envelope.eventId == e && x.acceptance == n {
      var id, late :| Holds(root.aggregate.boxes, id, late, x);
    }
  }

  // ---------------------------------------------------------------- digests and effects

  lemma Digests(d: Checkpoint, root: Root, ss: seq<Settlement>, digest: AggregateDigest, d': Checkpoint)
    requires Bridged(d, root, ss, digest, d') && d'.revision == d.revision + 1 && CurrentDigest(d') == digest
    requires DigestsAgree(d) && RevisionsBounded(d)
    ensures DigestsAgree(d')
  {
    assert forall i | 0 <= i < |d.receipts| :: SameHead(d.receipts[i], d'.receipts[i]);
  }

  lemma ReferencedKnown(d: Checkpoint, root: Root, ss: seq<Settlement>, digest: AggregateDigest,
                        outbox: seq<PendingIntent>, d': Checkpoint, f: string)
    requires Shaped(d, root, ss, digest, outbox, d') && Bridged(d, root, ss, digest, d')
    requires OutboxMatches(ss, outbox)
    requires EffectReferenced(d, f) ==> EffectKnown(d, f)
    requires EffectReferenced(d', f)
    ensures EffectKnown(d', f)
  {
    var i, k, ref :| RefAt(d', i, k, ref) && ref.ExternalOutbox? && ref.effectId == f;
    if MovedFrom(d, root, ss, i, k, ref) {
      var r :| RefAt(d, i, k, r) && RefMoved(d, root, ss, r, ref);
      assert EffectReferenced(d, f);
      EffectStays(d, outbox, d', f);
    } else {
      assert MatchesOutbox(ss, k, f);
      var p :| Intended(outbox, p, f);
      assert PendingEffect(d', |d.pendingOutbox| + p, f);
    }
  }

  lemma KnownReferenced(d: Checkpoint, root: Root, ss: seq<Settlement>, digest: AggregateDigest,
                        outbox: seq<PendingIntent>, d': Checkpoint, f: string, i: int)
    requires Bridged(d, root, ss, digest, d') && OutboxMatches(ss, outbox)
    requires d'.pendingOutbox == d.pendingOutbox + outbox
    requires d'.terminalOutbox == d.terminalOutbox && d'.outboxTombstones == d.outboxTombstones
    requires EffectKnown(d, f) ==> EffectReferenced(d, f)
    requires PendingEffect(d', i, f) || TerminalEffect(d', i, f) || BuriedEffect(d', i, f)
    ensures EffectReferenced(d', f)
  {
    if PendingEffect(d', i, f) && i >= |d.pendingOutbox| {
      assert Intended(outbox, i - |d.pendingOutbox|, f);
      var k :| MatchesOutbox(ss, k, f);
      assert FreshAt(d, ss, |d.receipts|, k, ss[0].references[k]);
      assert RefAt(d', |d.receipts|, k, ss[0].references[k]);
    } else {
      assert PendingEffect(d, i, f) || TerminalEffect(d, i, f) || BuriedEffect(d, i, f);
      var j, k, r :| RefAt(d, j, k, r) && r.ExternalOutbox? && r.effectId == f;
      var r' :| RefAt(d', j, k, r') && RefMoved(d, root, ss, r, r');
    }
  }

  lemma EffectStays(d: Checkpoint, outbox: seq<PendingIntent>, d': Checkpoint, f: string)
    requires d'.pendingOutbox == d.pendingOutbox + outbox
    requires d'.terminalOutbox == d.terminalOutbox && d'.outboxTombstones == d.outboxTombstones
    requires EffectKnown(d, f)
    ensures EffectKnown(d', f)
  {
    var i :| PendingEffect(d, i, f) || TerminalEffect(d, i, f) || BuriedEffect(d, i, f);
    assert PendingEffect(d', i, f) || TerminalEffect(d', i, f) || BuriedEffect(d', i, f);
  }

  /** The step's outbox intents carry effect ids the document has never seen. */
  lemma NewEffect(d: Checkpoint, root: Root, ss: seq<Settlement>, outbox: seq<PendingIntent>, p: int)
    requires d.root.Retained? && SettlementsOk(d, root, ss) && OutboxMatches(ss, outbox)
    requires 0 <= p < |outbox|
    ensures !EffectReferenced(d, outbox[p].effectId)
  {
    assert Intended(outbox, p, outbox[p].effectId);
    var k :| MatchesOutbox(ss, k, outbox[p].effectId);
    assert ReferenceOk(d, root, ss, ss[0].references[k]);
  }

  lemma Effects(d: Checkpoint, root: Root, ss: seq<Settlement>, digest: AggregateDigest, outbox: seq<PendingIntent>,
                d': Checkpoint)
    requires Shaped(d, root, ss, digest, outbox, d') && Bridged(d, root, ss, digest, d')
    requires EffectsAccounted(d) && TerminalSequencesOk(d)
    requires d.root.Retained? && SettlementsOk(d, root, ss) && OutboxMatches(ss, outbox)
    ensures EffectsAccounted(d') && TerminalSequencesOk(d')
  {
    forall p | 0 <= p < |outbox|
      ensures !EffectKnown(d, outbox[p].effectId)
    {
      NewEffect(d, root, ss, outbox, p);
    }
    assert forall i, j | 0 <= i < j < |outbox| :: outbox[i].effectId != outbox[j].effectId by {
      forall i, j | 0 <= i < j < |outbox| ensures outbox[i].effectId != outbox[j].effectId {
        assert Intended(outbox, i, outbox[i].effectId) && Intended(outbox, j, outbox[j].effectId);
      }
    }
    EffectsDistinct(d, outbox, d');
    forall f
      ensures EffectReferenced(d', f) <==> EffectKnown(d', f)
    {
      if EffectReferenced(d', f) {
        ReferencedKnown(d, root, ss, digest, outbox, d', f);
      }
      if i :| PendingEffect(d', i, f) || TerminalEffect(d', i, f) || BuriedEffect(d', i, f) {
        KnownReferenced(d, root, ss, digest, outbox, d', f, i);
      }
    }
  }

  lemma EffectsDistinct(d: Checkpoint, outbox: seq<PendingIntent>, d': Checkpoint)
    requires d'.pendingOutbox == d.pendingOutbox + outbox
    requires d'.terminalOutbox == d.terminalOutbox && d'.outboxTombstones == d.outboxTombstones
    requires EffectsAccounted(d)
    requires forall p | 0 <= p < |outbox| :: !EffectKnown(d, outbox[p].effectId)
    requires forall i, j | 0 <= i < j < |outbox| :: outbox[i].effectId != outbox[j].effectId
    ensures forall f, i, j | PendingEffect(d', i, f) && PendingEffect(d', j, f) :: i == j
    ensures forall f, i, j | PendingEffect(d', i, f) :: !TerminalEffect(d', j, f)
    ensures forall f, i, j | PendingEffect(d', i, f) :: !BuriedEffect(d', j, f)
    ensures forall f, i, j | TerminalEffect(d', i, f) && TerminalEffect(d', j, f) :: i == j
    ensures forall f, i, j | BuriedEffect(d', i, f) && BuriedEffect(d', j, f) :: i == j
    ensures forall f, i, j | TerminalEffect(d', i, f) :: !BuriedEffect(d', j, f)
  {
    var n := |d.pendingOutbox|;
    forall i, f | PendingEffect(d', i, f)
      ensures if i < n then PendingEffect(d, i, f) else !EffectKnown(d, f)
    {}
    assert forall i, f :: TerminalEffect(d', i, f) <==> TerminalEffect(d, i, f);
    assert forall i, f :: BuriedEffect(d', i, f) <==> BuriedEffect(d, i, f);
  }

  // ---------------------------------------------------------------- the whole relation

  /** A settlement of a stored checkpoint is a stored checkpoint. */
  lemma SettledStored(d: Checkpoint, root: Root, ss: seq<Settlement>, digest: AggregateDigest, outbox: seq<PendingIntent>)
    requires Settles(d, root, ss, digest, outbox)
    ensures Stored(Settled(d, root, ss, digest, outbox))
  {
    var d' := Settled(d, root, ss, digest, outbox);
    SettledShape(d, root, ss, digest, outbox);
    SettledStoredBy(d, root, ss, digest, outbox, d');
  }

  lemma SettledStoredBy(d: Checkpoint, root: Root, ss: seq<Settlement>, digest: AggregateDigest,
                        outbox: seq<PendingIntent>, d': Checkpoint)
    requires Settles(d, root, ss, digest, outbox) && Shaped(d, root, ss, digest, outbox, d')
    ensures Stored(d')
  {
    hide SettlementsOk, MailMoves, OutboxMatches, Shaped, Bridged, ReceiptsContiguous, RootAgrees, PendingDistinct,
      RevisionsBounded, EventsDistinct, ReferencesDistinct, PendingAccounted, PendingNotTerminal, TerminalsAccounted,
      TombstonesOk, AcceptancesSettled, TerminalRefsBacked, Chronological, QueuesDistinct, AcceptanceOwners,
      AllocationBounded, DigestsAgree, EffectsAccounted, TerminalSequencesOk, MailboxRefsWait, TombstonesPruned, AggregateOk, CurrentDigest;
    SettledHead(d, root, ss, digest, outbox, d');
    Bridge(d, root, ss, digest, outbox, d');
    Receipts(d, root, ss, digest, outbox, d');
    RootStays(d, root, ss, digest, outbox, d');
    Events(d, root, ss, digest, d');
    Refs(d, root, ss, digest, d');
    Pendings(d, root, ss, digest, d');
    Terminals(d, root, ss, digest, outbox, d');
    Graves(d, root, ss, digest, d');
    Acceptances(d, root, ss, digest, d');
    Backing(d, root, ss, digest, d');
    LiveRefs(d, root, ss, digest, d');
    Queues(d, root, ss, digest, d');
    Owners(d, root, ss, digest, d');
    Allocation(d, root, ss, digest, d');
    Digests(d, root, ss, digest, d');
    Effects(d, root, ss, digest, outbox, d');
  }

  lemma SettledHead(d: Checkpoint, root: Root, ss: seq<Settlement>, digest: AggregateDigest,
                    outbox: seq<PendingIntent>, d': Checkpoint)
    requires Settles(d, root, ss, digest, outbox) && Shaped(d, root, ss, digest, outbox, d')
    ensures |d.receipts| > 0
    ensures d'.root == root && d'.revision == d.revision + 1 && d'.cutoff == d.cutoff
    ensures d'.tombstones == d.tombstones && d'.nextReceipt == d.nextReceipt + |ss|
    ensures CurrentDigest(d') == digest && TombstonesPruned(d')
    ensures d'.root.Retained? ==> AggregateOk(d'.root.aggregate)
    ensures forall m | 1 <= m < |ss| :: ss[m].references == []
  {}
}
