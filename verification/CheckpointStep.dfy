/** One committed step of `step_checkpoint_v1`: from what the mailbox step promises to a
    settlement of the document. */
module CheckpointStep {
  import opened Options
  import opened Queueing
  import opened CheckpointV1
  import opened CheckpointSettlement
  import SettlementInvariant

  /** The receipt reference for one emission; `next` is the step's own receipt sequence. */
  function ReferenceOf(e: Emission, next: nat): Reference {
    match e
    case Outbox(effectId, index) => ExternalOutbox(index, effectId)
    case Mailbox(index, eventId, acceptance, queue) => InternalMailbox(index, eventId, acceptance, queue)
    case Disposed(index, eventId, acceptance, k) => InternalTerminal(index, eventId, acceptance, next + 1 + k)
  }

  function ReferencesOf(es: seq<Emission>, next: nat): seq<Reference> {
    seq(|es|, i requires 0 <= i < |es| => ReferenceOf(es[i], next))
  }

  function IntentsOf(es: seq<Emission>, revision: nat): seq<PendingIntent> {
    if es == [] then []
    else
      var e := es[|es| - 1];
      IntentsOf(es[..|es| - 1], revision)
        + if e.Outbox? then [PendingIntent(e.effectId, revision, "not_attempted")] else []
  }

  function LifecycleSettlement(l: Lifecycle): Settlement {
    Settlement(l.eventId, l.digest, l.acceptance, l.finalQueue, DisposedFor(l.reason), [])
  }

  /** The selected event first, then every entry the step disposed. */
  function StepSettlements(sel: Entry, r: StepResult, next: nat): seq<Settlement> {
    [Settlement(sel.envelope.eventId, sel.digest, sel.acceptance, sel.queue, Stepped(r.disposition),
                ReferencesOf(r.emissions, next))]
    + seq(|r.lifecycle|, k requires 0 <= k < |r.lifecycle| => LifecycleSettlement(r.lifecycle[k]))
  }

  predicate SameEffect(e: Emission, f: Emission) {
    e.Outbox? && f.Outbox? && e.effectId == f.effectId
  }

  /** Identities of emissions are hashes over the cause and the position, so a step never
      repeats an event id or an effect id that the document has mentioned. */
  ghost predicate NewIds(d: Checkpoint, es: seq<Emission>) {
    && (forall i | 0 <= i < |es| && RuntimeBound(es[i]) :: !Mentions(d, es[i].eventId))
    && (forall i | 0 <= i < |es| && es[i].Outbox? :: !EffectReferenced(d, es[i].effectId))
    && (forall i, j | 0 <= i < j < |es| :: !SameEffect(es[i], es[j]))
  }

  /** The facts about the mail that the settlement needs, without the aggregate. */
  ghost predicate Stepping(d: Checkpoint, sel: Entry, r: StepResult) {
    && Stored(d) && d.root.Retained?
    && Pending(d.root.aggregate, sel)
    && Commits(d.root.aggregate, sel, r)
    && NewIds(d, r.emissions)
  }

  /** A lifecycle record of mail that was already there ... */
  ghost predicate OldRecord(a: Aggregate, sel: Entry, l: Lifecycle, y: Entry) {
    Pending(a, y) && y != sel && Disposes(l, y)
  }

  /** ... or of an event this step emitted itself. */
  ghost predicate NewRecord(a: Aggregate, r: StepResult, k: int, i: int) {
    && 0 <= k < |r.lifecycle| && 0 <= i < |r.emissions|
    && r.emissions[i].Disposed? && r.emissions[i].lifecycleIndex == k
    && r.lifecycle[k].eventId == r.emissions[i].eventId && r.lifecycle[k].acceptance == r.emissions[i].acceptance
    && r.lifecycle[k].acceptance >= a.nextAcceptance && r.lifecycle[k].finalQueue >= a.nextQueue
  }

  lemma RecordKind(a: Aggregate, sel: Entry, r: StepResult, k: int)
    requires Commits(a, sel, r) && 0 <= k < |r.lifecycle|
    ensures (exists y :: OldRecord(a, sel, r.lifecycle[k], y)) || (exists i :: NewRecord(a, r, k, i))
  {
    if DisposedNew(a, r, k) {
      var i :| 0 <= i < |r.emissions| && r.emissions[i].Disposed? && r.emissions[i].lifecycleIndex == k;
      assert NewRecord(a, r, k, i);
    } else {
      var y :| Pending(a, y) && y != sel && Disposes(r.lifecycle[k], y);
      assert OldRecord(a, sel, r.lifecycle[k], y);
    }
  }

  lemma PendingBounded(a: Aggregate, y: Entry)
    requires AggregateOk(a) && Pending(a, y)
    ensures y.acceptance < a.nextAcceptance && y.queue < a.nextQueue
  {
    var id, late :| Holds(a.boxes, id, late, y);
  }

  /** The selected event is neither among the disposed ones nor left in a mailbox. */
  lemma SelectedApart(a: Aggregate, sel: Entry, r: StepResult)
    requires AggregateOk(a) && Pending(a, sel) && Commits(a, sel, r)
    ensures forall k | 0 <= k < |r.lifecycle| ::
      && r.lifecycle[k].eventId != sel.envelope.eventId && r.lifecycle[k].finalQueue != sel.queue
      && r.lifecycle[k].acceptance != sel.acceptance
    ensures forall x | Pending(r.state, x) ::
      x.envelope.eventId != sel.envelope.eventId && x.queue != sel.queue && x.acceptance != sel.acceptance
  {
    PendingBounded(a, sel);
    forall k | 0 <= k < |r.lifecycle|
      ensures r.lifecycle[k].eventId != sel.envelope.eventId && r.lifecycle[k].finalQueue != sel.queue
      ensures r.lifecycle[k].acceptance != sel.acceptance
    {
      RecordKind(a, sel, r, k);
      if y :| OldRecord(a, sel, r.lifecycle[k], y) {
        assert !SameKey(sel, y) by { if SameKey(sel, y) { SameEntry(a, sel, y); } }
      } else {
        var i :| NewRecord(a, r, k, i);
        assert RuntimeBound(r.emissions[i]);
      }
    }
    forall x | Pending(r.state, x)
      ensures x.envelope.eventId != sel.envelope.eventId && x.queue != sel.queue && x.acceptance != sel.acceptance
    {
      if SurvivorOf(a, sel, x) {
        var y :| Pending(a, y) && y != sel && Requeued(y, x, a.nextQueue);
        assert !SameKey(sel, y) by { if SameKey(sel, y) { SameEntry(a, sel, y); } }
      } else {
        var i :| 0 <= i < |r.emissions| && r.emissions[i].Mailbox? && Reports(r.emissions[i], x);
        assert RuntimeBound(r.emissions[i]);
      }
    }
  }

  lemma AcceptancesApart(a: Aggregate, sel: Entry, r: StepResult, k: int, l: int)
    requires AggregateOk(a) && Commits(a, sel, r)
    requires 0 <= k < |r.lifecycle| && 0 <= l < |r.lifecycle|
    requires r.lifecycle[k].acceptance == r.lifecycle[l].acceptance
    ensures k == l
  {
    RecordKind(a, sel, r, k);
    RecordKind(a, sel, r, l);
    if y :| OldRecord(a, sel, r.lifecycle[k], y) {
      PendingBounded(a, y);
      var z :| OldRecord(a, sel, r.lifecycle[l], z);
      SameEntry(a, y, z);
    } else {
      var i :| NewRecord(a, r, k, i);
      if z :| OldRecord(a, sel, r.lifecycle[l], z) {
        PendingBounded(a, z);
      } else {
        var j :| NewRecord(a, r, l, j);
        assert RuntimeBound(r.emissions[i]) && RuntimeBound(r.emissions[j]);
      }
    }
  }

  /** No surviving entry shares its acceptance sequence with a disposed one. */
  lemma DisposedApart(a: Aggregate, sel: Entry, r: StepResult, k: int, x: Entry)
    requires AggregateOk(a) && Commits(a, sel, r)
    requires 0 <= k < |r.lifecycle| && Pending(r.state, x)
    ensures r.lifecycle[k].acceptance != x.acceptance
  {
    RecordKind(a, sel, r, k);
    assert r.lifecycle[k] in r.lifecycle;
    if SurvivorOf(a, sel, x) {
      var y :| Pending(a, y) && y != sel && Requeued(y, x, a.nextQueue);
      PendingBounded(a, y);
      if z :| OldRecord(a, sel, r.lifecycle[k], z) {
        assert !SameKey(y, z) by { if SameKey(y, z) { SameEntry(a, y, z); } }
      }
    } else {
      var j :| 0 <= j < |r.emissions| && r.emissions[j].Mailbox? && Reports(r.emissions[j], x);
      if z :| OldRecord(a, sel, r.lifecycle[k], z) {
        PendingBounded(a, z);
      } else {
        var i :| NewRecord(a, r, k, i);
        assert RuntimeBound(r.emissions[i]) && RuntimeBound(r.emissions[j]) && i != j;
      }
    }
  }

  // ---------------------------------------------------------------- the settlement conditions

  lemma SettlementKind(d: Checkpoint, sel: Entry, r: StepResult, ss: seq<Settlement>, m: int)
    requires d.root.Retained? && Pending(d.root.aggregate, sel) && Commits(d.root.aggregate, sel, r)
    requires NewIds(d, r.emissions) && ss == StepSettlements(sel, r, d.nextReceipt)
    requires 0 <= m < |ss|
    ensures SettlesNew(d, ss, m) || exists y :: SettlesOld(d, ss[m], y)
  {
    hide Commits, NewIds, Pending;
    var a := d.root.aggregate;
    if m == 0 {
      assert SettlesOld(d, ss[0], sel);
    } else {
      var l := r.lifecycle[m - 1];
      RecordKind(a, sel, r, m - 1);
      if y :| OldRecord(a, sel, l, y) {
        assert SettlesOld(d, ss[m], y);
      } else {
        var i :| NewRecord(a, r, m - 1, i);
        NewSettlement(d, sel, r, ss, m, i);
      }
    }
  }

  lemma NewSettlement(d: Checkpoint, sel: Entry, r: StepResult, ss: seq<Settlement>, m: int, i: int)
    requires d.root.Retained? && NewIds(d, r.emissions) && ss == StepSettlements(sel, r, d.nextReceipt)
    requires 1 <= m < |ss| && NewRecord(d.root.aggregate, r, m - 1, i)
    ensures SettlesNew(d, ss, m)
  {
    hide Mentions;
    assert RuntimeBound(r.emissions[i]);
    assert ss[0].references[i] == ReferenceOf(r.emissions[i], d.nextReceipt);
    assert TerminalRefFor(ss[0].references[i], ss[m].eventId);
  }

  lemma DisposedReferenceOk(d: Checkpoint, sel: Entry, r: StepResult, ss: seq<Settlement>, i: int)
    requires d.root.Retained? && Commits(d.root.aggregate, sel, r)
    requires NewIds(d, r.emissions) && ss == StepSettlements(sel, r, d.nextReceipt)
    requires 0 <= i < |r.emissions| && r.emissions[i].Disposed?
    ensures ReferenceOk(d, Retained(r.state), ss, ReferenceOf(r.emissions[i], d.nextReceipt))
  {
    hide NewIds, Mentions;
    var e := r.emissions[i];
    var k := e.lifecycleIndex;
    RecordKind(d.root.aggregate, sel, r, k);
    assert RuntimeBound(e);
    assert forall y :: !OldRecord(d.root.aggregate, sel, r.lifecycle[k], y);
    var j :| NewRecord(d.root.aggregate, r, k, j);
    NewSettlement(d, sel, r, ss, k + 1, j);
    assert ss[k + 1].eventId == e.eventId && ss[k + 1].acceptance == e.acceptance;
    assert !Mentions(d, e.eventId) by { assert SettlesNew(d, ss, k + 1); }
  }

  lemma StepReferenceOk(d: Checkpoint, sel: Entry, r: StepResult, ss: seq<Settlement>, i: int)
    requires d.root.Retained? && Commits(d.root.aggregate, sel, r)
    requires NewIds(d, r.emissions) && ss == StepSettlements(sel, r, d.nextReceipt)
    requires 0 <= i < |r.emissions|
    ensures ReferenceOk(d, Retained(r.state), ss, ReferenceOf(r.emissions[i], d.nextReceipt))
  {
    hide Mentions;
    var e := r.emissions[i];
    match e
    case Outbox(_, _) =>
    case Mailbox(_, _, _, _) =>
      assert RuntimeBound(e);
      assert Emitted(r.state, e);
      var x :| Pending(r.state, x) && Reports(e, x);
      assert WaitsIn(Retained(r.state), x);
    case Disposed(_, _, _, _) =>
      DisposedReferenceOk(d, sel, r, ss, i);
  }

  lemma StepReferencesDistinct(a: Aggregate, d: Checkpoint, r: StepResult, i: int, j: int)
    requires EmissionsOk(a, r) && NewIds(d, r.emissions) && 0 <= i < j < |r.emissions|
    ensures !SameSubject(ReferenceOf(r.emissions[i], d.nextReceipt), ReferenceOf(r.emissions[j], d.nextReceipt))
  {
    hide Mentions;
    assert !SameEffect(r.emissions[i], r.emissions[j]);
    assert r.emissions[i].Outbox? || RuntimeBound(r.emissions[i]);
    assert r.emissions[j].Outbox? || RuntimeBound(r.emissions[j]);
  }

  /** Settled identities are distinct from each other and from the mail that is left. */
  lemma StepIdentities(a: Aggregate, sel: Entry, r: StepResult, ss: seq<Settlement>, next: nat)
    requires AggregateOk(a) && Pending(a, sel) && Commits(a, sel, r) && ss == StepSettlements(sel, r, next)
    ensures forall m, n | 0 <= m < n < |ss| :: ss[m].eventId != ss[n].eventId && ss[m].finalQueue != ss[n].finalQueue
    ensures forall m, x | 0 <= m < |ss| && Pending(r.state, x) ::
      ss[m].eventId != x.envelope.eventId && ss[m].finalQueue != x.queue && ss[m].acceptance != x.acceptance
    ensures forall m, n | 0 <= m < |ss| && 0 <= n < |ss| && ss[m].acceptance == ss[n].acceptance :: m == n
    ensures forall m | 0 <= m < |ss| :: ss[m].acceptance < r.state.nextAcceptance && ss[m].finalQueue < r.state.nextQueue
  {
    hide Commits, Pending, AggregateOk;
    SelectedApart(a, sel, r);
    PendingBounded(a, sel);
    CommittedLifecycle(a, sel, r);
    StepAggregates(a, sel, r);
    forall m, x | 0 <= m < |ss| && Pending(r.state, x)
      ensures ss[m].acceptance != x.acceptance
    {
      if m > 0 { DisposedApart(a, sel, r, m - 1, x); }
    }
    forall m, n | 0 <= m < |ss| && 0 <= n < |ss| && ss[m].acceptance == ss[n].acceptance
      ensures m == n
    {
      if m > 0 && n > 0 { AcceptancesApart(a, sel, r, m - 1, n - 1); }
    }
  }

  lemma CommittedLifecycle(a: Aggregate, sel: Entry, r: StepResult)
    requires Commits(a, sel, r)
    ensures DistinctEvents(r.lifecycle)
    ensures forall k, x | 0 <= k < |r.lifecycle| && Pending(r.state, x) ::
      r.lifecycle[k].eventId != x.envelope.eventId && r.lifecycle[k].finalQueue != x.queue
    ensures forall k | 0 <= k < |r.lifecycle| ::
      r.lifecycle[k].acceptance < r.state.nextAcceptance && r.lifecycle[k].finalQueue < r.state.nextQueue
  {
    assert forall k | 0 <= k < |r.lifecycle| :: r.lifecycle[k] in r.lifecycle;
  }

  lemma StepSettlementsOk(d: Checkpoint, sel: Entry, r: StepResult, ss: seq<Settlement>)
    requires d.root.Retained? && AggregateOk(d.root.aggregate)
    requires Pending(d.root.aggregate, sel) && Commits(d.root.aggregate, sel, r)
    requires NewIds(d, r.emissions) && ss == StepSettlements(sel, r, d.nextReceipt)
    ensures SettlementsOk(d, Retained(r.state), ss)
  {
    hide Commits, NewIds, Pending, AggregateOk, SettlesNew, SettlesOld, ReferenceOk;
    StepIdentities(d.root.aggregate, sel, r, ss, d.nextReceipt);
    forall m | 0 <= m < |ss|
      ensures SettlesNew(d, ss, m) || exists y :: SettlesOld(d, ss[m], y)
    {
      SettlementKind(d, sel, r, ss, m);
    }
    forall k | 0 <= k < |ss[0].references|
      ensures ReferenceOk(d, Retained(r.state), ss, ss[0].references[k])
    {
      StepReferenceOk(d, sel, r, ss, k);
    }
    assert EmissionsOk(d.root.aggregate, r) by { StepEmissionsOk(d.root.aggregate, sel, r); }
    forall k, l | 0 <= k < l < |ss[0].references|
      ensures !SameSubject(ss[0].references[k], ss[0].references[l])
    {
      StepReferencesDistinct(d.root.aggregate, d, r, k, l);
    }
  }

  lemma StepEmissionsOk(a: Aggregate, sel: Entry, r: StepResult)
    requires Commits(a, sel, r)
    ensures EmissionsOk(a, r)
  {}

  lemma StepArrivals(d: Checkpoint, sel: Entry, r: StepResult, ss: seq<Settlement>, x: Entry)
    requires d.root.Retained? && Commits(d.root.aggregate, sel, r) && NewIds(d, r.emissions)
    requires ss == StepSettlements(sel, r, d.nextReceipt)
    requires Pending(r.state, x) && forall m | 0 <= m < |ss| :: ss[m].eventId != x.envelope.eventId
    ensures Survives(d, ss, x) || Arrives(d, ss, x)
  {
    hide Mentions;
    var a := d.root.aggregate;
    if SurvivorOf(a, sel, x) {
      var y :| Pending(a, y) && y != sel && Requeued(y, x, a.nextQueue);
      assert Waits(d, y) && Follows(y, x, a.nextQueue);
    } else {
      var i :| 0 <= i < |r.emissions| && r.emissions[i].Mailbox? && Reports(r.emissions[i], x);
      assert RuntimeBound(r.emissions[i]);
      assert ss[0].references[i] == ReferenceOf(r.emissions[i], d.nextReceipt);
      assert MailboxRefFor(ss[0].references[i], x.envelope.eventId);
    }
  }

  lemma CommitsDeparture(a: Aggregate, sel: Entry, r: StepResult, y: Entry)
    requires Commits(a, sel, r) && Pending(a, y) && y != sel
    ensures (exists x :: Pending(r.state, x) && Requeued(y, x, a.nextQueue))
         || (exists l :: l in r.lifecycle && Disposes(l, y))
  {
    hide AggregateOk, Pending;
  }

  lemma StepDepartures(d: Checkpoint, sel: Entry, r: StepResult, ss: seq<Settlement>, y: Entry)
    requires d.root.Retained? && Commits(d.root.aggregate, sel, r) && ss == StepSettlements(sel, r, d.nextReceipt)
    requires Waits(d, y)
    ensures || (exists m :: 0 <= m < |ss| && SettlesOld(d, ss[m], y))
            || (exists x :: WaitsIn(Retained(r.state), x) && Follows(y, x, d.root.aggregate.nextQueue))
  {
    if y != sel {
      CommitsDeparture(d.root.aggregate, sel, r, y);
    }
    hide Commits, Pending, ReferencesOf;
    if y == sel {
      assert SettlesOld(d, ss[0], y);
    } else if x :| Pending(r.state, x) && Requeued(y, x, d.root.aggregate.nextQueue) {
      assert WaitsIn(Retained(r.state), x) && Follows(y, x, d.root.aggregate.nextQueue);
    } else {
      var l :| l in r.lifecycle && Disposes(l, y);
      var k :| 0 <= k < |r.lifecycle| && r.lifecycle[k] == l;
      assert ss[k + 1] == LifecycleSettlement(l);
      assert SettlesOld(d, ss[k + 1], y);
    }
  }

  lemma StepMail(d: Checkpoint, sel: Entry, r: StepResult, ss: seq<Settlement>)
    requires d.root.Retained? && AggregateOk(d.root.aggregate)
    requires Pending(d.root.aggregate, sel) && Commits(d.root.aggregate, sel, r)
    requires NewIds(d, r.emissions) && ss == StepSettlements(sel, r, d.nextReceipt)
    ensures MailMoves(d, Retained(r.state), ss)
  {
    hide Commits, NewIds, Pending, AggregateOk, Survives, Arrives, SettlesOld;
    var root := Retained(r.state);
    StepIdentities(d.root.aggregate, sel, r, ss, d.nextReceipt);
    StepAggregates(d.root.aggregate, sel, r);
    forall x | WaitsIn(root, x)
      ensures Survives(d, ss, x) || Arrives(d, ss, x)
    {
      StepArrivals(d, sel, r, ss, x);
    }
    forall y | Waits(d, y)
      ensures || (exists m :: 0 <= m < |ss| && SettlesOld(d, ss[m], y))
              || (exists x :: WaitsIn(root, x) && Follows(y, x, d.root.aggregate.nextQueue))
    {
      StepDepartures(d, sel, r, ss, y);
    }
  }

  lemma StepAggregates(a: Aggregate, sel: Entry, r: StepResult)
    requires Commits(a, sel, r)
    ensures AggregateOk(r.state) && r.state.root == a.root && r.state.creationId == a.creationId
    ensures a.nextAcceptance <= r.state.nextAcceptance && a.nextQueue <= r.state.nextQueue
  {}

  predicate ExternalAt(es: seq<Emission>, i: int, f: string) {
    0 <= i < |es| && es[i].Outbox? && es[i].effectId == f
  }

  ghost predicate IntentsMatch(es: seq<Emission>, outbox: seq<PendingIntent>) {
    && (forall p, f | Intended(outbox, p, f) :: exists i :: ExternalAt(es, i, f))
    && (forall i, f | ExternalAt(es, i, f) :: exists p :: Intended(outbox, p, f))
    && (forall p, q, f | Intended(outbox, p, f) && Intended(outbox, q, f) :: p == q)
  }

  /** The outbox intents are exactly the external emissions, each once. */
  lemma {:induction false} IntentsExact(es: seq<Emission>, revision: nat)
    requires forall i, j | 0 <= i < j < |es| :: !SameEffect(es[i], es[j])
    ensures IntentsMatch(es, IntentsOf(es, revision))
  {
    if es != [] {
      var n := |es| - 1;
      var front := es[..n];
      assert forall i, f :: ExternalAt(front, i, f) <==> i < n && ExternalAt(es, i, f);
      assert forall i | 0 <= i < n :: !SameEffect(es[i], es[n]);
      IntentsExact(front, revision);
      var before, outbox := IntentsOf(front, revision), IntentsOf(es, revision);
      assert forall p, f | Intended(before, p, f) :: Intended(outbox, p, f);
      forall p, f | Intended(outbox, p, f)
        ensures if p < |before| then Intended(before, p, f) && !ExternalAt(es, n, f) else ExternalAt(es, n, f)
        ensures exists i :: ExternalAt(es, i, f)
      {
        if p < |before| {
          assert Intended(before, p, f);
          var i :| ExternalAt(front, i, f);
          assert ExternalAt(es, i, f) && !SameEffect(es[i], es[n]);
        } else {
          assert ExternalAt(es, n, f);
        }
      }
      forall i, f | ExternalAt(es, i, f)
        ensures exists p :: Intended(outbox, p, f)
      {
        if i < n {
          assert ExternalAt(front, i, f);
          var p :| Intended(before, p, f);
          assert Intended(outbox, p, f);
        } else {
          assert Intended(outbox, |before|, f);
        }
      }
    }
  }

  lemma StepOutbox(d: Checkpoint, sel: Entry, r: StepResult, ss: seq<Settlement>, outbox: seq<PendingIntent>)
    requires NewIds(d, r.emissions) && ss == StepSettlements(sel, r, d.nextReceipt)
    requires outbox == IntentsOf(r.emissions, d.revision + 1)
    ensures OutboxMatches(ss, outbox)
  {
    hide Mentions, EffectReferenced;
    IntentsExact(r.emissions, d.revision + 1);
    assert forall i | 0 <= i < |r.emissions| :: ss[0].references[i] == ReferenceOf(r.emissions[i], d.nextReceipt);
    assert forall k, f :: MatchesOutbox(ss, k, f) <==> ExternalAt(r.emissions, k, f);
    forall p, f | Intended(outbox, p, f)
      ensures exists k :: MatchesOutbox(ss, k, f)
    {
      var i :| ExternalAt(r.emissions, i, f);
      assert MatchesOutbox(ss, i, f);
    }
  }

  /** What a step writes: the settled document of the selected event and its disposals. */
  function SteppedDocument(d: Checkpoint, sel: Entry, r: StepResult): Checkpoint
    requires AggregateOk(r.state)
  {
    Settled(d, Retained(r.state), StepSettlements(sel, r, d.nextReceipt), AggregateDigest(r.state),
            IntentsOf(r.emissions, d.revision + 1))
  }

  /** A committed step is a settlement, so it keeps the whole stored relation. */
  lemma StepSettles(d: Checkpoint, sel: Entry, r: StepResult)
    requires Stepping(d, sel, r)
    ensures Settles(d, Retained(r.state), StepSettlements(sel, r, d.nextReceipt), AggregateDigest(r.state),
                    IntentsOf(r.emissions, d.revision + 1))
    ensures Stored(SteppedDocument(d, sel, r))
  {
    hide Valid, MailboxRefsWait, Pending, AggregateOk, Commits, NewIds, SettlementsOk, MailMoves, OutboxMatches, Settled;
    StepAggregates(d.root.aggregate, sel, r);
    var ss, outbox := StepSettlements(sel, r, d.nextReceipt), IntentsOf(r.emissions, d.revision + 1);
    StepSettlementsOk(d, sel, r, ss);
    StepMail(d, sel, r, ss);
    StepOutbox(d, sel, r, ss, outbox);
    SettlementInvariant.SettledStored(d, Retained(r.state), ss, AggregateDigest(r.state), outbox);
  }

  // ---------------------------------------------------------------- a deferred step

  /** What a deferred step writes: the references follow the entry to its new queue sequence. */
  function DeferredDocument(d: Checkpoint, b: Aggregate): Checkpoint
    requires AggregateOk(b)
  {
    Settled(d, Retained(b), [], AggregateDigest(b), [])
  }

  lemma DeferredMail(a: Aggregate, target: RuntimeId, b: Aggregate)
    requires target in a.boxes && a.boxes[target].ready != [] && Defers(a, target, b)
    ensures forall x | Pending(b, x) :: exists y :: Pending(a, y) && Follows(y, x, a.nextQueue)
    ensures forall y | Pending(a, y) :: exists x :: Pending(b, x) && Follows(y, x, a.nextQueue)
  {
    var old', new' := a.boxes[target], b.boxes[target];
    var moved := new'.deferred[|old'.deferred|];
    assert Holds(a.boxes, target, false, old'.ready[0]) && Holds(b.boxes, target, true, moved);
    assert Follows(old'.ready[0], moved, a.nextQueue);
    forall x | Pending(b, x)
      ensures exists y :: Pending(a, y) && Follows(y, x, a.nextQueue)
    {
      var id, late :| Holds(b.boxes, id, late, x);
      if !(id == target && late && x == moved) {
        assert Holds(a.boxes, id, late, x) && Follows(x, x, a.nextQueue);
        assert Pending(a, x);
      } else {
        assert Pending(a, old'.ready[0]);
      }
    }
    forall y | Pending(a, y)
      ensures exists x :: Pending(b, x) && Follows(y, x, a.nextQueue)
    {
      var id, late :| Holds(a.boxes, id, late, y);
      if y == old'.ready[0] {
        assert Pending(b, moved);
      } else {
        StaysOnDefer(a, target, b, id, late, y);
        assert Pending(b, y) && Follows(y, y, a.nextQueue);
      }
    }
  }

  lemma StaysOnDefer(a: Aggregate, target: RuntimeId, b: Aggregate, id: RuntimeId, late: bool, y: Entry)
    requires target in a.boxes && a.boxes[target].ready != [] && Defers(a, target, b)
    requires Holds(a.boxes, id, late, y) && y != a.boxes[target].ready[0]
    ensures Holds(b.boxes, id, late, y)
  {
    if id == target && !late {
      var i :| 0 <= i < |a.boxes[target].ready| && a.boxes[target].ready[i] == y;
      assert b.boxes[target].ready[i - 1] == y;
    }
  }

  lemma DeferMoves(d: Checkpoint, target: RuntimeId, b: Aggregate)
    requires d.root.Retained?
    requires target in d.root.aggregate.boxes && d.root.aggregate.boxes[target].ready != []
    requires AggregateOk(b) && Defers(d.root.aggregate, target, b)
    ensures MailMoves(d, Retained(b), [])
  {
    hide AggregateOk;
    DeferredMail(d.root.aggregate, target, b);
    forall x | WaitsIn(Retained(b), x)
      ensures Survives(d, [], x)
    {
      var y :| Pending(d.root.aggregate, y) && Follows(y, x, d.root.aggregate.nextQueue);
      assert Waits(d, y);
    }
    forall y | Waits(d, y)
      ensures exists x :: WaitsIn(Retained(b), x) && Follows(y, x, d.root.aggregate.nextQueue)
    {
      var x :| Pending(b, x) && Follows(y, x, d.root.aggregate.nextQueue);
      assert WaitsIn(Retained(b), x);
    }
  }

  /** A deferred step settles nothing and keeps the whole stored relation. */
  lemma DeferSettles(d: Checkpoint, target: RuntimeId, b: Aggregate)
    requires Stored(d) && d.root.Retained?
    requires target in d.root.aggregate.boxes && d.root.aggregate.boxes[target].ready != []
    requires AggregateOk(b) && Defers(d.root.aggregate, target, b)
    ensures Settles(d, Retained(b), [], AggregateDigest(b), [])
    ensures Stored(DeferredDocument(d, b))
  {
    hide Stored, AggregateOk, Settled, MailMoves, Defers;
    DeferMoves(d, target, b);
    SettlementInvariant.SettledStored(d, Retained(b), [], AggregateDigest(b), []);
  }
}
