/** The loops of `checkpoint_v1.py` and `host.py` over receipts, references and mailboxes, each
    proved against the functional description of what it computes. */
module CheckpointLoops {
  import opened Options
  import opened Queueing
  import opened CheckpointV1
  import opened CheckpointSettlement
  import opened CheckpointStep
  import opened CheckpointAdmission
  import opened CheckpointRoot

  // ---------------------------------------------------------------- rewriting references

  ghost predicate Terminalized(r: Receipt, r': Receipt, s: Settlement, terminal: nat) {
    && SameHead(r, r') && |References(r')| == |References(r)|
    && forall k | 0 <= k < |References(r)| :: References(r')[k] == TerminalizeRef(References(r)[k], s, terminal)
  }

  ghost predicate Synchronized(r: Receipt, r': Receipt, locations: Locations) {
    && SameHead(r, r') && |References(r')| == |References(r)|
    && forall k | 0 <= k < |References(r)| :: References(r')[k] == SyncRef(References(r)[k], locations)
  }

  ghost predicate SettledFrom(r: Receipt, r': Receipt, ss: seq<Settlement>, first: nat) {
    && SameHead(r, r') && |References(r')| == |References(r)|
    && forall k | 0 <= k < |References(r)| :: References(r')[k] == SettleRef(References(r)[k], ss, first)
  }

  /** `_terminalize_mailbox_reference`. */
  method TerminalizeMailboxReference(receipts: seq<Receipt>, s: Settlement, terminal: nat) returns (out: seq<Receipt>)
    ensures |out| == |receipts|
    ensures forall i | 0 <= i < |receipts| :: Terminalized(receipts[i], out[i], s, terminal)
  {
    out := [];
    for i := 0 to |receipts|
      invariant |out| == i
      invariant forall j | 0 <= j < i :: Terminalized(receipts[j], out[j], s, terminal)
    {
      var refs, changed := References(receipts[i]), [];
      for k := 0 to |refs|
        invariant |changed| == k
        invariant forall j | 0 <= j < k :: changed[j] == TerminalizeRef(refs[j], s, terminal)
      {
        var ref := refs[k];
        if ref.InternalMailbox? && ref.eventId == s.eventId && ref.acceptance == s.acceptance {
          ref := InternalTerminal(ref.index, ref.eventId, ref.acceptance, terminal);
        }
        changed := changed + [ref];
      }
      out := out + [WithReferences(receipts[i], changed)];
    }
  }

  /** `_synchronize_mailbox_references`. */
  method SynchronizeMailboxReferences(receipts: seq<Receipt>, locations: Locations) returns (out: seq<Receipt>)
    ensures |out| == |receipts|
    ensures forall i | 0 <= i < |receipts| :: Synchronized(receipts[i], out[i], locations)
  {
    out := [];
    for i := 0 to |receipts|
      invariant |out| == i
      invariant forall j | 0 <= j < i :: Synchronized(receipts[j], out[j], locations)
    {
      var refs, changed := References(receipts[i]), [];
      for k := 0 to |refs|
        invariant |changed| == k
        invariant forall j | 0 <= j < k :: changed[j] == SyncRef(refs[j], locations)
      {
        var ref := refs[k];
        if ref.InternalMailbox? && (ref.eventId, ref.acceptance) in locations {
          ref := ref.(queue := locations[(ref.eventId, ref.acceptance)]);
        }
        changed := changed + [ref];
      }
      out := out + [WithReferences(receipts[i], changed)];
    }
  }

  lemma SettleOne(r: Receipt, r1: Receipt, r2: Receipt, ss: seq<Settlement>, k: nat, first: nat)
    requires k < |ss|
    requires SettledFrom(r, r1, ss[..k], first) && Terminalized(r1, r2, ss[k], first + k)
    ensures SettledFrom(r, r2, ss[..k + 1], first)
  {
    assert ss[..k + 1][..k] == ss[..k];
  }

  lemma SameReceipt(r: Receipt, r1: Receipt, r2: Receipt)
    requires SameHead(r, r1) && SameHead(r, r2) && References(r1) == References(r2)
    ensures r1 == r2
  {}

  /** The order of `step_checkpoint_v1`: first every reference, then every terminal receipt,
      then the queue positions. */
  method SettleThenAppend(receipts: seq<Receipt>, ss: seq<Settlement>, first: nat, revision: nat,
                          digest: AggregateDigest, locations: Locations)
    returns (out: seq<Receipt>)
    ensures out == SettledReceipts(receipts, ss, first, revision, digest, locations)
  {
    var settled := receipts;
    for k := 0 to |ss|
      invariant |settled| == |receipts|
      invariant forall i | 0 <= i < |receipts| :: SettledFrom(receipts[i], settled[i], ss[..k], first)
    {
      var next := TerminalizeMailboxReference(settled, ss[k], first + k);
      forall i | 0 <= i < |receipts|
        ensures SettledFrom(receipts[i], next[i], ss[..k + 1], first)
      {
        SettleOne(receipts[i], settled[i], next[i], ss, k, first);
      }
      settled := next;
    }
    assert ss[..|ss|] == ss;
    var appended := settled;
    for k := 0 to |ss|
      invariant |appended| == |receipts| + k
      invariant forall i | 0 <= i < |receipts| :: appended[i] == settled[i]
      invariant forall i | |receipts| <= i < |receipts| + k ::
        appended[i] == TerminalReceipt(ss[i - |receipts|], first + i - |receipts|, revision, digest)
    {
      appended := appended + [TerminalReceipt(ss[k], first + k, revision, digest)];
    }
    out := SynchronizeMailboxReferences(appended, locations);
    SettledExactly(receipts, ss, first, revision, digest, locations, appended, out);
  }

  lemma SettledExactly(receipts: seq<Receipt>, ss: seq<Settlement>, first: nat, revision: nat,
                       digest: AggregateDigest, locations: Locations, appended: seq<Receipt>, out: seq<Receipt>)
    requires |appended| == |receipts| + |ss| == |out|
    requires forall i | 0 <= i < |receipts| :: SettledFrom(receipts[i], appended[i], ss, first)
    requires forall i | |receipts| <= i < |receipts| + |ss| ::
      appended[i] == TerminalReceipt(ss[i - |receipts|], first + i - |receipts|, revision, digest)
    requires forall i | 0 <= i < |out| :: Synchronized(appended[i], out[i], locations)
    ensures out == SettledReceipts(receipts, ss, first, revision, digest, locations)
  {
    var expected := SettledReceipts(receipts, ss, first, revision, digest, locations);
    forall i | 0 <= i < |out|
      ensures out[i] == expected[i]
    {
      SettledAt(receipts, ss, first, revision, digest, locations, i);
      assert Synchronized(appended[i], out[i], locations);
      if i < |receipts| {
        assert SettledFrom(receipts[i], appended[i], ss, first);
        SameReceipt(receipts[i], out[i], expected[i]);
      } else {
        SameReceipt(appended[i], out[i], expected[i]);
      }
    }
  }

  /** The order of `_terminalize_v1_entries`: references and receipt one entry at a time. The
      result is the same as settling first and appending afterwards. */
  method SettleEntryByEntry(receipts: seq<Receipt>, entries: seq<Entry>, first: nat, revision: nat, digest: AggregateDigest)
    returns (out: seq<Receipt>, next: nat)
    ensures next == first + |entries|
    ensures out == SettledReceipts(receipts, EntrySettlements(entries), first, revision, digest, map[])
  {
    ghost var ss := EntrySettlements(entries);
    out, next := receipts, first;
    for k := 0 to |entries|
      invariant next == first + k
      invariant |out| == |receipts| + k
      invariant forall i | 0 <= i < |receipts| :: SettledFrom(receipts[i], out[i], ss[..k], first)
      invariant forall i | |receipts| <= i < |receipts| + k ::
        out[i] == TerminalReceipt(ss[i - |receipts|], first + i - |receipts|, revision, digest)
    {
      ghost var before := out;
      var s := EntrySettlement(entries[k]);
      out := TerminalizeMailboxReference(out, s, next);
      forall i | 0 <= i < |receipts|
        ensures SettledFrom(receipts[i], out[i], ss[..k + 1], first)
      {
        SettleOne(receipts[i], before[i], out[i], ss, k, first);
      }
      forall i | |receipts| <= i < |receipts| + k
        ensures out[i] == before[i]
      {
        assert Terminalized(before[i], out[i], s, next) && References(before[i]) == [];
        assert References(out[i]) == [];
        SameReceipt(before[i], out[i], before[i]);
      }
      out := out + [TerminalReceipt(s, next, revision, digest)];
      next := next + 1;
    }
    assert ss[..|entries|] == ss;
    SettledExactly(receipts, ss, first, revision, digest, map[], out, out);
  }

  /** Receipt references and outbox intents of a step's emissions. */
  method ProjectEmissions(es: seq<Emission>, next: nat, revision: nat)
    returns (references: seq<Reference>, outbox: seq<PendingIntent>)
    ensures references == ReferencesOf(es, next)
    ensures outbox == IntentsOf(es, revision)
  {
    references, outbox := [], [];
    for i := 0 to |es|
      invariant references == ReferencesOf(es[..i], next)
      invariant outbox == IntentsOf(es[..i], revision)
    {
      assert es[..i + 1][..i] == es[..i];
      if es[i].Outbox? {
        outbox := outbox + [PendingIntent(es[i].effectId, revision, "not_attempted")];
      }
      references := references + [ReferenceOf(es[i], next)];
    }
    assert es[..|es|] == es;
  }

  // ---------------------------------------------------------------- looking events up

  method FindEntry(s: seq<Entry>, e: EventId) returns (i: int)
    ensures 0 <= i ==> i < |s| && s[i].envelope.eventId == e
    ensures i < 0 ==> forall x | x in s :: x.envelope.eventId != e
  {
    i := 0;
    while i < |s|
      invariant 0 <= i <= |s|
      invariant forall j | 0 <= j < i :: s[j].envelope.eventId != e
    {
      if s[i].envelope.eventId == e { return; }
      i := i + 1;
    }
    i := -1;
  }

  method FindTerminal(d: Checkpoint, e: EventId) returns (i: int)
    ensures 0 <= i ==> TerminalAt(d, i, e)
    ensures i < 0 ==> !Terminated(d, e)
  {
    i := 0;
    while i < |d.receipts|
      invariant 0 <= i <= |d.receipts|
      invariant forall j | 0 <= j < i :: !TerminalAt(d, j, e)
    {
      if d.receipts[i].EventTerminal? && d.receipts[i].eventId == e { return; }
      i := i + 1;
    }
    i := -1;
  }

  method FindAcceptance(d: Checkpoint, e: EventId) returns (i: int)
    ensures 0 <= i ==> AcceptedAt(d, i, e)
    ensures i < 0 ==> !Accepted(d, e)
  {
    i := 0;
    while i < |d.receipts|
      invariant 0 <= i <= |d.receipts|
      invariant forall j | 0 <= j < i :: !AcceptedAt(d, j, e)
    {
      if d.receipts[i].Acceptance? && d.receipts[i].eventId == e { return; }
      i := i + 1;
    }
    i := -1;
  }

  method FindTombstone(d: Checkpoint, e: EventId) returns (t: int)
    ensures 0 <= t ==> TombstoneAt(d, t, e)
    ensures t < 0 ==> !Buried(d, e)
  {
    t := 0;
    while t < |d.tombstones|
      invariant 0 <= t <= |d.tombstones|
      invariant forall j | 0 <= j < t :: !TombstoneAt(d, j, e)
    {
      if d.tombstones[t].eventId == e { return; }
      t := t + 1;
    }
    t := -1;
  }

  /** `_pending_replay`'s search: the waiting entry of an event and the mailbox that holds it. */
  method FindWaiting(d: Checkpoint, e: EventId) returns (found: Option<(Entry, bool)>)
    ensures found.Some? ==> exists id :: d.root.Retained? && Holds(d.root.aggregate.boxes, id, found.value.1, found.value.0)
    ensures found.Some? ==> Waits(d, found.value.0) && found.value.0.envelope.eventId == e
    ensures found.None? ==> !WaitsFor(d, e)
  {
    if d.root.TombstonedRoot? { return None; }
    var boxes := d.root.aggregate.boxes;
    var ids := boxes.Keys;
    while ids != {}
      invariant ids <= boxes.Keys
      invariant forall id, late, x | id in boxes && id !in ids && Holds(boxes, id, late, x) :: x.envelope.eventId != e
      decreases ids
    {
      var id :| id in ids;
      var i := FindEntry(boxes[id].ready, e);
      if 0 <= i {
        assert Holds(boxes, id, false, boxes[id].ready[i]);
        return Some((boxes[id].ready[i], false));
      }
      i := FindEntry(boxes[id].deferred, e);
      if 0 <= i {
        assert Holds(boxes, id, true, boxes[id].deferred[i]);
        return Some((boxes[id].deferred[i], true));
      }
      ids := ids - {id};
    }
    return None;
  }

  datatype Evidence =
    | WaitingEvidence(acceptance: nat, deferred: bool)
    | TerminalEvidence(acceptanceReceipt: nat, terminal: nat)
    | PrunedEvidence(terminal: nat, disposition: TerminalDisposition)

  datatype Lookup = Missing | Conflicts | Replays(evidence: Evidence)

  /** The receipt sequence under which the event was settled, kept or pruned. */
  ghost predicate SettledUnder(d: Checkpoint, e: EventId, n: nat) {
    || (exists i :: TerminalAt(d, i, e) && d.receipts[i].sequence == n)
    || (exists t :: TombstoneAt(d, t, e) && d.tombstones[t].terminal == n)
  }

  ghost predicate Evidences(d: Checkpoint, e: EventId, ev: Evidence) {
    match ev
    case WaitingEvidence(n, late) =>
      exists id, x :: d.root.Retained? && Holds(d.root.aggregate.boxes, id, late, x)
        && x.envelope.eventId == e && x.acceptance == n
    case TerminalEvidence(n, t) =>
      && Terminated(d, e) && SettledUnder(d, e, t)
      && (forall i | AcceptedAt(d, i, e) :: d.receipts[i].sequence == n)
      && (!Accepted(d, e) ==> n == 0)
    case PrunedEvidence(t, _) => Buried(d, e) && SettledUnder(d, e, t)
  }

  /** `_pending_replay`, then `_retained_replay`: replay, conflict or new. */
  method FindReplay(d: Checkpoint, e: EventId, g: EntryDigest) returns (r: Lookup)
    requires Stored(d)
    ensures r.Missing? <==> Unknown(d, e)
    ensures r.Replays? <==> Known(d, e, g)
    ensures r.Conflicts? <==> exists g' :: g' != g && Known(d, e, g')
    ensures r.Replays? ==> Evidences(d, e, r.evidence)
  {
    forall g' | Known(d, e, g') && Known(d, e, g) ensures g' == g { KnownOnce(d, e, g, g'); }
    var found := FindWaiting(d, e);
    if found.Some? {
      var x := found.value.0;
      assert Known(d, e, x.digest);
      return if x.digest == g then Replays(WaitingEvidence(x.acceptance, found.value.1)) else Conflicts;
    }
    var i := FindTerminal(d, e);
    if 0 <= i {
      var t := d.receipts[i];
      assert Known(d, e, t.request);
      if t.request != g { return Conflicts; }
      var j := FindAcceptance(d, e);
      assert SettledUnder(d, e, t.sequence);
      return Replays(TerminalEvidence(if 0 <= j then d.receipts[j].sequence else 0, t.sequence));
    }
    var t := FindTombstone(d, e);
    if 0 <= t {
      assert Known(d, e, d.tombstones[t].request);
      assert SettledUnder(d, e, d.tombstones[t].terminal);
      return if d.tombstones[t].request == g
        then Replays(PrunedEvidence(d.tombstones[t].terminal, d.tombstones[t].disposition)) else Conflicts;
    }
    return Missing;
  }

  // ---------------------------------------------------------------- listing mailboxes

  ghost predicate ListsSome(a: Aggregate, ids: seq<RuntimeId>, entries: seq<Entry>) {
    && (forall x :: x in entries <==> exists id, late :: id in ids && Holds(a.boxes, id, late, x))
    && (forall i, j | 0 <= i < j < |entries| :: entries[i] != entries[j])
  }

  /** All waiting entries, runtime by runtime, ready mail before deferred mail. */
  method ListEntries(a: Aggregate, order: seq<RuntimeId>) returns (entries: seq<Entry>)
    requires AggregateOk(a) && Permutes(order, a.boxes.Keys)
    ensures Lists(a, entries)
  {
    entries := [];
    for k := 0 to |order|
      invariant ListsSome(a, order[..k], entries)
    {
      var box := a.boxes[order[k]];
      ListBox(a, order, k, entries);
      entries := entries + (box.ready + box.deferred);
    }
    assert order[..|order|] == order;
    forall x
      ensures x in entries <==> Pending(a, x)
    {
      if id, late :| Holds(a.boxes, id, late, x) { assert id in order; }
    }
  }

  lemma ListBox(a: Aggregate, order: seq<RuntimeId>, k: nat, entries: seq<Entry>)
    requires AggregateOk(a) && Permutes(order, a.boxes.Keys) && k < |order|
    requires ListsSome(a, order[..k], entries)
    ensures ListsSome(a, order[..k + 1], entries + (a.boxes[order[k]].ready + a.boxes[order[k]].deferred))
  {
    var id := order[k];
    var box := a.boxes[id].ready + a.boxes[id].deferred;
    var n := |a.boxes[id].ready|;
    assert order[..k + 1] == order[..k] + [id];
    forall i | 0 <= i < |box|
      ensures Holds(a.boxes, id, n <= i, box[i])
    {}
    forall x
      ensures x in box <==> exists late :: Holds(a.boxes, id, late, x)
    {
      if late :| Holds(a.boxes, id, late, x) { assert x in box; }
    }
    forall i, j | 0 <= i < j < |box|
      ensures box[i] != box[j]
    {
      assert Holds(a.boxes, id, n <= i, box[i]) && Holds(a.boxes, id, n <= j, box[j]);
      assert (n <= i) == (n <= j) ==> box[i].queue < box[j].queue;
    }
    forall x, y | x in entries && y in box
      ensures x != y
    {
      var id', late :| id' in order[..k] && Holds(a.boxes, id', late, x);
      var late' :| Holds(a.boxes, id, late', y);
      assert id' != id;
    }
    ListedBoth(a, order, k, entries, box);
    var all := entries + box;
    forall i, j | 0 <= i < j < |all|
      ensures all[i] != all[j]
    {
      if i < |entries| <= j { assert all[i] in entries && all[j] in box; }
    }
  }

  lemma ListedBoth(a: Aggregate, order: seq<RuntimeId>, k: nat, entries: seq<Entry>, box: seq<Entry>)
    requires k < |order| && ListsSome(a, order[..k], entries)
    requires forall x :: x in box <==> exists late :: Holds(a.boxes, order[k], late, x)
    ensures forall x :: x in entries + box <==> exists id, late :: id in order[..k + 1] && Holds(a.boxes, id, late, x)
  {
    assert order[..k + 1] == order[..k] + [order[k]];
    forall x
      ensures x in entries + box <==> exists id, late :: id in order[..k + 1] && Holds(a.boxes, id, late, x)
    {
      if id, late :| id in order[..k + 1] && Holds(a.boxes, id, late, x) {
        assert id in order[..k] || id == order[k];
      }
      if x in entries {
        var id, late :| id in order[..k] && Holds(a.boxes, id, late, x);
        assert id in order[..k + 1];
      }
      if x in box {
        var late :| Holds(a.boxes, order[k], late, x);
        assert order[k] in order[..k + 1];
      }
    }
  }
}
