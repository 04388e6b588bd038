/** Settling events: the part of `checkpoint_v1.py` and `host.py` shared by a committed step
    and by tombstoning a root. Terminal receipts are appended, the mailbox references that
    produced the settled events become terminal references, and the remaining ones follow
    their entries to new queue sequences. The whole relation survives it. */
module CheckpointSettlement {
  import opened Options
  import opened Queueing
  import opened CheckpointV1

  datatype Settlement = Settlement(
    eventId: EventId, request: EntryDigest, acceptance: nat, finalQueue: nat,
    disposition: TerminalDisposition, references: seq<Reference>)

  type Locations = map<(EventId, nat), nat>

  // ---------------------------------------------------------------- functional description

  function TerminalizeRef(ref: Reference, s: Settlement, terminal: nat): Reference {
    if ref.InternalMailbox? && ref.eventId == s.eventId && ref.acceptance == s.acceptance then
      InternalTerminal(ref.index, ref.eventId, ref.acceptance, terminal)
    else ref
  }

  /** The passes of `_terminalize_mailbox_reference`, one per settlement, in order. */
  function SettleRef(ref: Reference, ss: seq<Settlement>, first: nat): Reference {
    if ss == [] then ref
    else
      var n := |ss| - 1;
      TerminalizeRef(SettleRef(ref, ss[..n], first), ss[n], first + n)
  }

  function SyncRef(ref: Reference, locations: Locations): Reference {
    if ref.InternalMailbox? && (ref.eventId, ref.acceptance) in locations then
      ref.(queue := locations[(ref.eventId, ref.acceptance)])
    else ref
  }

  function WithReferences(r: Receipt, references: seq<Reference>): Receipt {
    match r
    case Creation(n, c, v, g, _) => Creation(n, c, v, g, references)
    case Acceptance(_, _, _, _, _, _) => r
    case EventTerminal(n, e, q, a, f, v, g, o, _) => EventTerminal(n, e, q, a, f, v, g, o, references)
  }

  function MapReferences(r: Receipt, f: Reference -> Reference): Receipt {
    var refs := References(r);
    WithReferences(r, seq(|refs|, k requires 0 <= k < |refs| => f(refs[k])))
  }

  function MapReceipts(rs: seq<Receipt>, f: Reference -> Reference): seq<Receipt> {
    seq(|rs|, i requires 0 <= i < |rs| => MapReferences(rs[i], f))
  }

  function TerminalReceipt(s: Settlement, sequence: nat, revision: nat, digest: AggregateDigest): Receipt {
    EventTerminal(sequence, s.eventId, s.request, s.acceptance, s.finalQueue, revision, digest, s.disposition, s.references)
  }

  function TerminalReceipts(ss: seq<Settlement>, first: nat, revision: nat, digest: AggregateDigest): seq<Receipt> {
    seq(|ss|, m requires 0 <= m < |ss| => TerminalReceipt(ss[m], first + m, revision, digest))
  }

  function SettledReceipts(rs: seq<Receipt>, ss: seq<Settlement>, first: nat, revision: nat, digest: AggregateDigest,
                           locations: Locations): seq<Receipt>
  {
    MapReceipts(MapReceipts(rs, ref => SettleRef(ref, ss, first)) + TerminalReceipts(ss, first, revision, digest),
                ref => SyncRef(ref, locations))
  }

  function EntriesOf(a: Aggregate): set<Entry> {
    set id, x | id in a.boxes && x in a.boxes[id].ready + a.boxes[id].deferred :: x
  }

  lemma EntriesExact(a: Aggregate, x: Entry)
    ensures x in EntriesOf(a) <==> Pending(a, x)
  {
    if x in EntriesOf(a) {
      var id :| id in a.boxes && x in a.boxes[id].ready + a.boxes[id].deferred;
      assert Holds(a.boxes, id, false, x) || Holds(a.boxes, id, true, x);
    }
    if Pending(a, x) {
      var id, late :| Holds(a.boxes, id, late, x);
      assert x in a.boxes[id].ready + a.boxes[id].deferred;
    }
  }

  lemma SameEntry(a: Aggregate, x: Entry, y: Entry)
    requires AggregateOk(a) && Pending(a, x) && Pending(a, y) && SameKey(x, y)
    ensures x == y
  {
    var id, late :| Holds(a.boxes, id, late, x);
    var id', late' :| Holds(a.boxes, id', late', y);
  }

  lemma OtherEntry(a: Aggregate, x: Entry, y: Entry)
    requires AggregateOk(a) && Pending(a, x) && Pending(a, y) && x != y
    ensures !SameKey(x, y)
  {
    var id, late :| Holds(a.boxes, id, late, x);
    var id', late' :| Holds(a.boxes, id', late', y);
  }

  function KeyOf(x: Entry): (EventId, nat) { (x.envelope.eventId, x.acceptance) }

  function QueueOf(a: Aggregate, k: (EventId, nat)): (queue: nat)
    requires AggregateOk(a) && exists x :: Pending(a, x) && KeyOf(x) == k
    ensures forall x | Pending(a, x) && KeyOf(x) == k :: queue == x.queue
  {
    assert forall x :: x in EntriesOf(a) <==> Pending(a, x) by {
      forall x ensures x in EntriesOf(a) <==> Pending(a, x) { EntriesExact(a, x); }
    }
    assert forall x, y | Pending(a, x) && Pending(a, y) && KeyOf(x) == k && KeyOf(y) == k :: x == y by {
      forall x, y | Pending(a, x) && Pending(a, y) && KeyOf(x) == k && KeyOf(y) == k ensures x == y {
        SameEntry(a, x, y);
      }
    }
    var x :| x in EntriesOf(a) && KeyOf(x) == k;
    x.queue
  }

  function KeysOf(a: Aggregate): (keys: set<(EventId, nat)>)
    ensures forall k :: k in keys <==> exists x :: Pending(a, x) && KeyOf(x) == k
  {
    assert forall x :: x in EntriesOf(a) <==> Pending(a, x) by {
      forall x ensures x in EntriesOf(a) <==> Pending(a, x) { EntriesExact(a, x); }
    }
    set x | x in EntriesOf(a) :: KeyOf(x)
  }

  /** Where each waiting entry is queued: the dictionary built by `_synchronize_mailbox_references`. */
  function EntryLocations(a: Aggregate): (locations: Locations)
    requires AggregateOk(a)
    ensures forall x | Pending(a, x) :: KeyOf(x) in locations && locations[KeyOf(x)] == x.queue
    ensures forall k | k in locations :: exists x :: Pending(a, x) && KeyOf(x) == k
  {
    map k | k in KeysOf(a) :: QueueOf(a, k)
  }

  function LocationsOf(root: Root): Locations
    requires root.Retained? ==> AggregateOk(root.aggregate)
  {
    if root.Retained? then EntryLocations(root.aggregate) else map[]
  }

  function Settled(d: Checkpoint, root: Root, ss: seq<Settlement>, digest: AggregateDigest, outbox: seq<PendingIntent>): Checkpoint
    requires root.Retained? ==> AggregateOk(root.aggregate)
  {
    d.(revision := d.revision + 1, root := root, nextReceipt := d.nextReceipt + |ss|,
       receipts := SettledReceipts(d.receipts, ss, d.nextReceipt, d.revision + 1, digest, LocationsOf(root)),
       pendingOutbox := d.pendingOutbox + outbox)
  }

  // ---------------------------------------------------------------- what a settlement may do

  /** Event ids the document has ever mentioned. */
  ghost predicate Mentions(d: Checkpoint, e: EventId) {
    || WaitsFor(d, e) || Accepted(d, e) || Terminated(d, e) || Buried(d, e)
    || HasMailboxRef(d, e) || HasTerminalRef(d, e)
  }

  ghost predicate SettlesOld(d: Checkpoint, s: Settlement, y: Entry) {
    && Waits(d, y)
    && s.eventId == y.envelope.eventId && s.request == y.digest
    && s.acceptance == y.acceptance && s.finalQueue == y.queue
  }

  /** An event emitted and disposed by the very step whose receipt is `ss[0]`. */
  ghost predicate SettlesNew(d: Checkpoint, ss: seq<Settlement>, m: int)
    requires d.root.Retained?
  {
    && 0 < m < |ss|
    && !Mentions(d, ss[m].eventId)
    && ss[m].acceptance >= d.root.aggregate.nextAcceptance
    && ss[m].finalQueue >= d.root.aggregate.nextQueue
    && exists k :: 0 <= k < |ss[0].references| && TerminalRefFor(ss[0].references[k], ss[m].eventId)
  }

  /** `x` is the entry `y`, possibly under a queue sequence that was free before. */
  ghost predicate Follows(y: Entry, x: Entry, nextQueue: nat) {
    x == y.(queue := x.queue, deferrals := x.deferrals) && (x.queue == y.queue || nextQueue <= x.queue)
  }

  ghost predicate Survives(d: Checkpoint, ss: seq<Settlement>, x: Entry)
    requires d.root.Retained?
  {
    exists y :: Waits(d, y) && Follows(y, x, d.root.aggregate.nextQueue)
      && forall m | 0 <= m < |ss| :: ss[m].eventId != y.envelope.eventId
  }

  /** Mail that the step itself put into a mailbox. */
  ghost predicate Arrives(d: Checkpoint, ss: seq<Settlement>, x: Entry)
    requires d.root.Retained?
  {
    && !Mentions(d, x.envelope.eventId)
    && x.envelope.source != Host
    && x.acceptance >= d.root.aggregate.nextAcceptance && x.queue >= d.root.aggregate.nextQueue
    && |ss| > 0
    && exists k :: 0 <= k < |ss[0].references| && MailboxRefFor(ss[0].references[k], x.envelope.eventId)
  }

  ghost predicate WaitsIn(root: Root, x: Entry) {
    root.Retained? && Pending(root.aggregate, x)
  }

  ghost predicate ReferenceOk(d: Checkpoint, root: Root, ss: seq<Settlement>, ref: Reference)
    requires d.root.Retained?
  {
    match ref
    case InternalMailbox(_, e, n, q) =>
      && !Mentions(d, e)
      && exists x :: WaitsIn(root, x) && x.envelope.eventId == e && x.acceptance == n && x.queue == q
    case InternalTerminal(_, e, n, t) =>
      && !Mentions(d, e)
      && exists m :: SettlesNew(d, ss, m) && ss[m].eventId == e && ss[m].acceptance == n && t == d.nextReceipt + m
    case ExternalOutbox(_, f) => !EffectReferenced(d, f)
  }

  ghost predicate SettlementsOk(d: Checkpoint, root: Root, ss: seq<Settlement>)
    requires d.root.Retained?
  {
    && (forall m, n | 0 <= m < n < |ss| :: ss[m].eventId != ss[n].eventId && ss[m].finalQueue != ss[n].finalQueue)
    && (forall m | 0 <= m < |ss| :: SettlesNew(d, ss, m) || exists y :: SettlesOld(d, ss[m], y))
    && (forall m | 1 <= m < |ss| :: ss[m].references == [])
    && (forall m, x | 0 <= m < |ss| && WaitsIn(root, x) ::
          ss[m].eventId != x.envelope.eventId && ss[m].finalQueue != x.queue)
    && (|ss| > 0 ==>
          && (forall k | 0 <= k < |ss[0].references| :: ReferenceOk(d, root, ss, ss[0].references[k]))
          && (forall k, l | 0 <= k < l < |ss[0].references| :: !SameSubject(ss[0].references[k], ss[0].references[l])))
    && (forall m, n | 0 <= m < |ss| && 0 <= n < |ss| && ss[m].acceptance == ss[n].acceptance :: m == n)
  }

  ghost predicate MailMoves(d: Checkpoint, root: Root, ss: seq<Settlement>)
    requires d.root.Retained?
  {
    && (forall x | WaitsIn(root, x) :: Survives(d, ss, x) || Arrives(d, ss, x))
    && (forall y | Waits(d, y) ::
          || (exists m :: 0 <= m < |ss| && SettlesOld(d, ss[m], y))
          || (exists x :: WaitsIn(root, x) && Follows(y, x, d.root.aggregate.nextQueue)))
    && (forall m, x | 0 <= m < |ss| && WaitsIn(root, x) :: ss[m].acceptance != x.acceptance)
    && (root.Retained? ==>
          && AggregateOk(root.aggregate)
          && root.aggregate.root == d.root.aggregate.root && root.aggregate.creationId == d.root.aggregate.creationId
          && d.root.aggregate.nextAcceptance <= root.aggregate.nextAcceptance
          && d.root.aggregate.nextQueue <= root.aggregate.nextQueue
          && forall m | 0 <= m < |ss| ::
               ss[m].acceptance < root.aggregate.nextAcceptance && ss[m].finalQueue < root.aggregate.nextQueue)
    && (root.TombstonedRoot? ==> root.creationId == d.root.aggregate.creationId)
  }

  /** The step's own receipt has reference `k` to outbox effect `f`. */
  predicate MatchesOutbox(ss: seq<Settlement>, k: int, f: string) {
    && |ss| > 0 && 0 <= k < |ss[0].references|
    && ss[0].references[k].ExternalOutbox? && ss[0].references[k].effectId == f
  }

  predicate Intended(outbox: seq<PendingIntent>, p: int, f: string) {
    0 <= p < |outbox| && outbox[p].effectId == f
  }

  ghost predicate OutboxMatches(ss: seq<Settlement>, outbox: seq<PendingIntent>) {
    && (forall p, q, f | Intended(outbox, p, f) && Intended(outbox, q, f) :: p == q)
    && (forall p, f | Intended(outbox, p, f) :: exists k :: MatchesOutbox(ss, k, f))
    && (forall k, f | MatchesOutbox(ss, k, f) :: exists p :: Intended(outbox, p, f))
  }

  /** One settlement step from a stored document to the next root record. */
  ghost predicate Settles(d: Checkpoint, root: Root, ss: seq<Settlement>, digest: AggregateDigest, outbox: seq<PendingIntent>) {
    && Stored(d) && d.root.Retained?
    && SettlementsOk(d, root, ss)
    && MailMoves(d, root, ss)
    && OutboxMatches(ss, outbox)
    && digest == match root { case Retained(a) => AggregateDigest(a) case TombstonedRoot(_, _, _, f, _) => f }
  }

  // ---------------------------------------------------------------- shape of the next document

  ghost predicate SameHead(r: Receipt, r': Receipt) {
    r' == WithReferences(r, References(r'))
  }

  ghost predicate TurnsTerminal(d: Checkpoint, ss: seq<Settlement>, r: Reference, r': Reference, m: int)
    requires r.InternalMailbox?
  {
    && 0 <= m < |ss| && ss[m].eventId == r.eventId && ss[m].acceptance == r.acceptance
    && r' == InternalTerminal(r.index, r.eventId, r.acceptance, d.nextReceipt + m)
  }

  /** What becomes of a reference that was already there. */
  ghost predicate RefMoved(d: Checkpoint, root: Root, ss: seq<Settlement>, r: Reference, r': Reference) {
    if r.InternalMailbox? then
      || (exists m :: TurnsTerminal(d, ss, r, r', m))
      || (&& (forall m | 0 <= m < |ss| :: ss[m].eventId != r.eventId)
          && r'.InternalMailbox? && r' == r.(queue := r'.queue)
          && (forall x | WaitsIn(root, x) && x.envelope.eventId == r.eventId ::
                r'.queue == x.queue && r'.acceptance == x.acceptance))
    else r' == r
  }

  ghost predicate OldShape(d: Checkpoint, root: Root, ss: seq<Settlement>, receipts: seq<Receipt>, i: int)
    requires |d.receipts| <= |receipts|
  {
    0 <= i < |d.receipts| ==>
      && SameHead(d.receipts[i], receipts[i])
      && |References(receipts[i])| == |References(d.receipts[i])|
      && forall k | 0 <= k < |References(d.receipts[i])| ::
           RefMoved(d, root, ss, References(d.receipts[i])[k], References(receipts[i])[k])
  }

  ghost predicate NewShape(d: Checkpoint, ss: seq<Settlement>, digest: AggregateDigest, receipts: seq<Receipt>, m: int)
    requires |receipts| == |d.receipts| + |ss|
  {
    0 <= m < |ss| ==>
      receipts[|d.receipts| + m] == TerminalReceipt(ss[m], d.nextReceipt + m, d.revision + 1, digest)
  }

  ghost predicate Shaped(d: Checkpoint, root: Root, ss: seq<Settlement>, digest: AggregateDigest,
                         outbox: seq<PendingIntent>, d': Checkpoint)
  {
    && d' == d.(revision := d.revision + 1, root := root, nextReceipt := d.nextReceipt + |ss|,
                receipts := d'.receipts, pendingOutbox := d.pendingOutbox + outbox)
    && |d'.receipts| == |d.receipts| + |ss|
    && (forall i :: OldShape(d, root, ss, d'.receipts, i))
    && (forall m :: NewShape(d, ss, digest, d'.receipts, m))
  }

  lemma {:induction false} SettleRefExact(ref: Reference, ss: seq<Settlement>, first: nat)
    requires forall m, n | 0 <= m < n < |ss| :: ss[m].eventId != ss[n].eventId
    ensures !ref.InternalMailbox? ==> SettleRef(ref, ss, first) == ref
    ensures ref.InternalMailbox? ==>
      (forall m | 0 <= m < |ss| && ss[m].eventId == ref.eventId && ss[m].acceptance == ref.acceptance ::
         SettleRef(ref, ss, first) == InternalTerminal(ref.index, ref.eventId, ref.acceptance, first + m))
    ensures ref.InternalMailbox? && (forall m | 0 <= m < |ss| :: ss[m].eventId != ref.eventId || ss[m].acceptance != ref.acceptance) ==>
      SettleRef(ref, ss, first) == ref
  {
    if ss != [] {
      var p := ss[..|ss| - 1];
      SettleRefExact(ref, p, first);
      assert forall m | 0 <= m < |p| :: p[m] == ss[m];
    }
  }

  /** A produced event that is still waiting has the sequences its reference says. */
  lemma MailboxRefOfWaiting(d: Checkpoint, i: int, k: int, ref: Reference, y: Entry)
    requires PendingAccounted(d) && Waits(d, y)
    requires RefAt(d, i, k, ref) && MailboxRefFor(ref, y.envelope.eventId)
    ensures ref.acceptance == y.acceptance && ref.queue == y.queue
  {}

  /** What a settlement needs from the stored document. */
  ghost predicate Settling(d: Checkpoint, root: Root, ss: seq<Settlement>) {
    d.root.Retained? && PendingAccounted(d) && SettlementsOk(d, root, ss) && MailMoves(d, root, ss)
  }

  lemma SettledRefMoves(d: Checkpoint, root: Root, ss: seq<Settlement>, i: int, k: int, ref: Reference, m: int)
    requires d.root.Retained? && PendingAccounted(d) && SettlementsOk(d, root, ss)
    requires RefAt(d, i, k, ref) && ref.InternalMailbox? && 0 <= m < |ss| && ss[m].eventId == ref.eventId
    ensures TurnsTerminal(d, ss, ref, SettleRef(ref, ss, d.nextReceipt), m)
  {
    SettleRefExact(ref, ss, d.nextReceipt);
    assert MailboxRefFor(ref, ref.eventId) && HasMailboxRef(d, ref.eventId) && Mentions(d, ref.eventId);
    assert !SettlesNew(d, ss, m);
    var y :| SettlesOld(d, ss[m], y);
    MailboxRefOfWaiting(d, i, k, ref, y);
  }

  lemma WaitingRefMoves(d: Checkpoint, root: Root, ss: seq<Settlement>, i: int, k: int, ref: Reference, x: Entry)
    requires d.root.Retained? && PendingAccounted(d) && MailMoves(d, root, ss)
    requires RefAt(d, i, k, ref) && ref.InternalMailbox? && WaitsIn(root, x) && x.envelope.eventId == ref.eventId
    ensures SyncRef(ref, LocationsOf(root)).queue == x.queue && ref.acceptance == x.acceptance
  {
    assert MailboxRefFor(ref, ref.eventId) && HasMailboxRef(d, ref.eventId) && Mentions(d, ref.eventId);
    assert !Arrives(d, ss, x);
    var y :| Waits(d, y) && Follows(y, x, d.root.aggregate.nextQueue);
    MailboxRefOfWaiting(d, i, k, ref, y);
    assert KeyOf(x) == (ref.eventId, ref.acceptance);
  }

  lemma MovedRef(d: Checkpoint, root: Root, ss: seq<Settlement>, i: int, k: int, ref: Reference)
    requires Settling(d, root, ss) && RefAt(d, i, k, ref)
    ensures RefMoved(d, root, ss, ref, SyncRef(SettleRef(ref, ss, d.nextReceipt), LocationsOf(root)))
  {
    hide PendingAccounted, RefAt, Mentions, SettlesNew, SettlesOld, LocationsOf;
    SettleRefExact(ref, ss, d.nextReceipt);
    if ref.InternalMailbox? {
      if m :| 0 <= m < |ss| && ss[m].eventId == ref.eventId {
        SettledRefMoves(d, root, ss, i, k, ref, m);
      } else {
        forall x | WaitsIn(root, x) && x.envelope.eventId == ref.eventId
          ensures SyncRef(ref, LocationsOf(root)).queue == x.queue && ref.acceptance == x.acceptance
        {
          WaitingRefMoves(d, root, ss, i, k, ref, x);
        }
      }
    }
  }

  lemma FreshRef(d: Checkpoint, root: Root, ss: seq<Settlement>, k: nat)
    requires d.root.Retained? && SettlementsOk(d, root, ss) && MailMoves(d, root, ss)
    requires |ss| > 0 && k < |ss[0].references|
    ensures SyncRef(ss[0].references[k], LocationsOf(root)) == ss[0].references[k]
  {
    var ref := ss[0].references[k];
    assert ReferenceOk(d, root, ss, ref);
    if ref.InternalMailbox? {
      var x :| WaitsIn(root, x) && x.envelope.eventId == ref.eventId && x.acceptance == ref.acceptance && x.queue == ref.queue;
      assert KeyOf(x) == (ref.eventId, ref.acceptance);
    }
  }

  lemma SettledAt(rs: seq<Receipt>, ss: seq<Settlement>, first: nat, revision: nat, digest: AggregateDigest,
                  locations: Locations, i: nat)
    requires i < |rs| + |ss|
    ensures
      var r := SettledReceipts(rs, ss, first, revision, digest, locations)[i];
      if i < |rs| then
        && SameHead(rs[i], r)
        && |References(r)| == |References(rs[i])|
        && forall k | 0 <= k < |References(r)| ::
             References(r)[k] == SyncRef(SettleRef(References(rs[i])[k], ss, first), locations)
      else
        && r == WithReferences(TerminalReceipt(ss[i - |rs|], first + i - |rs|, revision, digest), References(r))
        && |References(r)| == |ss[i - |rs|].references|
        && forall k | 0 <= k < |References(r)| :: References(r)[k] == SyncRef(ss[i - |rs|].references[k], locations)
  {
    var settle := ref => SettleRef(ref, ss, first);
    var sync := ref => SyncRef(ref, locations);
    var mid := MapReceipts(rs, settle) + TerminalReceipts(ss, first, revision, digest);
    assert SettledReceipts(rs, ss, first, revision, digest, locations)[i] == MapReferences(mid[i], sync);
    if i < |rs| {
      assert mid[i] == MapReferences(rs[i], settle);
    } else {
      assert mid[i] == TerminalReceipt(ss[i - |rs|], first + i - |rs|, revision, digest);
    }
  }

  lemma OldReceiptAt(d: Checkpoint, root: Root, ss: seq<Settlement>, digest: AggregateDigest,
                     receipts: seq<Receipt>, i: int)
    requires Settling(d, root, ss)
    requires receipts == SettledReceipts(d.receipts, ss, d.nextReceipt, d.revision + 1, digest, LocationsOf(root))
    ensures |receipts| == |d.receipts| + |ss|
    ensures OldShape(d, root, ss, receipts, i)
  {
    if 0 <= i < |d.receipts| {
      SettledAt(d.receipts, ss, d.nextReceipt, d.revision + 1, digest, LocationsOf(root), i);
      forall k | 0 <= k < |References(d.receipts[i])|
        ensures RefMoved(d, root, ss, References(d.receipts[i])[k],
                         SyncRef(SettleRef(References(d.receipts[i])[k], ss, d.nextReceipt), LocationsOf(root)))
      {
        MovedRef(d, root, ss, i, k, References(d.receipts[i])[k]);
      }
    }
  }

  lemma NewReceiptAt(d: Checkpoint, root: Root, ss: seq<Settlement>, digest: AggregateDigest,
                     receipts: seq<Receipt>, m: int)
    requires d.root.Retained? && SettlementsOk(d, root, ss) && MailMoves(d, root, ss)
    requires receipts == SettledReceipts(d.receipts, ss, d.nextReceipt, d.revision + 1, digest, LocationsOf(root))
    requires |receipts| == |d.receipts| + |ss|
    ensures NewShape(d, ss, digest, receipts, m)
  {
    if 0 <= m < |ss| {
      hide SettlementsOk, MailMoves, SettledReceipts, LocationsOf;
      SettledAt(d.receipts, ss, d.nextReceipt, d.revision + 1, digest, LocationsOf(root), |d.receipts| + m);
      FreshRefs(d, root, ss, m);
      NewReceiptExact(d.receipts, ss, d.nextReceipt, d.revision + 1, digest, LocationsOf(root), m);
    }
  }

  lemma NewReceiptExact(rs: seq<Receipt>, ss: seq<Settlement>, first: nat, revision: nat, digest: AggregateDigest,
                        locations: Locations, m: nat)
    requires m < |ss|
    requires forall k | 0 <= k < |ss[m].references| :: SyncRef(ss[m].references[k], locations) == ss[m].references[k]
    ensures SettledReceipts(rs, ss, first, revision, digest, locations)[|rs| + m]
         == TerminalReceipt(ss[m], first + m, revision, digest)
  {
    SettledAt(rs, ss, first, revision, digest, locations, |rs| + m);
    var r := SettledReceipts(rs, ss, first, revision, digest, locations)[|rs| + m];
    assert References(r) == ss[m].references;
  }

  lemma FreshRefs(d: Checkpoint, root: Root, ss: seq<Settlement>, m: nat)
    requires d.root.Retained? && SettlementsOk(d, root, ss) && MailMoves(d, root, ss)
    requires m < |ss|
    ensures forall k | 0 <= k < |ss[m].references| ::
      SyncRef(ss[m].references[k], LocationsOf(root)) == ss[m].references[k]
  {
    forall k | 0 <= k < |ss[m].references|
      ensures SyncRef(ss[m].references[k], LocationsOf(root)) == ss[m].references[k]
    {
      assert m == 0;
      FreshRef(d, root, ss, k);
    }
  }

  lemma SettledShape(d: Checkpoint, root: Root, ss: seq<Settlement>, digest: AggregateDigest, outbox: seq<PendingIntent>)
    requires Settling(d, root, ss)
    ensures Shaped(d, root, ss, digest, outbox, Settled(d, root, ss, digest, outbox))
  {
    hide SettlementsOk, PendingAccounted, OldShape, NewShape, LocationsOf, SettledReceipts, AggregateOk;
    var receipts := SettledReceipts(d.receipts, ss, d.nextReceipt, d.revision + 1, digest, LocationsOf(root));
    OldReceiptAt(d, root, ss, digest, receipts, 0);
    forall i
      ensures OldShape(d, root, ss, receipts, i)
    {
      OldReceiptAt(d, root, ss, digest, receipts, i);
    }
    forall m
      ensures NewShape(d, ss, digest, receipts, m)
    {
      NewReceiptAt(d, root, ss, digest, receipts, m);
    }
  }
}
