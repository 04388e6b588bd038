/** Outbox records (`update_pending_outbox`, `terminalize_outbox`, `compact_outbox` in `host.py`):
    an effect moves from pending to terminal to tombstone and is never lost or duplicated. */
module CheckpointOutbox {
  import opened Options
  import opened Queueing
  import opened CheckpointV1
  import opened CheckpointAdmission

  function Removed<T>(s: seq<T>, i: nat): seq<T>
    requires i < |s|
  {
    s[..i] + s[i + 1..]
  }

  function UpdatedDocument(d: Checkpoint, i: nat, delivery: string): Checkpoint
    requires i < |d.pendingOutbox|
  {
    d.(revision := d.revision + 1,
       pendingOutbox := d.pendingOutbox[i := PendingIntent(d.pendingOutbox[i].effectId, d.revision + 1, delivery)])
  }

  function TerminalizedDocument(d: Checkpoint, i: nat, outcome: string): Checkpoint
    requires i < |d.pendingOutbox|
  {
    d.(revision := d.revision + 1, nextTerminal := d.nextTerminal + 1,
       pendingOutbox := Removed(d.pendingOutbox, i),
       terminalOutbox := d.terminalOutbox
         + [TerminalIntent(d.nextTerminal, d.pendingOutbox[i].effectId, d.revision + 1, outcome)])
  }

  /** The tombstone list is sorted again after each append: a new one is inserted in order. */
  function Inserted(s: seq<TerminalIntent>, x: TerminalIntent): seq<TerminalIntent> {
    if s == [] || s[|s| - 1].sequence < x.sequence then s + [x]
    else Inserted(s[..|s| - 1], x) + [s[|s| - 1]]
  }

  function CompactedDocument(d: Checkpoint, i: nat): Checkpoint
    requires i < |d.terminalOutbox|
  {
    d.(revision := d.revision + 1, terminalOutbox := Removed(d.terminalOutbox, i),
       outboxTombstones := Inserted(d.outboxTombstones, d.terminalOutbox[i]))
  }

  ghost predicate AscendingTerminals(s: seq<TerminalIntent>) {
    forall i, j | 0 <= i < j < |s| :: s[i].sequence < s[j].sequence
  }

  lemma {:induction false} InsertedSorted(s: seq<TerminalIntent>, x: TerminalIntent)
    requires AscendingTerminals(s) && forall i | 0 <= i < |s| :: s[i].sequence != x.sequence
    ensures AscendingTerminals(Inserted(s, x))
    ensures forall y :: y in Inserted(s, x) <==> y in s || y == x
  {
    if s != [] && x.sequence < s[|s| - 1].sequence {
      var front, last := s[..|s| - 1], s[|s| - 1];
      InsertedSorted(front, x);
      assert s == front + [last];
      forall k | 0 <= k < |Inserted(front, x)|
        ensures Inserted(front, x)[k].sequence < last.sequence
      {
        assert Inserted(front, x)[k] in Inserted(front, x);
      }
    }
  }

  /** Everything but the outbox is as before, under the next revision. */
  ghost predicate OnlyOutbox(d: Checkpoint, d': Checkpoint) {
    d' == d.(revision := d.revision + 1, pendingOutbox := d'.pendingOutbox, nextTerminal := d'.nextTerminal,
             terminalOutbox := d'.terminalOutbox, outboxTombstones := d'.outboxTombstones)
  }

  lemma OutboxViews(d: Checkpoint, d': Checkpoint)
    requires OnlyOutbox(d, d')
    ensures forall i, e :: AcceptedAt(d', i, e) <==> AcceptedAt(d, i, e)
    ensures forall i, e :: TerminalAt(d', i, e) <==> TerminalAt(d, i, e)
    ensures forall i, e :: TombstoneAt(d', i, e) <==> TombstoneAt(d, i, e)
    ensures forall i, k, ref :: RefAt(d', i, k, ref) <==> RefAt(d, i, k, ref)
    ensures forall x :: Waits(d', x) <==> Waits(d, x)
  {}

  lemma OutboxKeeps(d: Checkpoint, d': Checkpoint)
    requires Stored(d) && OnlyOutbox(d, d')
    requires EffectsAccounted(d') && TerminalSequencesOk(d')
    ensures Stored(d')
  {
    hide EffectsAccounted, TerminalSequencesOk, AggregateOk, AcceptedAt, TerminalAt, TombstoneAt, RefAt, Waits;
    OutboxViews(d, d');
    OutboxKeepsMail(d, d');
    OutboxKeepsTerminals(d, d');
  }

  lemma OutboxKeepsMail(d: Checkpoint, d': Checkpoint)
    requires OnlyOutbox(d, d') && PendingAccounted(d) && PendingNotTerminal(d) && AcceptancesSettled(d) && MailboxRefsWait(d)
    ensures PendingAccounted(d') && PendingNotTerminal(d') && AcceptancesSettled(d') && MailboxRefsWait(d')
  {
    assert forall i, e :: AcceptedAt(d', i, e) <==> AcceptedAt(d, i, e);
    assert forall i, e :: TerminalAt(d', i, e) <==> TerminalAt(d, i, e);
    assert forall i, k, ref :: RefAt(d', i, k, ref) <==> RefAt(d, i, k, ref);
    assert forall x :: Waits(d', x) <==> Waits(d, x);
    assert forall e :: HasMailboxRef(d', e) <==> HasMailboxRef(d, e);
    assert forall e :: Accepted(d', e) <==> Accepted(d, e);
    assert forall e :: Terminated(d', e) <==> Terminated(d, e);
    assert forall e :: WaitsFor(d', e) <==> WaitsFor(d, e);
  }

  lemma OutboxKeepsTerminals(d: Checkpoint, d': Checkpoint)
    requires OnlyOutbox(d, d') && TerminalsAccounted(d) && TombstonesOk(d) && TerminalRefsBacked(d)
    requires AcceptanceOwners(d) && AllocationBounded(d)
    ensures TerminalsAccounted(d') && TombstonesOk(d') && TerminalRefsBacked(d')
    ensures AcceptanceOwners(d') && AllocationBounded(d')
  {
    assert forall i, e :: AcceptedAt(d', i, e) <==> AcceptedAt(d, i, e);
    assert forall i, e :: TerminalAt(d', i, e) <==> TerminalAt(d, i, e);
    assert forall i, e :: TombstoneAt(d', i, e) <==> TombstoneAt(d, i, e);
    assert forall i, k, ref :: RefAt(d', i, k, ref) <==> RefAt(d, i, k, ref);
    assert forall x :: Waits(d', x) <==> Waits(d, x);
    assert forall e :: HasTerminalRef(d', e) <==> HasTerminalRef(d, e);
    assert forall e :: Accepted(d', e) <==> Accepted(d, e);
    assert forall e :: Terminated(d', e) <==> Terminated(d, e);
    assert forall e :: WaitsFor(d', e) <==> WaitsFor(d, e);
    assert forall e, n :: Owns(d', e, n) <==> Owns(d, e, n);
  }

  // ---------------------------------------------------------------- the three moves

  /** One effect's record moved between lists; every other record stayed where it was. */
  lemma RemovedIndex<T>(s: seq<T>, i: nat, j: int)
    requires i < |s|
    ensures 0 <= j < |s| - 1 ==> Removed(s, i)[j] == s[if j < i then j else j + 1]
    ensures 0 <= j < |s| && j != i ==> Removed(s, i)[if j < i then j else j - 1] == s[j]
  {}

  lemma SameEffects(d: Checkpoint, d': Checkpoint, f: string)
    requires OnlyOutbox(d, d') && (EffectReferenced(d, f) <==> EffectKnown(d, f))
    requires EffectKnown(d', f) <==> EffectKnown(d, f)
    ensures EffectReferenced(d', f) <==> EffectKnown(d', f)
  {
    assert forall i, k, ref :: RefAt(d', i, k, ref) <==> RefAt(d, i, k, ref);
  }

  lemma UpdateStored(d: Checkpoint, i: nat, delivery: string)
    requires Stored(d) && i < |d.pendingOutbox|
    ensures Stored(UpdatedDocument(d, i, delivery))
  {
    var d' := UpdatedDocument(d, i, delivery);
    UpdateAccounted(d, i, delivery);
    OutboxKeeps(d, d');
  }

  lemma UpdateAccounted(d: Checkpoint, i: nat, delivery: string)
    requires EffectsAccounted(d) && TerminalSequencesOk(d) && i < |d.pendingOutbox|
    ensures EffectsAccounted(UpdatedDocument(d, i, delivery)) && TerminalSequencesOk(UpdatedDocument(d, i, delivery))
  {
    var d' := UpdatedDocument(d, i, delivery);
    assert forall j, f :: PendingEffect(d', j, f) <==> PendingEffect(d, j, f);
    assert forall j, f :: TerminalEffect(d', j, f) <==> TerminalEffect(d, j, f);
    assert forall j, f :: BuriedEffect(d', j, f) <==> BuriedEffect(d, j, f);
    forall f
      ensures EffectReferenced(d', f) <==> EffectKnown(d', f)
    {
      assert EffectKnown(d', f) <==> EffectKnown(d, f);
      SameEffects(d, d', f);
    }
  }

  lemma PendingAlone(d: Checkpoint, i: int, f: string)
    requires EffectsAccounted(d) && PendingEffect(d, i, f)
    ensures forall j :: !BuriedEffect(d, j, f)
    ensures forall j :: !TerminalEffect(d, j, f)
  {}

  lemma TerminalizeAccounted(d: Checkpoint, i: nat, outcome: string)
    requires EffectsAccounted(d) && TerminalSequencesOk(d) && i < |d.pendingOutbox|
    ensures EffectsAccounted(TerminalizedDocument(d, i, outcome)) && TerminalSequencesOk(TerminalizedDocument(d, i, outcome))
  {
    var d', n := TerminalizedDocument(d, i, outcome), |d.terminalOutbox|;
    var g := d.pendingOutbox[i].effectId;
    assert PendingEffect(d, i, g);
    forall j, f | PendingEffect(d', j, f)
      ensures PendingEffect(d, if j < i then j else j + 1, f) && f != g
    {
      RemovedIndex(d.pendingOutbox, i, j);
      var k := if j < i then j else j + 1;
      assert PendingEffect(d, k, f) && k != i;
      assert !PendingEffect(d, i, f);
    }
    forall j, f | PendingEffect(d, j, f) && j != i
      ensures PendingEffect(d', if j < i then j else j - 1, f)
    {
      RemovedIndex(d.pendingOutbox, i, j);
    }
    assert forall j, f :: TerminalEffect(d', j, f) <==> TerminalEffect(d, j, f) || (j == n && f == g);
    assert forall j, f :: BuriedEffect(d', j, f) <==> BuriedEffect(d, j, f);
    assert TerminalEffect(d', n, g);
    PendingAlone(d, i, g);
    forall f
      ensures EffectReferenced(d', f) <==> EffectKnown(d', f)
    {
      assert EffectKnown(d', f) <==> EffectKnown(d, f) by {
        if j :| PendingEffect(d, j, f) || TerminalEffect(d, j, f) || BuriedEffect(d, j, f) {
          assert j == i && PendingEffect(d, j, f) ==> TerminalEffect(d', n, f);
          assert j != i && PendingEffect(d, j, f) ==> PendingEffect(d', if j < i then j else j - 1, f);
          assert TerminalEffect(d, j, f) ==> TerminalEffect(d', j, f);
        }
        if j :| PendingEffect(d', j, f) || TerminalEffect(d', j, f) || BuriedEffect(d', j, f) {
          assert PendingEffect(d', j, f) ==> PendingEffect(d, if j < i then j else j + 1, f);
        }
      }
      SameEffects(d, d', f);
    }
  }

  lemma TerminalizeStored(d: Checkpoint, i: nat, outcome: string)
    requires Stored(d) && i < |d.pendingOutbox|
    ensures Stored(TerminalizedDocument(d, i, outcome))
  {
    TerminalizeAccounted(d, i, outcome);
    OutboxKeeps(d, TerminalizedDocument(d, i, outcome));
  }

  lemma CompactLists(d: Checkpoint, i: nat)
    requires EffectsAccounted(d) && TerminalSequencesOk(d) && i < |d.terminalOutbox|
    ensures var d', x := CompactedDocument(d, i), d.terminalOutbox[i];
      && AscendingTerminals(d'.outboxTombstones)
      && (forall y :: y in d'.outboxTombstones <==> y in d.outboxTombstones || y == x)
      && (forall y :: y in d'.terminalOutbox <==> y in d.terminalOutbox && y != x)
      && AscendingTerminals(d'.terminalOutbox)
  {
    var d', x := CompactedDocument(d, i), d.terminalOutbox[i];
    InsertedSorted(d.outboxTombstones, x);
    forall y
      ensures y in d'.terminalOutbox <==> y in d.terminalOutbox && y != x
    {
      if y in d.terminalOutbox && y != x {
        var j :| 0 <= j < |d.terminalOutbox| && d.terminalOutbox[j] == y;
        RemovedIndex(d.terminalOutbox, i, j);
      }
      if y in d'.terminalOutbox {
        var j :| 0 <= j < |d'.terminalOutbox| && d'.terminalOutbox[j] == y;
        RemovedIndex(d.terminalOutbox, i, j);
      }
    }
    forall j, k | 0 <= j < k < |d'.terminalOutbox|
      ensures d'.terminalOutbox[j].sequence < d'.terminalOutbox[k].sequence
    {
      RemovedIndex(d.terminalOutbox, i, j);
      RemovedIndex(d.terminalOutbox, i, k);
    }
  }

  lemma EffectsByRecord(d: Checkpoint, f: string)
    ensures (exists i :: TerminalEffect(d, i, f)) <==> exists y :: y in d.terminalOutbox && y.effectId == f
    ensures (exists i :: BuriedEffect(d, i, f)) <==> exists y :: y in d.outboxTombstones && y.effectId == f
  {
    if i :| TerminalEffect(d, i, f) { assert d.terminalOutbox[i] in d.terminalOutbox; }
    if y :| y in d.terminalOutbox && y.effectId == f {
      var i :| 0 <= i < |d.terminalOutbox| && d.terminalOutbox[i] == y;
      assert TerminalEffect(d, i, f);
    }
    if i :| BuriedEffect(d, i, f) { assert d.outboxTombstones[i] in d.outboxTombstones; }
    if y :| y in d.outboxTombstones && y.effectId == f {
      var i :| 0 <= i < |d.outboxTombstones| && d.outboxTombstones[i] == y;
      assert BuriedEffect(d, i, f);
    }
  }

  /** An effect has one record: two records of the terminal lists with one effect are equal. */
  ghost predicate OneRecord(d: Checkpoint) {
    forall x, y | x in d.terminalOutbox + d.outboxTombstones && y in d.terminalOutbox + d.outboxTombstones
      && (x.effectId == y.effectId || x.sequence == y.sequence) :: x == y
  }

  lemma RecordsUnique(d: Checkpoint)
    requires EffectsAccounted(d) && TerminalSequencesOk(d)
    ensures OneRecord(d)
  {
    var all := d.terminalOutbox + d.outboxTombstones;
    forall x, y | x in all && y in all && (x.effectId == y.effectId || x.sequence == y.sequence)
      ensures x == y
    {
      var i :| 0 <= i < |all| && all[i] == x;
      var j :| 0 <= j < |all| && all[j] == y;
      var n := |d.terminalOutbox|;
      assert i < n ==> TerminalEffect(d, i, x.effectId);
      assert n <= i ==> BuriedEffect(d, i - n, x.effectId);
      assert j < n ==> TerminalEffect(d, j, y.effectId);
      assert n <= j ==> BuriedEffect(d, j - n, y.effectId);
    }
  }

  lemma CompactAccounted(d: Checkpoint, i: nat)
    requires EffectsAccounted(d) && TerminalSequencesOk(d) && i < |d.terminalOutbox|
    ensures EffectsAccounted(CompactedDocument(d, i)) && TerminalSequencesOk(CompactedDocument(d, i))
  {
    var d', x := CompactedDocument(d, i), d.terminalOutbox[i];
    CompactLists(d, i);
    RecordsUnique(d);
    assert x in d.terminalOutbox;
    assert forall y :: y in d'.terminalOutbox + d'.outboxTombstones <==> y in d.terminalOutbox + d.outboxTombstones;
    CompactDistinct(d, d', x);
    forall f
      ensures EffectReferenced(d', f) <==> EffectKnown(d', f)
    {
      EffectsByRecord(d, f);
      EffectsByRecord(d', f);
      assert forall j :: PendingEffect(d', j, f) <==> PendingEffect(d, j, f);
      assert EffectKnown(d', f) <==> EffectKnown(d, f);
      SameEffects(d, d', f);
    }
    CompactSequences(d, d', x);
  }

  lemma CompactSequences(d: Checkpoint, d': Checkpoint, x: TerminalIntent)
    requires TerminalSequencesOk(d) && d'.nextTerminal == d.nextTerminal && x in d.terminalOutbox && OneRecord(d)
    requires AscendingTerminals(d'.terminalOutbox) && AscendingTerminals(d'.outboxTombstones)
    requires forall y :: y in d'.outboxTombstones <==> y in d.outboxTombstones || y == x
    requires forall y :: y in d'.terminalOutbox <==> y in d.terminalOutbox && y != x
    ensures TerminalSequencesOk(d')
  {
    forall j | 0 <= j < |d'.terminalOutbox|
      ensures d'.terminalOutbox[j] in d.terminalOutbox && d'.terminalOutbox[j] != x
    {
      assert d'.terminalOutbox[j] in d'.terminalOutbox;
    }
    forall j | 0 <= j < |d'.outboxTombstones|
      ensures d'.outboxTombstones[j] in d.outboxTombstones || d'.outboxTombstones[j] == x
    {
      assert d'.outboxTombstones[j] in d'.outboxTombstones;
    }
  }

  lemma CompactDistinct(d: Checkpoint, d': Checkpoint, x: TerminalIntent)
    requires EffectsAccounted(d) && OneRecord(d) && x in d.terminalOutbox && d'.pendingOutbox == d.pendingOutbox
    requires AscendingTerminals(d'.terminalOutbox) && AscendingTerminals(d'.outboxTombstones)
    requires TerminalSequencesOk(d)
    requires forall y :: y in d'.outboxTombstones <==> y in d.outboxTombstones || y == x
    requires forall y :: y in d'.terminalOutbox <==> y in d.terminalOutbox && y != x
    ensures forall f, i, j | PendingEffect(d', i, f) && PendingEffect(d', j, f) :: i == j
    ensures forall f, i, j | TerminalEffect(d', i, f) && TerminalEffect(d', j, f) :: i == j
    ensures forall f, i, j | BuriedEffect(d', i, f) && BuriedEffect(d', j, f) :: i == j
    ensures forall f, i, j | PendingEffect(d', i, f) :: !TerminalEffect(d', j, f)
    ensures forall f, i, j | PendingEffect(d', i, f) :: !BuriedEffect(d', j, f)
    ensures forall f, i, j | TerminalEffect(d', i, f) :: !BuriedEffect(d', j, f)
  {
    forall j | 0 <= j < |d'.terminalOutbox|
      ensures d'.terminalOutbox[j] in d.terminalOutbox && d'.terminalOutbox[j] != x
    {
      assert d'.terminalOutbox[j] in d'.terminalOutbox;
    }
    forall j | 0 <= j < |d'.outboxTombstones|
      ensures d'.outboxTombstones[j] in d.outboxTombstones || d'.outboxTombstones[j] == x
    {
      assert d'.outboxTombstones[j] in d'.outboxTombstones;
    }
    forall f, i | PendingEffect(d', i, f)
      ensures forall y | y in d.terminalOutbox + d.outboxTombstones :: y.effectId != f
    {
      EffectsByRecord(d, f);
      assert PendingEffect(d, i, f);
      assert forall j :: !TerminalEffect(d, j, f) && !BuriedEffect(d, j, f);
    }
    assert forall i, f :: PendingEffect(d', i, f) <==> PendingEffect(d, i, f);
    var n := |d.terminalOutbox|;
    forall i, j | 0 <= i < |d.terminalOutbox| && 0 <= j < |d.outboxTombstones|
      ensures d.terminalOutbox[i] != d.outboxTombstones[j]
    {}
  }

  lemma CompactStored(d: Checkpoint, i: nat)
    requires Stored(d) && i < |d.terminalOutbox|
    ensures Stored(CompactedDocument(d, i))
  {
    CompactAccounted(d, i);
    OutboxKeeps(d, CompactedDocument(d, i));
  }

  /** Outbox moves leave every replay verdict as it was. */
  lemma OutboxKnows(d: Checkpoint, d': Checkpoint, e: EventId, g: EntryDigest)
    requires OnlyOutbox(d, d')
    ensures Known(d', e, g) <==> Known(d, e, g)
  {
    assert forall i :: TerminalAt(d', i, e) <==> TerminalAt(d, i, e);
    assert forall i :: TombstoneAt(d', i, e) <==> TombstoneAt(d, i, e);
    assert forall x :: Waits(d', x) <==> Waits(d, x);
  }
}
