/** Concrete stored checkpoints on which an operation leaves the stored relation. */
module CheckpointCounterexamples {
  import opened Options
  import opened Queueing
  import opened CheckpointV1
  import opened CheckpointAdmission
  import opened CheckpointPrune
  import opened CheckpointRoot
  import opened CheckpointStep

  const ID := "r"

  function Quiet(next: nat): Aggregate {
    Aggregate("root", "c", ID, map[ID := Box(Running, [], [])], next, next, 0)
  }

  function Fresh(): Checkpoint {
    Checkpoint("root", 0, Retained(Quiet(0)), Permanent, None, 1,
               [Creation(0, "c", 0, AggregateDigest(Quiet(0)), [])], [], [], 0, [], [])
  }

  function Announcement(): Delivery {
    var envelope := Envelope("done", "e", "cause", FromSystem("system:spawned_completion"), ID, "");
    Delivery(Internal, envelope, EntryDigest("root", Internal, envelope))
  }

  lemma QuietMail(next: nat)
    ensures forall x :: !Pending(Quiet(next), x)
    ensures AggregateOk(Quiet(next))
  {
    assert forall id, late, x :: !Holds(Quiet(next).boxes, id, late, x);
  }

  lemma QuietCreation(nobody: Entry, r: StepResult)
    requires r == StepResult(Handled, Quiet(0), [], [])
    ensures Creates(Quiet(0), nobody, r)
    ensures CreatedDocument(r) == Fresh()
  {
    QuietMail(0);
    hide AggregateOk;
    assert ReferencesOf(r.emissions, 0) == [] && IntentsOf(r.emissions, 0) == [];
    assert CreatedDocument(r).receipts == Fresh().receipts;
  }

  lemma FreshStored()
    ensures Stored(Fresh())
  {
    hide Creates, Stored, CreatedDocument, Fresh;
    var envelope := Envelope("", "", "", Host, ID, "");
    var nobody := Entry(0, 0, Input, envelope, EntryDigest("root", Input, envelope), 0);
    var r := StepResult(Handled, Quiet(0), [], []);
    QuietCreation(nobody, r);
    CreatedStored(Quiet(0), nobody, r);
  }

  function Announced(): Aggregate {
    Quiet(1).(boxes := map[ID := Box(Running, [AdmittedEntry(Quiet(0), Announcement(), 0)], [])])
  }

  lemma AnnouncementAdmits()
    ensures AggregateOk(Announced()) && Admits(Quiet(0), [Announcement()], Announced())
  {
    var b, news, entry := Announced(), [Announcement()], AdmittedEntry(Quiet(0), Announcement(), 0);
    assert forall id, late, y :: Holds(b.boxes, id, late, y) <==> id == ID && !late && y == entry;
    assert forall id, late, y :: !Holds(Quiet(0).boxes, id, late, y);
    assert news[0] == Announcement();
  }

  /** One delivery whose source is the system: a valid batch, but the document it leads to is
      refused by the validator of the next restore. */
  lemma SystemDeliveryRefused()
    ensures Stored(Fresh()) && Admissible(Fresh(), [Announcement()], Announced())
    ensures !Valid(AdmittedDocument(Fresh(), [Announcement()], Announced()))
  {
    FreshStored();
    AnnouncementAdmissible();
    AnnouncementRefused();
  }

  lemma AnnouncementAdmissible()
    ensures Admissible(Fresh(), [Announcement()], Announced())
  {
    AnnouncementAdmits();
    FreshKnowsNothing();
    QuietMail(0);
    assert Fresh().root == Retained(Quiet(0));
    hide Unknown, Admits, AggregateOk, Fresh, Announced;
  }

  lemma AnnouncementRefused()
    requires Admissible(Fresh(), [Announcement()], Announced())
    ensures !Valid(AdmittedDocument(Fresh(), [Announcement()], Announced()))
  {
    hide Admissible, PendingAccounted, AdmittedDocument, Fresh, Announced;
    InternalAdmission(Fresh(), [Announcement()], Announced(), 0);
  }

  lemma FreshKnowsNothing()
    ensures forall e :: Unknown(Fresh(), e)
  {
    QuietMail(0);
    assert forall y :: !Waits(Fresh(), y);
  }

  /** Event `e` was accepted and handled; its step emitted effect `f`, which has been delivered. */
  function Delivered(): Checkpoint {
    var g := EntryDigest("root", Input, Envelope("go", "e", "e", Host, ID, ""));
    Checkpoint("root", 3, Retained(Quiet(1)), Permanent, None, 3,
      [Creation(0, "c", 0, AggregateDigest(Quiet(0)), []),
       Acceptance(1, "e", g, 0, 1, Input),
       EventTerminal(2, "e", g, 0, 0, 2, AggregateDigest(Quiet(1)), Stepped(Handled), [ExternalOutbox(0, "f")])],
      [], [], 1, [TerminalIntent(0, "f", 3, "delivered")], [])
  }

  lemma DeliveredViews()
    ensures var d := Delivered();
      && (forall y :: !Waits(d, y))
      && (forall i, e :: AcceptedAt(d, i, e) <==> i == 1 && e == "e")
      && (forall i, e :: TerminalAt(d, i, e) <==> i == 2 && e == "e")
      && (forall t, e :: !TombstoneAt(d, t, e))
      && (forall i, k, ref :: RefAt(d, i, k, ref) <==> i == 2 && k == 0 && ref == ExternalOutbox(0, "f"))
  {
    QuietMail(1);
  }

  lemma DeliveredEffects()
    ensures EffectsAccounted(Delivered()) && TerminalSequencesOk(Delivered())
  {
    var d := Delivered();
    DeliveredViews();
    assert forall i, f :: TerminalEffect(d, i, f) <==> i == 0 && f == "f";
    assert forall i, f :: !PendingEffect(d, i, f) && !BuriedEffect(d, i, f);
    assert RefAt(d, 2, 0, ExternalOutbox(0, "f"));
    assert TerminalEffect(d, 0, "f") && EffectKnown(d, "f");
  }

  lemma DeliveredReceipts(d: Checkpoint)
    requires d == Delivered()
    ensures ReceiptsContiguous(d) && RootAgrees(d) && TombstonesPruned(d)
    ensures RevisionsBounded(d) && Chronological(d) && DigestsAgree(d)
  {
    assert d.receipts[0].Creation? && d.receipts[1].Acceptance? && d.receipts[2].EventTerminal?;
    assert d.receipts[0].revision == 0 && d.receipts[1].revision == 1 && d.receipts[2].revision == 2;
    assert d.receipts[0].sequence == 0 && d.receipts[1].sequence == 1 && d.receipts[2].sequence == 2;
    assert |d.receipts| == 3 && d.revision == 3 && d.nextReceipt == 3 && d.cutoff == None && d.tombstones == [];
    assert d.receipts[0].creationId == "c" && d.root.Retained? && d.root.aggregate.creationId == "c";
    assert d.root.aggregate.root == d.rootInstance;
    hide Delivered, Quiet;
  }

  lemma DeliveredEvents(d: Checkpoint)
    requires d == Delivered()
    ensures EventsDistinct(d) && ReferencesDistinct(d) && TerminalsAccounted(d) && TombstonesOk(d) && AcceptancesSettled(d)
    ensures TerminalRefsBacked(d)
  {
    DeliveredViews();
    assert AcceptedAt(d, 1, "e") && TerminalAt(d, 2, "e");
    assert d.receipts[1].Acceptance? && d.receipts[2].EventTerminal?;
    hide Delivered;
  }

  lemma DeliveredMail(d: Checkpoint)
    requires d == Delivered()
    ensures PendingDistinct(d) && PendingAccounted(d) && PendingNotTerminal(d) && QueuesDistinct(d) && MailboxRefsWait(d)
    ensures AcceptanceOwners(d) && AllocationBounded(d)
  {
    DeliveredViews();
    assert forall id, late, x :: !Holds(Quiet(1).boxes, id, late, x);
    assert forall e, n | Owns(d, e, n) :: e == "e" && n == 0;
  }

  lemma DeliveredStored()
    ensures Stored(Delivered())
  {
    QuietMail(1);
    DeliveredReceipts(Delivered());
    DeliveredEvents(Delivered());
    DeliveredMail(Delivered());
    DeliveredEffects();
    assert Delivered().root == Retained(Quiet(1));
    hide ReceiptsContiguous, RootAgrees, PendingDistinct, RevisionsBounded, EventsDistinct, ReferencesDistinct,
      PendingAccounted, PendingNotTerminal, TerminalsAccounted, TombstonesOk, AcceptancesSettled, TerminalRefsBacked,
      Chronological, QueuesDistinct, AcceptanceOwners, AllocationBounded, DigestsAgree, EffectsAccounted,
      TerminalSequencesOk, MailboxRefsWait, TombstonesPruned, AggregateOk, Delivered;
  }

  /** Pruning through receipt 2 passes every dependency check of the function and still leaves
      an outbox record that no receipt refers to. */
  lemma PrunedProducer()
    ensures Stored(Delivered()) && Accepts(Delivered(), 2) && Prunable(Delivered(), 2)
    ensures !Stored(PrunedDocument(Delivered(), 2, "policy"))
  {
    var d := Delivered();
    DeliveredStored();
    DeliveredViews();
    assert TerminalAt(d, 2, "e") && RemovedAt(d, 2, 2);
    assert RefAt(d, 2, 0, ExternalOutbox(0, "f"));
    assert DropsEffect(d, 2);
    assert Prunable(d, 2);
    PruneStored(d, 2, "policy");
  }
}
