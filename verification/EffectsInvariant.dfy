/** What every state of the effect host keeps, and how its records may evolve. */
module EffectsInvariant {
  import opened Options
  import opened Queueing
  import opened CheckpointV1
  import opened Effects
  import A = CheckpointAdmission

  // ---------------------------------------------------------------- one document

  /** Every issued attempt is reported exactly once, in order; the live one not yet. */
  ghost predicate ReportsExact(r: EffectRecord) {
    && (r.invocation == Leased ==> r.fence >= 1)
    && |r.reports| == (if r.invocation == Leased then r.fence - 1 else r.fence)
    && forall i | 0 <= i < |r.reports| :: r.reports[i].fence == i + 1
  }

  /** An outcome belongs to the last attempt, and only the last report can carry one. */
  ghost predicate OutcomeLast(r: EffectRecord) {
    && (r.outcome.Some? ==> r.outcome.value.fence == r.fence)
    && (forall i | 0 <= i < |r.reports| && r.reports[i].kind.Ended? :: r.outcome.Some? && r.outcome.value.fence == i + 1)
  }

  ghost predicate CancelOk(d: Document, r: EffectRecord) {
    r.cancellation.Some? ==>
      && r.cancellation.value.operation in d.responses
      && (r.cancellation.value.state == PreventedStart ==> PreclaimCancel(r) && Decided(r.invocation))
  }

  ghost predicate ClaimOk(root: string, d: Document, e: EffectId, r: EffectRecord) {
    && (e in d.claims <==> r.fence > 0)
    && (e in d.claims ==>
          && d.claims[e].root == root && d.claims[e].effect == e && d.claims[e].token == r.token
          && d.claims[e].fence == r.fence)
    && (r.invocation == Leased ==> e in d.claims && d.claims[e].active)
  }

  ghost predicate RecordOk(d: Document, r: EffectRecord) {
    ReportsExact(r) && OutcomeLast(r) && CancelOk(d, r)
  }

  ghost predicate ClaimsOk(root: string, d: Document) {
    && d.claims.Keys <= d.records.Keys
    && forall e | e in d.records :: ClaimOk(root, d, e, d.records[e])
  }

  /** A stored request is a report of the journal; a stored answer is about a finished attempt. */
  ghost predicate AnswersOk(d: Document) {
    && (forall p | p in d.requests ::
          && p.0 in d.records && 1 <= p.1 <= |d.records[p.0].reports|
          && d.requests[p].effect == p.0 && d.requests[p].fence == p.1
          && d.records[p.0].reports[p.1 - 1] == ReportOf(d.requests[p]))
    && (forall p | p in d.answers ::
          && p.0 in d.records
          && var r := d.records[p.0];
             || (r.receipt.Some? && r.outcome.Some? && p.1 == r.outcome.value.fence)
             || (1 <= p.1 <= |r.reports| && !r.reports[p.1 - 1].kind.Ended?))
  }

  ghost predicate DocumentInv(root: string, d: Document) {
    && d.checkpoint.rootInstance == root && Stored(d.checkpoint)
    && JournalValid(d)
    && ClaimsOk(root, d)
    && (forall e | e in d.records :: RecordOk(d, d.records[e]))
    && AnswersOk(d)
  }

  // ---------------------------------------------------------------- the scope

  ghost predicate LedgerInv(s: Scope) {
    && (forall root {:trigger PairValid(s.ledger, root, s.documents[root])} | root in s.documents ::
          PairValid(s.ledger, root, s.documents[root]))
    && (forall e | e in s.ledger.work ::
          s.ledger.work[e].root in s.documents && e in s.documents[s.ledger.work[e].root].records)
    && s.ledger.fences.Keys == s.ledger.work.Keys
    && s.ledger.active.Keys <= s.ledger.work.Keys
    && (forall k | k in s.ledger.history :: k.effect in s.ledger.work)
    && (forall p | p in s.invoked :: p.0 in s.ledger.work && 1 <= p.1 <= s.ledger.fences[p.0])
  }

  ghost predicate ScopeInv(s: Scope) {
    && LedgerInv(s)
    && (forall root {:trigger DocumentInv(root, s.documents[root])} | root in s.documents :: DocumentInv(root, s.documents[root]))
  }

  // ---------------------------------------------------------------- evolution

  ghost predicate Prevented(r: EffectRecord) {
    r.cancellation.Some? && r.cancellation.value.state == PreventedStart
  }

  /** How one record may change: fences only grow, reports are only appended, an outcome, a
      receipt and a prevented start are there for good. */
  ghost predicate RecordEvolves(r: EffectRecord, r': EffectRecord) {
    && r'.token == r.token && r'.mapping == r.mapping && r'.target == r.target && r'.deduplicates == r.deduplicates
    && r.fence <= r'.fence
    && r.reports <= r'.reports
    && (r.outcome.Some? ==> r'.outcome == r.outcome && r'.event == r.event && r'.fence == r.fence && r'.reports == r.reports)
    && (r.receipt.Some? ==> r'.receipt == r.receipt)
    && (Prevented(r) ==> r'.cancellation == r.cancellation)
  }

  ghost predicate DocumentEvolves(d: Document, d': Document) {
    && d.revision <= d'.revision
    && forall e | e in d.records :: e in d'.records && RecordEvolves(d.records[e], d'.records[e])
  }

  ghost predicate ScopeEvolves(s: Scope, s': Scope) {
    && (forall root | root in s.documents :: root in s'.documents && DocumentEvolves(s.documents[root], s'.documents[root]))
    && (forall e | e in s.ledger.fences :: e in s'.ledger.fences && s.ledger.fences[e] <= s'.ledger.fences[e])
    && s.invoked <= s'.invoked
    && s.ledger.generation <= s'.ledger.generation
    && s.ledger.history <= s'.ledger.history
  }

  lemma RecordEvolvesTransitive(a: EffectRecord, b: EffectRecord, c: EffectRecord)
    requires RecordEvolves(a, b) && RecordEvolves(b, c)
    ensures RecordEvolves(a, c)
  {}

  lemma ScopeEvolvesTransitive(a: Scope, b: Scope, c: Scope)
    requires ScopeEvolves(a, b) && ScopeEvolves(b, c)
    ensures ScopeEvolves(a, c)
  {
    forall root | root in a.documents
      ensures root in c.documents && DocumentEvolves(a.documents[root], c.documents[root])
    {
      var x, y, z := a.documents[root], b.documents[root], c.documents[root];
      forall e | e in x.records
        ensures e in z.records && RecordEvolves(x.records[e], z.records[e])
      {
        RecordEvolvesTransitive(x.records[e], y.records[e], z.records[e]);
      }
    }
  }

  // ---------------------------------------------------------------- committing a document

  /** Only a new effect can collide with another document's work. */
  lemma MirrorAccepts(s: Scope, root: string, d': Document)
    requires LedgerInv(s) && root in s.documents && DocumentEvolves(s.documents[root], d')
    requires d'.records.Keys == s.documents[root].records.Keys
    ensures !MirrorRefuses(s.ledger, root, d')
  {
    assert PairValid(s.ledger, root, s.documents[root]);
  }

  /** A new document that may be mirrored into the ledger. */
  ghost predicate Mirrors(s: Scope, root: string, d': Document) {
    && LedgerInv(s) && root in s.documents && DocumentEvolves(s.documents[root], d')
    && ClaimsOk(root, d') && !MirrorRefuses(s.ledger, root, d')
  }

  lemma MirroredPair(s: Scope, root: string, d': Document, advance: bool)
    requires Mirrors(s, root, d')
    ensures PairValid(Mirrored(s.ledger, root, d', advance), root, d')
  {
    var l, l', d := s.ledger, Mirrored(s.ledger, root, d', advance), s.documents[root];
    assert PairValid(l, root, d);
    forall e, k | e in d'.records && k in l'.history && k.effect == e
      ensures k.fence <= d'.records[e].fence
    {
      if k in l.history {
        assert e in l.work && l.work[e].root == root;
        assert e in d.records;
      } else {
        var f :| f in d'.claims && d'.claims[f] == k;
        assert ClaimOk(root, d', f, d'.records[f]);
      }
    }
    forall e | e in d'.records
      ensures if d'.records[e].invocation == Leased
              then e in l'.active && e in d'.claims && l'.active[e] == d'.claims[e] else e !in l'.active
    {
      assert ClaimOk(root, d', e, d'.records[e]);
    }
  }

  /** Effects of another document are not among the ones just mirrored. */
  lemma OtherEffects(s: Scope, root: string, d': Document, other: string, e: EffectId)
    requires Mirrors(s, root, d')
    requires other in s.documents && other != root && e in s.documents[other].records
    ensures e !in d'.records
  {
    assert PairValid(s.ledger, other, s.documents[other]);
    assert s.ledger.work[e].root == other;
  }

  lemma OtherHistory(s: Scope, root: string, d': Document, advance: bool, other: string, e: EffectId, k: Claim)
    requires Mirrors(s, root, d')
    requires other in s.documents && other != root && e in s.documents[other].records
    requires k in Mirrored(s.ledger, root, d', advance).history && k.effect == e
    ensures k in s.ledger.history
  {
    OtherEffects(s, root, d', other, e);
    forall f | f in d'.claims
      ensures d'.claims[f] != k
    {
      assert ClaimOk(root, d', f, d'.records[f]);
    }
  }

  lemma OtherPair(s: Scope, root: string, d': Document, advance: bool, other: string)
    requires Mirrors(s, root, d')
    requires other in s.documents && other != root
    ensures PairValid(Mirrored(s.ledger, root, d', advance), other, s.documents[other])
  {
    var l, l', o := s.ledger, Mirrored(s.ledger, root, d', advance), s.documents[other];
    assert PairValid(l, other, o);
    hide Mirrors;
    assert l'.roots == l.roots && CheckpointDigest(o.checkpoint) in l'.checkpoints;
    forall e | e in o.records
      ensures OtherPairAt(l', other, o, e)
    {
      OtherEffects(s, root, d', other, e);
      forall k | k in l'.history && k.effect == e ensures k.fence <= o.records[e].fence {
        OtherHistory(s, root, d', advance, other, e, k);
      }
    }
  }

  ghost predicate OtherPairAt(l: Ledger, root: string, d: Document, e: EffectId)
    requires e in d.records
  {
    && e in l.work && l.work[e] == Binding(root, d.records[e].token)
    && e in l.fences && l.fences[e] == d.records[e].fence
    && (forall k | k in l.history && k.effect == e :: k.fence <= d.records[e].fence)
    && (if d.records[e].invocation == Leased
        then e in l.active && e in d.claims && l.active[e] == d.claims[e]
        else e !in l.active)
  }

  lemma CommittedWork(s: Scope, root: string, d': Document, advance: bool, l': Ledger)
    requires l' == Mirrored(s.ledger, root, d', advance)
    requires s.ledger.fences.Keys == s.ledger.work.Keys && s.ledger.active.Keys <= s.ledger.work.Keys
    ensures forall e | e in l'.work ::
      if e in d'.records then l'.work[e].root == root else e in s.ledger.work && l'.work[e] == s.ledger.work[e]
    ensures l'.fences.Keys == l'.work.Keys && l'.active.Keys <= l'.work.Keys
    ensures s.ledger.work.Keys <= l'.work.Keys
  {}

  lemma CommittedFences(s: Scope, root: string, d': Document, advance: bool, l': Ledger)
    requires l' == Mirrored(s.ledger, root, d', advance) && !MirrorRefuses(s.ledger, root, d')
    ensures forall e | e in s.ledger.fences :: e in l'.fences && s.ledger.fences[e] <= l'.fences[e]
  {
    assert forall e | e in d'.records && e in s.ledger.fences :: s.ledger.fences[e] <= d'.records[e].fence;
  }

  lemma CommittedHistory(s: Scope, root: string, d': Document, advance: bool, k: Claim)
    requires Mirrors(s, root, d') && k in Mirrored(s.ledger, root, d', advance).history
    ensures k.effect in Mirrored(s.ledger, root, d', advance).work
  {
    if k !in s.ledger.history {
      var f :| f in d'.claims && d'.claims[f] == k;
      assert ClaimOk(root, d', f, d'.records[f]);
    }
  }

  lemma CommitLedger(s: Scope, root: string, d': Document, advance: bool, s': Scope)
    requires Mirrors(s, root, d')
    requires s' == s.(documents := s.documents[root := d'], ledger := Mirrored(s.ledger, root, d', advance))
    ensures LedgerInv(s')
  {
    hide PairValid, Mirrored, ClaimsOk, DocumentEvolves, MirrorRefuses;
    CommittedWork(s, root, d', advance, s'.ledger);
    CommitPairs(s, root, d', advance, s');
    CommitPlaces(s, root, d', advance, s');
    CommittedFences(s, root, d', advance, s'.ledger);
    forall k | k in s'.ledger.history
      ensures k.effect in s'.ledger.work
    {
      CommittedHistory(s, root, d', advance, k);
    }
  }

  lemma CommitPairs(s: Scope, root: string, d': Document, advance: bool, s': Scope)
    requires Mirrors(s, root, d')
    requires s' == s.(documents := s.documents[root := d'], ledger := Mirrored(s.ledger, root, d', advance))
    ensures forall other {:trigger PairValid(s'.ledger, other, s'.documents[other])} | other in s'.documents ::
      PairValid(s'.ledger, other, s'.documents[other])
  {
    hide PairValid, Mirrored, Mirrors;
    MirroredPair(s, root, d', advance);
    forall other | other in s'.documents
      ensures PairValid(s'.ledger, other, s'.documents[other])
    {
      if other != root { OtherPair(s, root, d', advance, other); }
    }
  }

  lemma CommitPlaces(s: Scope, root: string, d': Document, advance: bool, s': Scope)
    requires Mirrors(s, root, d')
    requires s' == s.(documents := s.documents[root := d'], ledger := Mirrored(s.ledger, root, d', advance))
    ensures forall e | e in s'.ledger.work ::
      s'.ledger.work[e].root in s'.documents && e in s'.documents[s'.ledger.work[e].root].records
  {
    hide PairValid, Mirrored, ClaimsOk, DocumentEvolves, MirrorRefuses;
    CommittedWork(s, root, d', advance, s'.ledger);
    forall e | e in s'.ledger.work
      ensures s'.ledger.work[e].root in s'.documents && e in s'.documents[s'.ledger.work[e].root].records
    {
      WorkPlaced(s, root, d', e);
    }
  }

  /** Work of the changed document stays with it; other work stays where it was. */
  lemma WorkPlaced(s: Scope, root: string, d': Document, e: EffectId)
    requires Mirrors(s, root, d')
    ensures e !in d'.records && e in s.ledger.work ==>
      s.ledger.work[e].root != root && s.ledger.work[e].root in s.documents && e in s.documents[s.ledger.work[e].root].records
  {}

  lemma CommitEvolves(s: Scope, root: string, d': Document, advance: bool, s': Scope)
    requires root in s.documents && DocumentEvolves(s.documents[root], d') && !MirrorRefuses(s.ledger, root, d')
    requires s' == s.(documents := s.documents[root := d'], ledger := Mirrored(s.ledger, root, d', advance))
    ensures ScopeEvolves(s, s')
  {
    hide DocumentEvolves, MirrorRefuses;
    CommittedFences(s, root, d', advance, s'.ledger);
    forall other | other in s.documents
      ensures other in s'.documents && DocumentEvolves(s.documents[other], s'.documents[other])
    {
      if other != root { Unchanged(s.documents[other]); }
    }
  }

  /** Committing a document that keeps its own invariant and only evolves keeps the scope's. */
  lemma CommitKeeps(s: Scope, root: string, d': Document, advance: bool, s': Scope)
    requires ScopeInv(s) && root in s.documents && DocumentEvolves(s.documents[root], d')
    requires DocumentInv(root, d') && !MirrorRefuses(s.ledger, root, d')
    requires s' == s.(documents := s.documents[root := d'], ledger := Mirrored(s.ledger, root, d', advance))
    ensures ScopeInv(s') && ScopeEvolves(s, s')
  {
    DocumentParts(root, d');
    hide LedgerInv, DocumentInv, ClaimsOk, MirrorRefuses, DocumentEvolves, Mirrored, ScopeEvolves;
    assert Mirrors(s, root, d');
    CommitLedger(s, root, d', advance, s');
    CommitEvolves(s, root, d', advance, s');
  }

  lemma DocumentParts(root: string, d: Document)
    requires DocumentInv(root, d)
    ensures JournalValid(d) && ClaimsOk(root, d)
  {}

  lemma Unchanged(d: Document)
    ensures DocumentEvolves(d, d)
  {}
}
