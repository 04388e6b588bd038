/** The operations of the effect host. Each is one transaction: guards, one change of a document,
    the journal check at commit, the mirror into the authority ledger. A refused transaction
    leaves everything as it was. */
module EffectsHost {
  import opened Options
  import opened Queueing
  import opened CheckpointV1
  import opened Effects
  import opened EffectsInvariant
  import opened EffectsChanges
  import A = CheckpointAdmission
  import H = CheckpointHost
  import L = CheckpointLoops
  import O = CheckpointOutbox

  const INT64 := 0x8000_0000_0000_0000

  /** `_now`: trusted times are signed 64-bit nanoseconds. */
  predicate Time(t: int) { -INT64 <= t < INT64 }

  /** The root is hosted here and the scope may be mutated under this epoch. */
  predicate Open(s: Scope, root: string, epoch: Option<nat>) {
    root in s.documents && s.ledger.state == Active && (epoch == None || s.ledger.epoch == epoch.value)
  }

  // ---------------------------------------------------------------- worker rights

  /** The clock can be read and the lease has not run out. */
  predicate Live(clock: Option<int>, deadline: int) {
    clock.Some? && Time(clock.value) && clock.value < deadline
  }

  /** `worker_guard`'s deadline, for an effect whose lease still matters. */
  predicate Watched(r: EffectRecord) { r.invocation in {Leased, OutcomeRecorded} }

  predicate ReportedAt(r: EffectRecord, fence: nat) {
    exists i | 0 <= i < |r.reports| :: r.reports[i].fence == fence
  }

  /** A finished attempt may be asked about again. */
  predicate Replayable(r: EffectRecord, fence: nat) {
    !Watched(r) && ReportedAt(r, fence)
  }

  predicate LiveClaim(l: Ledger, d: Document, e: EffectId, principal: string, fence: nat, now: int) {
    && e in l.active && e in d.claims && l.active[e] == d.claims[e]
    && l.active[e].principal == principal && l.active[e].fence == fence && l.active[e].epoch == l.epoch
    && l.active[e].active && Time(now) && now < l.active[e].expires
  }

  /** The worker guard of `_transact` before the change. */
  method GuardWorker(s: Scope, root: string, e: EffectId, principal: string, fence: nat, now: int, clock: Option<int>)
    returns (error: Option<EffectError>)
    requires root in s.documents && e in s.documents[root].records
    ensures error.None? <==>
      var r := s.documents[root].records[e];
      && (Watched(r) ==> e in s.documents[root].claims && Live(clock, s.documents[root].claims[e].expires))
      && (e in s.documents[root].claims ==> s.documents[root].claims[e].principal == principal)
      && (Replayable(r, fence) || LiveClaim(s.ledger, s.documents[root], e, principal, fence, now))
    ensures error == Some(UnauthorizedScope) ==>
      e in s.documents[root].claims && s.documents[root].claims[e].principal != principal
    ensures
      (LiveClaim(s.ledger, s.documents[root], e, principal, fence, now) && Live(clock, s.documents[root].claims[e].expires)) ==>
        error.None?
  {
    var d := s.documents[root];
    var r := d.records[e];
    if Watched(r) && (e !in d.claims || !Live(clock, d.claims[e].expires)) { return Some(StaleAttemptFence); }
    if e in d.claims && d.claims[e].principal != principal { return Some(UnauthorizedScope); }
    if !Replayable(r, fence) && !LiveClaim(s.ledger, d, e, principal, fence, now) { return Some(StaleAttemptFence); }
    return None;
  }

  /** `_authorize`. */
  predicate Authorized(d: Document, e: EffectId, token: string, fence: nat, principal: string, epoch: nat, now: int, replay: bool)
    requires e in d.records
  {
    && token == d.records[e].token && e in d.claims && d.claims[e].principal == principal && d.claims[e].epoch == epoch
    && fence == d.records[e].fence && fence == d.claims[e].fence
    && (replay || (d.claims[e].active && Time(now) && now < d.claims[e].expires))
  }

  function AuthorizeError(d: Document, e: EffectId, token: string, fence: nat, principal: string, epoch: nat): EffectError
    requires e in d.records
  {
    if token != d.records[e].token then EffectNotOutstanding
    else if e !in d.claims || d.claims[e].principal != principal then UnauthorizedScope
    else if d.claims[e].epoch != epoch then StaleScopeAuthority
    else StaleAttemptFence
  }

  /** The worker holds the current, unexpired lease of the effect at both ends of the transaction. */
  predicate HoldsLease(s: Scope, root: string, q: ResultRequest, principal: string, epoch: nat, now: int,
                  clock: Option<int>, clock': Option<int>)
  {
    && Open(s, root, Some(epoch)) && Reportable(s.documents[root], q)
    && q.token == s.documents[root].records[q.effect].token
    && LiveClaim(s.ledger, s.documents[root], q.effect, principal, q.fence, now)
    && Live(clock, s.ledger.active[q.effect].expires) && Live(clock', s.ledger.active[q.effect].expires)
  }

  // ---------------------------------------------------------------- admission of one delivery

  ghost predicate Acceptable(c: Checkpoint, x: Delivery) {
    && c.root.Retained? && RootRunning(c.root.aggregate) && ValidDelivery(c.root.aggregate, x)
    && A.Unknown(c, x.envelope.eventId)
  }

  lemma OneNew(c: Checkpoint, x: Delivery)
    ensures H.NewsOf(c, [x]) == if A.Unknown(c, x.envelope.eventId) then [x] else []
  {
    assert [x][..0] == [];
  }

  lemma SomeKnown(c: Checkpoint, e: EventId)
    requires !A.Unknown(c, e)
    ensures exists g :: A.Known(c, e, g)
  {
    if x :| Waits(c, x) && x.envelope.eventId == e {
      assert A.Known(c, e, x.digest);
    } else if i :| TerminalAt(c, i, e) {
      assert A.Known(c, e, c.receipts[i].request);
    } else {
      var t :| TombstoneAt(c, t, e);
      assert A.Known(c, e, c.tombstones[t].request);
    }
  }

  lemma KnownOrNew(c: Checkpoint, x: Delivery)
    ensures H.AnyNew(c, [x]) <==> A.Unknown(c, x.envelope.eventId)
  {
    assert x in [x];
    if A.Unknown(c, x.envelope.eventId) {
      UnknownIs(c, x.envelope.eventId);
      hide A.Known;
      assert !H.Conflicting(c, x) && !A.Known(c, x.envelope.eventId, H.Requested(c, x));
    } else {
      SomeKnown(c, x.envelope.eventId);
      hide A.Known;
      var g :| A.Known(c, x.envelope.eventId, g);
      assert g != H.Requested(c, x) ==> H.Conflicting(c, x);
    }
  }

  lemma UnknownIs(c: Checkpoint, e: EventId)
    requires A.Unknown(c, e)
    ensures forall g :: !A.Known(c, e, g)
  {}

  /** The document after accepting the delivery, when the core accepts it. */
  method TryAdmit(c: Checkpoint, x: Delivery) returns (r: Option<Checkpoint>)
    requires Stored(c) && x.digest == EntryDigest(c.rootInstance, x.mode, x.envelope)
    ensures r.Some? <==> Acceptable(c, x)
    ensures r.Some? ==> AdmitsOne(c, x, r.value)
  {
    hide Stored, A.Known, AggregateOk, ValidDelivery, FreshIds, Admits, A.Unknown, H.AllFound, H.AnyNew, H.Conflicting;
    OneNew(c, x);
    KnownOrNew(c, x);
    var p := H.PreflightAdmission(c, [x], H.Expected(c.revision, CheckpointDigest(c)));
    assert p.New? <==> Acceptable(c, x) by {
      assert forall i | 0 <= i < 1 :: [x][i] == x;
    }
    if !p.New? { return None; }
    r := AdmitFound(c, x, p.evidence);
  }

  method AdmitFound(c: Checkpoint, x: Delivery, evidence: seq<L.Lookup>) returns (r: Option<Checkpoint>)
    requires Stored(c) && c.root.Retained? && AggregateOk(c.root.aggregate) && FreshIds(c.root.aggregate, [x])
    requires ValidDelivery(c.root.aggregate, x) && A.Unknown(c, x.envelope.eventId) && H.AllFound(c, [x], evidence)
    ensures r.Some? && AdmitsOne(c, x, r.value)
  {
    hide Stored, A.Known, AggregateOk, ValidDelivery, FreshIds, Admits, A.Unknown, H.AllFound, A.Admissible, H.MembersOk,
      H.HostOnly, A.AdmittedDocument, AdmitsOne;
    OneNew(c, x);
    OneValid(c.root.aggregate, x);
    var b := AdmitAggregate(c.root.aggregate, [x]);
    OneAdmissible(c, x, b);
    var c', members := H.AppendAcceptances(c, [x], evidence, [x], b);
    OneAdmitted(c, x, b, c');
    return Some(c');
  }

  lemma OneAdmissible(c: Checkpoint, x: Delivery, b: Aggregate)
    requires c.root.Retained? && AggregateOk(b) && FreshIds(c.root.aggregate, [x]) && Admits(c.root.aggregate, [x], b)
    requires ValidDelivery(c.root.aggregate, x) && A.Unknown(c, x.envelope.eventId)
    ensures A.Admissible(c, [x], b)
  {
    hide AggregateOk, ValidDelivery, FreshIds, Admits, A.Unknown;
  }

  lemma OneAdmitted(c: Checkpoint, x: Delivery, b: Aggregate, c': Checkpoint)
    requires c.root.Retained? && b == AcceptingAll(c.root.aggregate, [x])
    requires A.Admissible(c, [x], b) && c' == A.AdmittedDocument(c, [x], b)
    ensures AdmitsOne(c, x, c')
  {
    hide A.Admissible, A.AdmittedDocument, AcceptingAll;
  }

  lemma OneValid(a: Aggregate, x: Delivery)
    requires ValidDelivery(a, x)
    ensures forall i | 0 <= i < |[x]| :: ValidDelivery(a, [x][i])
  {}

  // ---------------------------------------------------------------- results of transactions

  function ResultOf(root: string, e: EffectId, r: EffectRecord): Delivery
    requires r.outcome.Some? && r.outcome.value.kind in r.mapping
  {
    ResultDelivery(root, e, r, r.outcome.value.kind, r.outcome.value.payload)
  }

  /** The admission stage, whoever runs it: the scope once the recorded outcome of `e` is admitted. */
  function AdmittedScope(s: Scope, root: string, e: EffectId): Scope
    requires root in s.documents && e in s.documents[root].records
    requires s.documents[root].records[e].outcome.Some? && s.documents[root].checkpoint.root.Retained?
    requires s.documents[root].records[e].outcome.value.kind in s.documents[root].records[e].mapping
  {
    var d := s.documents[root];
    Committed(s, root, WithAdmission(d, e, AdmittedOne(d.checkpoint, ResultOf(root, e, d.records[e]))))
  }

  ghost predicate Recorded(s: Scope, root: string, e: EffectId) {
    && root in s.documents && e in s.documents[root].records
    && s.documents[root].records[e].invocation == OutcomeRecorded && s.documents[root].records[e].outcome.Some?
    && s.documents[root].records[e].outcome.value.kind in s.documents[root].records[e].mapping
  }

  /** The core accepted the recorded result of `e`, and nothing else happened. */
  ghost predicate AdmitsTo(s: Scope, root: string, e: EffectId, s': Scope) {
    && Recorded(s, root, e) && s.documents[root].checkpoint.root.Retained?
    && Admissible(root, s.documents[root], e,
                  AdmittedOne(s.documents[root].checkpoint, ResultOf(root, e, s.documents[root].records[e])))
    && s' == AdmittedScope(s, root, e)
  }

  lemma RecordedIs(s: Scope, root: string, e: EffectId)
    requires ScopeInv(s) && root in s.documents && e in s.documents[root].records
    requires s.documents[root].records[e].invocation == OutcomeRecorded
    ensures Recorded(s, root, e)
  {
    hide Located;
    InScope(s, root);
    RecordIn(root, s.documents[root], e);
  }

  lemma InScope(s: Scope, root: string)
    requires ScopeInv(s) && root in s.documents
    ensures DocumentInv(root, s.documents[root]) && PairValid(s.ledger, root, s.documents[root]) && LedgerInv(s)
    ensures JournalValid(s.documents[root]) && Stored(s.documents[root].checkpoint)
    ensures s.documents[root].checkpoint.rootInstance == root
  {
    hide Stored, LedgerInv, PairValid, JournalValid;
    assert LedgerInv(s);
    PairIn(s, root);
    assert DocumentInv(root, s.documents[root]);
  }

  lemma PairIn(s: Scope, root: string)
    requires LedgerInv(s) && root in s.documents
    ensures PairValid(s.ledger, root, s.documents[root])
  {}

  /** Committing a change that keeps the records' keys. */
  lemma CommitsKeep(s: Scope, root: string, d': Document)
    requires ScopeInv(s) && root in s.documents && DocumentInv(root, d') && DocumentEvolves(s.documents[root], d')
    requires d'.records.Keys == s.documents[root].records.Keys
    ensures ScopeInv(Committed(s, root, d')) && ScopeEvolves(s, Committed(s, root, d'))
    ensures JournalValid(d') && !MirrorRefuses(s.ledger, root, d')
  {
    hide DocumentInv, DocumentEvolves, PairValid, Mirrored, MirrorRefuses, JournalValid;
    MirrorAccepts(s, root, d');
    DocumentParts(root, d');
    CommitKeeps(s, root, d', true, Committed(s, root, d'));
  }

  // ---------------------------------------------------------------- mirror and commit

  /** One record agrees with what the ledger already says about its effect. */
  predicate Agrees(l: Ledger, root: string, e: EffectId, r: EffectRecord) {
    (e in l.work ==> l.work[e] == Binding(root, r.token)) && (e in l.fences ==> l.fences[e] <= r.fence)
  }

  /** The record loop of `_mirror_authority`, refusing another binding or a lower fence. */
  method MirrorRecords(l: Ledger, root: string, d: Document) returns (ok: bool, work: map<EffectId, Binding>, fences: map<EffectId, nat>)
    ensures ok <==> !MirrorRefuses(l, root, d)
    ensures ok ==> work == l.work + (map e | e in d.records :: Binding(root, d.records[e].token))
    ensures ok ==> fences == l.fences + (map e | e in d.records :: d.records[e].fence)
  {
    hide MirrorRefuses, Agrees, MirroredSoFar;
    work, fences := l.work, l.fences;
    var left := d.records.Keys;
    MirrorNothing(l, root, d);
    while left != {}
      invariant left <= d.records.Keys && MirroredSoFar(l, root, d, left, work, fences)
      decreases left
    {
      var e :| e in left;
      if !Agrees(l, root, e, d.records[e]) {
        Disagrees(l, root, d, e);
        return false, work, fences;
      }
      MirrorOne(l, root, d, left, work, fences, e);
      work := work[e := Binding(root, d.records[e].token)];
      fences := fences[e := d.records[e].fence];
      left := left - {e};
    }
    MirrorMaps(l, root, d, work, fences);
    return true, work, fences;
  }

  ghost predicate MirroredSoFar(l: Ledger, root: string, d: Document, left: set<EffectId>,
                                work: map<EffectId, Binding>, fences: map<EffectId, nat>)
  {
    && (forall e :: e in work <==> e in l.work || (e in d.records && e !in left))
    && (forall e :: e in fences <==> e in l.fences || (e in d.records && e !in left))
    && (forall e | e in work :: work[e] == if e in d.records && e !in left then Binding(root, d.records[e].token) else l.work[e])
    && (forall e | e in fences :: fences[e] == if e in d.records && e !in left then d.records[e].fence else l.fences[e])
    && (forall e | e in d.records && e !in left :: Agrees(l, root, e, d.records[e]))
  }

  lemma MirrorNothing(l: Ledger, root: string, d: Document)
    ensures MirroredSoFar(l, root, d, d.records.Keys, l.work, l.fences)
  {}

  lemma MirrorOne(l: Ledger, root: string, d: Document, left: set<EffectId>, work: map<EffectId, Binding>,
                  fences: map<EffectId, nat>, e: EffectId)
    requires left <= d.records.Keys && MirroredSoFar(l, root, d, left, work, fences)
    requires e in left && Agrees(l, root, e, d.records[e])
    ensures MirroredSoFar(l, root, d, left - {e}, work[e := Binding(root, d.records[e].token)], fences[e := d.records[e].fence])
  {
    hide Agrees;
  }

  lemma MirrorMaps(l: Ledger, root: string, d: Document, work: map<EffectId, Binding>, fences: map<EffectId, nat>)
    requires MirroredSoFar(l, root, d, {}, work, fences)
    ensures work == l.work + (map e | e in d.records :: Binding(root, d.records[e].token))
    ensures fences == l.fences + (map e | e in d.records :: d.records[e].fence)
    ensures !MirrorRefuses(l, root, d)
  {
    assert !MirrorRefuses(l, root, d) by {
      assert forall e | e in d.records :: Agrees(l, root, e, d.records[e]);
    }
    hide Agrees, MirrorRefuses;
    MapsEqual(work, l.work + (map e | e in d.records :: Binding(root, d.records[e].token)));
    MapsEqual(fences, l.fences + (map e | e in d.records :: d.records[e].fence));
  }

  lemma MapsEqual<K, V>(x: map<K, V>, y: map<K, V>)
    requires forall k :: k in x <==> k in y
    requires forall k | k in x :: x[k] == y[k]
    ensures x == y
  {}

  lemma Disagrees(l: Ledger, root: string, d: Document, e: EffectId)
    requires e in d.records && !Agrees(l, root, e, d.records[e])
    ensures MirrorRefuses(l, root, d)
  {}

  /** The claim loop of `_mirror_authority`. */
  method MirrorClaims(history: set<Claim>, d: Document) returns (history': set<Claim>)
    ensures history' == history + ClaimsOf(d)
  {
    history' := history;
    var keys := d.claims.Keys;
    while keys != {}
      invariant keys <= d.claims.Keys
      invariant history' == history + set e | e in d.claims && e !in keys :: d.claims[e]
      decreases keys
    {
      var e :| e in keys;
      history' := history' + {d.claims[e]};
      keys := keys - {e};
    }
  }

  method MirrorAuthority(l: Ledger, root: string, d: Document, advance: bool) returns (r: Result<Ledger>)
    ensures r.Err? <==> MirrorRefuses(l, root, d)
    ensures r.Ok? ==> r.value == Mirrored(l, root, d, advance)
  {
    hide MirrorRefuses;
    var ok, work, fences := MirrorRecords(l, root, d);
    if !ok { return Err(StaleAttemptFence); }
    var leased := map e | e in d.records && e in d.claims && d.records[e].invocation == Leased :: d.claims[e];
    var history := MirrorClaims(l.history, d);
    return Ok(l.(work := work, fences := fences, active := (l.active - d.records.Keys) + leased, history := history,
                 checkpoints := l.checkpoints + {CheckpointDigest(d.checkpoint)},
                 generation := if advance then l.generation + 1 else l.generation));
  }

  /** The end of `_transact`: the journal check, then the mirror if anything changed. */
  method Commit(s: Scope, root: string, d': Document) returns (r: Result<Scope>)
    requires root in s.documents
    ensures r.Ok? <==> JournalValid(d') && (d' == s.documents[root] || !MirrorRefuses(s.ledger, root, d'))
    ensures r.Ok? ==> r.value == if d' == s.documents[root] then s else Committed(s, root, d')
    ensures r.Err? && JournalValid(d') ==> r.error == StaleAttemptFence
    ensures !JournalValid(d') ==> r == Err(InvalidEffectJournal)
  {
    hide JournalValid, MirrorRefuses, Mirrored;
    if !JournalValid(d') { return Err(InvalidEffectJournal); }
    if d' == s.documents[root] { return Ok(s); }
    var ledger := MirrorAuthority(s.ledger, root, d', true);
    if ledger.Err? { return Err(StaleAttemptFence); }
    return Ok(s.(documents := s.documents[root := d'], ledger := ledger.value));
  }

  /** A transaction whose change keeps the document's invariant always commits. */
  method CommitChange(s: Scope, root: string, d': Document) returns (s': Scope)
    requires ScopeInv(s) && root in s.documents && d' != s.documents[root]
    requires DocumentInv(root, d') && DocumentEvolves(s.documents[root], d')
    requires d'.records.Keys == s.documents[root].records.Keys
    ensures s' == Committed(s, root, d') && s' != s
    ensures ScopeInv(s') && ScopeEvolves(s, s')
    ensures s'.documents == s.documents[root := d'] && s'.invoked == s.invoked
  {
    hide ScopeInv, ScopeEvolves, DocumentInv, DocumentEvolves, JournalValid, MirrorRefuses;
    CommitsKeep(s, root, d');
    var committed := Commit(s, root, d');
    s' := committed.value;
    CommittedShape(s, root, d');
  }

  lemma CommittedShape(s: Scope, root: string, d': Document)
    ensures Committed(s, root, d').documents == s.documents[root := d'] && Committed(s, root, d').invoked == s.invoked
    ensures Committed(s, root, d').ledger.generation == s.ledger.generation + 1
  {}
}
