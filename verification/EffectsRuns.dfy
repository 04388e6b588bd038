/** Whole runs of the effect host: which steps there are, and what holds over any of them. */
module EffectsRuns {
  import opened Options
  import opened Queueing
  import opened CheckpointV1
  import opened Effects
  import opened EffectsInvariant
  import opened EffectsChanges
  import opened EffectsHost
  import opened EffectsProtocol
  import O = CheckpointOutbox

  // ---------------------------------------------------------------- the steps

  ghost predicate ClaimStep(s: Scope, s': Scope) {
    exists root, e, principal, epoch, expires, now, evidence :: ClaimsTo(s, root, e, principal, epoch, expires, now, evidence, s')
  }

  predicate ClaimsTo(s: Scope, root: string, e: EffectId, principal: string, epoch: nat, expires: int, now: int,
                     evidence: Option<bool>, s': Scope)
  {
    && MayClaim(s, root, e, epoch, expires, now, evidence)
    && s' == Committed(s, root, Claimed(s.documents[root], e, NextClaim(s, root, e, principal, epoch, expires)))
  }

  /** A handler is invoked for a live lease. */
  predicate InvokesTo(s: Scope, root: string, e: EffectId, principal: string, now: int, s': Scope) {
    && root in s.documents && e in s.documents[root].records && s.documents[root].records[e].invocation == Leased
    && LiveClaim(s.ledger, s.documents[root], e, principal, s.documents[root].records[e].fence, now)
    && s' == s.(invoked := s.invoked + {(e, s.documents[root].records[e].fence)})
  }

  /** The holder of the current, unexpired lease ends its attempt. */
  predicate HolderReports(s: Scope, root: string, q: ResultRequest, principal: string, epoch: nat, now: int,
                          clock: Option<int>, clock': Option<int>, s': Scope)
  {
    HoldsLease(s, root, q, principal, epoch, now, clock, clock') && ReportsTo(s, root, q, s')
  }

  ghost predicate ReportStep(s: Scope, s': Scope) {
    exists root, q, principal, epoch, now, clock, clock' :: HolderReports(s, root, q, principal, epoch, now, clock, clock', s')
  }

  /** An answer is stored for an outcome that was admitted before. */
  ghost predicate AnswersLate(s: Scope, root: string, q: ResultRequest, s': Scope) {
    && Answers(s, root, q, s')
    && var r := s.documents[root].records[q.effect];
       r.outcome.Some? && r.outcome.value.fence == q.fence && Decided(r.invocation) && r.invocation != OutcomeRecorded
  }

  ghost predicate CancelStep(s: Scope, root: string, q: CancelRequest, epoch: nat, s': Scope) {
    NewCancel(s, root, q, epoch) && CancelsTo(s, root, q, s')
  }

  ghost predicate ProduceStep(s: Scope, root: string, q: ProduceRequest, c: Checkpoint, route: Route, s': Scope) {
    && ProducesTo(s, root, q, c, route, s') && CoreSteps(s.documents[root].checkpoint, q.target, c)
    && !MirrorRefuses(s.ledger, root, s'.documents[root])
  }

  ghost predicate SeedStep(s: Scope, c: Checkpoint, s': Scope) {
    Stored(c) && c.rootInstance !in s.documents && c.rootInstance in s.ledger.roots && s' == SeededScope(s, c)
  }

  /** One committed transaction of the host, or one invocation of a handler. A crash between
      transactions changes nothing, so it needs no step of its own. */
  ghost predicate Next(s: Scope, s': Scope) {
    || (exists c :: SeedStep(s, c, s'))
    || ClaimStep(s, s')
    || (exists root, e, principal, now :: InvokesTo(s, root, e, principal, now, s'))
    || ReportStep(s, s')
    || (exists root, e :: AdmitsTo(s, root, e, s'))
    || (exists root, q :: AnswersLate(s, root, q, s'))
    || (exists root, e :: LosesTo(s, root, e, s'))
    || (exists root, q, epoch :: CancelStep(s, root, q, epoch, s'))
    || (exists root, e, outcome :: TerminalizesTo(s, root, e, outcome, s'))
    || (exists root, q, c, route :: ProduceStep(s, root, q, c, route, s'))
  }

  // ---------------------------------------------------------------- every step keeps the invariant

  /** A committed change of one document. */
  lemma ChangeKeeps(s: Scope, root: string, d': Document)
    requires ScopeInv(s) && root in s.documents && DocumentInv(root, d') && DocumentEvolves(s.documents[root], d')
    requires d'.records.Keys == s.documents[root].records.Keys
    ensures ScopeInv(Committed(s, root, d')) && ScopeEvolves(s, Committed(s, root, d'))
  {
    hide ScopeInv, ScopeEvolves, DocumentInv, DocumentEvolves, Committed, JournalValid, MirrorRefuses;
    CommitsKeep(s, root, d');
  }

  lemma ClaimKeeps(s: Scope, root: string, e: EffectId, principal: string, epoch: nat, expires: int, now: int,
                   evidence: Option<bool>, s': Scope)
    requires ScopeInv(s) && ClaimsTo(s, root, e, principal, epoch, expires, now, evidence, s')
    ensures ScopeInv(s') && ScopeEvolves(s, s')
  {
    hide ScopeInv, ScopeEvolves, DocumentInv, DocumentEvolves, Committed, JournalValid, Stored, PairValid, LedgerInv;
    InScope(s, root);
    ClaimedKeeps(root, s.documents[root], e, NextClaim(s, root, e, principal, epoch, expires));
    ChangeKeeps(s, root, Claimed(s.documents[root], e, NextClaim(s, root, e, principal, epoch, expires)));
  }

  lemma ReportKeepsScope(s: Scope, root: string, q: ResultRequest, s': Scope)
    requires ScopeInv(s) && ReportsTo(s, root, q, s') && Reportable(s.documents[root], q)
    ensures ScopeInv(s') && ScopeEvolves(s, s')
  {
    hide ScopeInv, ScopeEvolves, DocumentInv, DocumentEvolves, Committed, JournalValid, Stored, PairValid, LedgerInv;
    InScope(s, root);
    var d := s.documents[root];
    if q.kind.Ended? {
      OutcomeKeeps(root, d, q);
      ChangeKeeps(s, root, WithOutcome(d, q));
    } else {
      ReportKeeps(root, d, q);
      ChangeKeeps(s, root, WithReport(d, q));
    }
  }

  lemma AdmitKeepsScope(s: Scope, root: string, e: EffectId, s': Scope)
    requires ScopeInv(s) && AdmitsTo(s, root, e, s')
    ensures ScopeInv(s') && ScopeEvolves(s, s')
  {
    hide ScopeInv, ScopeEvolves, DocumentInv, DocumentEvolves, Committed, JournalValid, Stored, PairValid, LedgerInv, AdmitsOne;
    InScope(s, root);
    var d := s.documents[root];
    var c := AdmittedOne(d.checkpoint, ResultOf(root, e, d.records[e]));
    AdmissionKeeps(root, d, e, c);
    ChangeKeeps(s, root, WithAdmission(d, e, c));
  }

  lemma AnswerKeepsScope(s: Scope, root: string, q: ResultRequest, s': Scope)
    requires ScopeInv(s) && AnswersLate(s, root, q, s')
    ensures ScopeInv(s') && ScopeEvolves(s, s')
  {
    hide ScopeInv, ScopeEvolves, DocumentInv, DocumentEvolves, Committed, JournalValid;
    var d := s.documents[root];
    var a := CommittedResponse(d, d.records[q.effect]);
    AnswerKeeps(s, root, q, a);
    ChangeKeeps(s, root, d.(answers := d.answers[(q.effect, q.fence) := a]));
  }

  lemma LossKeepsScope(s: Scope, root: string, e: EffectId, s': Scope)
    requires ScopeInv(s) && LosesTo(s, root, e, s')
    ensures ScopeInv(s') && ScopeEvolves(s, s')
  {
    hide ScopeInv, ScopeEvolves, DocumentInv, DocumentEvolves, Committed, JournalValid, Stored, PairValid, LedgerInv;
    InScope(s, root);
    LossKeeps(root, s.documents[root], e);
    ChangeKeeps(s, root, WithLoss(s.documents[root], e));
  }

  lemma CancelKeepsScope(s: Scope, root: string, q: CancelRequest, s': Scope)
    requires ScopeInv(s) && CancelsTo(s, root, q, s')
    ensures ScopeInv(s') && ScopeEvolves(s, s')
  {
    hide ScopeInv, ScopeEvolves, DocumentInv, DocumentEvolves, Committed, JournalValid, Stored, PairValid, LedgerInv;
    InScope(s, root);
    var d := s.documents[root];
    if MayPrevent(d, q) {
      PreventKeeps(root, d, q);
      ChangeKeeps(s, root, WithCancellation(d, q, CancelledRecord(q.effect, d.records[q.effect], q)));
    } else {
      LateCancelKeeps(root, d, q);
      ChangeKeeps(s, root, WithCancellation(d, q, LateCancelRecord(d.records[q.effect], q)));
    }
  }

  lemma TerminalizeKeepsScope(s: Scope, root: string, e: EffectId, outcome: string, s': Scope)
    requires ScopeInv(s) && TerminalizesTo(s, root, e, outcome, s')
    ensures ScopeInv(s') && ScopeEvolves(s, s')
  {
    hide ScopeInv, ScopeEvolves, DocumentInv, DocumentEvolves, Committed, JournalValid, Stored, PairValid, LedgerInv, Extends;
    InScope(s, root);
    var d := s.documents[root];
    var i :| PendingEffect(d.checkpoint, i, e)
      && s' == Committed(s, root, WithCheckpoint(d, O.TerminalizedDocument(d.checkpoint, i, outcome)));
    TerminalizedExtends(d.checkpoint, i, outcome);
    CheckpointKeeps(root, d, O.TerminalizedDocument(d.checkpoint, i, outcome));
    ChangeKeeps(s, root, WithCheckpoint(d, O.TerminalizedDocument(d.checkpoint, i, outcome)));
  }

  lemma ProduceKeepsScope(s: Scope, root: string, q: ProduceRequest, c: Checkpoint, route: Route, s': Scope)
    requires ScopeInv(s) && ProduceStep(s, root, q, c, route, s')
    ensures ScopeInv(s') && ScopeEvolves(s, s')
  {
    hide ScopeInv, ScopeEvolves, DocumentInv, DocumentEvolves, Mirrored, JournalValid, Stored, PairValid, LedgerInv, Extends,
      MirrorRefuses, ProducesRecords, CoreSteps;
    InScope(s, root);
    var d := s.documents[root];
    StepExtends(d.checkpoint, q.target, c);
    var records :| ProducesRecords(d, c, NewRecord(q.token, route), records)
      && s' == Committed(s, root, WithProduction(d, q, c, records));
    ProductionKeeps(root, d, q, c, route, records);
    CommitKeeps(s, root, WithProduction(d, q, c, records), true, s');
  }

  /** Every step keeps the scope's invariant, and every record only evolves. */
  lemma NextKeeps(s: Scope, s': Scope)
    requires ScopeInv(s) && Next(s, s')
    ensures ScopeInv(s') && ScopeEvolves(s, s')
  {
    hide ScopeInv, ScopeEvolves, SeedStep, ClaimsTo, InvokesTo, HolderReports, AdmitsTo, AnswersLate, LosesTo, CancelStep,
      TerminalizesTo, ProduceStep;
    if c :| SeedStep(s, c, s') {
      SeedStepKeeps(s, c, s');
    } else if root, e, principal, epoch, expires, now, evidence :| ClaimsTo(s, root, e, principal, epoch, expires, now, evidence, s') {
      ClaimKeeps(s, root, e, principal, epoch, expires, now, evidence, s');
    } else if root, e, principal, now :| InvokesTo(s, root, e, principal, now, s') {
      InvokeKeeps(s, root, e, principal, now, s');
    } else if root, q, principal, epoch, now, clock, clock' :| HolderReports(s, root, q, principal, epoch, now, clock, clock', s') {
      HolderKeeps(s, root, q, principal, epoch, now, clock, clock', s');
    } else if root, e :| AdmitsTo(s, root, e, s') {
      AdmitKeepsScope(s, root, e, s');
    } else if root, q :| AnswersLate(s, root, q, s') {
      AnswerKeepsScope(s, root, q, s');
    } else if root, e :| LosesTo(s, root, e, s') {
      LossKeepsScope(s, root, e, s');
    } else if root, q, epoch :| CancelStep(s, root, q, epoch, s') {
      CancelStepKeeps(s, root, q, epoch, s');
    } else if root, e, outcome :| TerminalizesTo(s, root, e, outcome, s') {
      TerminalizeKeepsScope(s, root, e, outcome, s');
    } else {
      var root, q, c, route :| ProduceStep(s, root, q, c, route, s');
      ProduceKeepsScope(s, root, q, c, route, s');
    }
  }

  lemma SeedStepKeeps(s: Scope, c: Checkpoint, s': Scope)
    requires ScopeInv(s) && SeedStep(s, c, s')
    ensures ScopeInv(s') && ScopeEvolves(s, s')
  {
    hide ScopeInv, ScopeEvolves, Stored, SeededScope;
    SeedKeeps(s, c);
  }

  lemma InvokeKeeps(s: Scope, root: string, e: EffectId, principal: string, now: int, s': Scope)
    requires ScopeInv(s) && InvokesTo(s, root, e, principal, now, s')
    ensures ScopeInv(s') && ScopeEvolves(s, s')
  {
    hide ScopeInv, ScopeEvolves;
    InvokedKeeps(s, root, e);
  }

  lemma HolderKeeps(s: Scope, root: string, q: ResultRequest, principal: string, epoch: nat, now: int,
                    clock: Option<int>, clock': Option<int>, s': Scope)
    requires ScopeInv(s) && HolderReports(s, root, q, principal, epoch, now, clock, clock', s')
    ensures ScopeInv(s') && ScopeEvolves(s, s')
  {
    hide ScopeInv, ScopeEvolves, ReportsTo;
    ReportKeepsScope(s, root, q, s');
  }

  lemma CancelStepKeeps(s: Scope, root: string, q: CancelRequest, epoch: nat, s': Scope)
    requires ScopeInv(s) && CancelStep(s, root, q, epoch, s')
    ensures ScopeInv(s') && ScopeEvolves(s, s')
  {
    hide ScopeInv, ScopeEvolves, CancelsTo;
    CancelKeepsScope(s, root, q, s');
  }

  // ---------------------------------------------------------------- runs

  ghost predicate Run(ss: seq<Scope>) {
    && |ss| > 0 && ScopeInv(ss[0])
    && forall i | 0 <= i < |ss| - 1 :: Next(ss[i], ss[i + 1])
  }

  lemma {:induction false} RunKeeps(ss: seq<Scope>, i: nat, j: nat)
    requires Run(ss) && i <= j < |ss|
    ensures ScopeInv(ss[j]) && ScopeEvolves(ss[i], ss[j])
    decreases j
  {
    hide ScopeInv, ScopeEvolves, Next;
    if j == 0 {
      Stays(ss[0]);
    } else {
      RunKeeps(ss, j - 1, j - 1);
      assert Next(ss[j - 1], ss[j - 1 + 1]);
      NextKeeps(ss[j - 1], ss[j]);
      if i < j {
        RunKeeps(ss, i, j - 1);
        ScopeEvolvesTransitive(ss[i], ss[j - 1], ss[j]);
      } else {
        Stays(ss[j]);
      }
    }
  }

  ghost predicate RecordAt(s: Scope, root: string, e: EffectId, r: EffectRecord) {
    root in s.documents && e in s.documents[root].records && s.documents[root].records[e] == r
  }

  lemma RecordLater(ss: seq<Scope>, i: nat, j: nat, root: string, e: EffectId, r: EffectRecord) returns (r': EffectRecord)
    requires Run(ss) && i <= j < |ss| && RecordAt(ss[i], root, e, r)
    ensures RecordAt(ss[j], root, e, r') && RecordEvolves(r, r')
  {
    hide ScopeInv, Next;
    RunKeeps(ss, i, j);
    r' := ss[j].documents[root].records[e];
  }

  /** In every state of every run: the report fences of an effect are exactly 1 to f, or 1 to
      f - 1 while it is leased at fence f. No issued attempt is lost or reported twice. */
  lemma ReportFences(ss: seq<Scope>, i: nat, root: string, e: EffectId, r: EffectRecord)
    requires Run(ss) && i < |ss| && RecordAt(ss[i], root, e, r)
    ensures ReportsExact(r)
  {
    hide ScopeInv, Next;
    RunKeeps(ss, i, i);
    InScope(ss[i], root);
    RecordIn(root, ss[i].documents[root], e);
  }

  /** An outcome, once set, is there for good, with its event id; nothing is reported after it. */
  lemma OutcomeForGood(ss: seq<Scope>, i: nat, j: nat, root: string, e: EffectId, r: EffectRecord)
    requires Run(ss) && i <= j < |ss| && RecordAt(ss[i], root, e, r) && r.outcome.Some?
    ensures exists r' :: RecordAt(ss[j], root, e, r') && r'.outcome == r.outcome && r'.event == r.event && r'.fence == r.fence
  {
    hide Run;
    var r' := RecordLater(ss, i, j, root, e, r);
  }

  /** Who may set an outcome: the holder of the current unexpired lease, or a cancellation of an
      effect that was never claimed. */
  lemma OutcomeSetter(s: Scope, s': Scope, root: string, e: EffectId, r: EffectRecord, r': EffectRecord)
    requires ScopeInv(s) && Next(s, s') && RecordAt(s, root, e, r) && RecordAt(s', root, e, r')
    requires r.outcome.None? && r'.outcome.Some?
    ensures
      || (exists q, principal, epoch, now, clock, clock' ::
            && HolderReports(s, root, q, principal, epoch, now, clock, clock', s')
            && q.effect == e && q.kind == Ended(r'.outcome.value.kind) && r'.outcome.value.fence == r.fence)
      || (exists q, epoch :: CancelStep(s, root, q, epoch, s') && q.effect == e && r.fence == 0 && r'.outcome.value.kind == Cancelled)
  {
    hide ScopeInv, Mirrored, Stored, CoreSteps, NewCancel, HoldsLease;
    if r0, q, principal, epoch, now, clock, clock' :| HolderReports(s, r0, q, principal, epoch, now, clock, clock', s') {
      HolderSets(s, s', root, e, r, r', r0, q, principal, epoch, now, clock, clock');
    } else if r0, q, epoch :| CancelStep(s, r0, q, epoch, s') {
      CancelSets(s, s', root, e, r, r', r0, q, epoch);
    } else {
      OthersKeepOutcome(s, s', root, e, r);
    }
  }

  lemma HolderSets(s: Scope, s': Scope, root: string, e: EffectId, r: EffectRecord, r': EffectRecord, r0: string, q: ResultRequest,
                   principal: string, epoch: nat, now: int, clock: Option<int>, clock': Option<int>)
    requires RecordAt(s, root, e, r) && RecordAt(s', root, e, r') && r.outcome.None? && r'.outcome.Some?
    requires HolderReports(s, r0, q, principal, epoch, now, clock, clock', s')
    ensures r0 == root && q.effect == e && q.kind == Ended(r'.outcome.value.kind) && r'.outcome.value.fence == r.fence
  {
    hide Mirrored;
  }

  lemma CancelSets(s: Scope, s': Scope, root: string, e: EffectId, r: EffectRecord, r': EffectRecord, r0: string, q: CancelRequest, epoch: nat)
    requires RecordAt(s, root, e, r) && RecordAt(s', root, e, r') && r.outcome.None? && r'.outcome.Some?
    requires CancelStep(s, r0, q, epoch, s')
    ensures r0 == root && q.effect == e && r.fence == 0 && r'.outcome.value.kind == Cancelled
  {
    hide Mirrored;
  }

  lemma OthersKeepOutcome(s: Scope, s': Scope, root: string, e: EffectId, r: EffectRecord)
    requires Next(s, s') && RecordAt(s, root, e, r)
    requires !ReportStep(s, s') && forall r0, q, epoch :: !CancelStep(s, r0, q, epoch, s')
    ensures root in s'.documents && e in s'.documents[root].records && s'.documents[root].records[e].outcome == r.outcome
  {
    hide Mirrored, Stored, CoreSteps, NewCancel, HoldsLease, MayClaim, LiveClaim, CancelStep, ReportStep, AdmitsOne;
  }

  /** If a cancellation prevented the start of an effect, no handler is ever invoked for it, at
      any point of the run, before or after. */
  lemma PreventedNeverInvoked(ss: seq<Scope>, i: nat, j: nat, root: string, e: EffectId, r: EffectRecord, fence: nat)
    requires Run(ss) && i < |ss| && j < |ss| && RecordAt(ss[i], root, e, r) && Prevented(r)
    ensures (e, fence) !in ss[j].invoked
  {
    hide Run, ScopeInv;
    if i <= j {
      var r' := RecordLater(ss, i, j, root, e, r);
      RunKeeps(ss, j, j);
      PreventedNow(ss[j], root, e, r', fence);
    } else {
      RunKeeps(ss, j, i);
      PreventedNow(ss[i], root, e, r, fence);
    }
  }

  lemma PreventedNow(s: Scope, root: string, e: EffectId, r: EffectRecord, fence: nat)
    requires ScopeInv(s) && RecordAt(s, root, e, r) && Prevented(r)
    ensures (e, fence) !in s.invoked
  {
    hide Stored, JournalValid;
    InScope(s, root);
    RecordIn(root, s.documents[root], e);
    assert s.ledger.fences[e] == r.fence == 0;
  }

  /** Ledger and journal agree in every state of every run: same fence, and a live claim exactly
      when the journal holds the lease, equal on both sides. */
  lemma LedgerAgrees(ss: seq<Scope>, i: nat, root: string, e: EffectId, r: EffectRecord)
    requires Run(ss) && i < |ss| && RecordAt(ss[i], root, e, r)
    ensures var l := ss[i].ledger;
      && e in l.fences && l.fences[e] == r.fence
      && (e in l.active <==> r.invocation == Leased)
      && (e in l.active ==> e in ss[i].documents[root].claims && l.active[e] == ss[i].documents[root].claims[e])
      && (e in l.active ==> l.active[e].fence == r.fence && l.active[e].token == r.token && l.active[e].active)
  {
    hide ScopeInv, Next, Stored, JournalValid;
    RunKeeps(ss, i, i);
    InScope(ss[i], root);
    RecordIn(root, ss[i].documents[root], e);
  }

  // ---------------------------------------------------------------- crash confluence

  /** What a recovery of the one watched effect ends in, when its outcome was recorded. */
  lemma RecoversAdmitted(s: Scope, root: string, e: EffectId, s': Scope)
    requires Recorded(s, root, e) && RecoversTo(s, root, e, s')
    ensures AdmitsTo(s, root, e, s')
  {
    hide AdmitsTo;
  }

  lemma AdmittedSame(s: Scope, root: string, e: EffectId, x: Scope, y: Scope)
    requires AdmitsTo(s, root, e, x) && AdmitsTo(s, root, e, y)
    ensures x == y
  {
    hide Mirrored, AdmitsOne;
  }

  /** The effects that still need recovery after an outcome was recorded are those of before. */
  lemma OnlyReported(s: Scope, root: string, q: ResultRequest, s': Scope)
    requires ReportsTo(s, root, q, s') && q.kind.Ended? && OnlyWatched(s.documents[root], q.effect)
    ensures root in s'.documents && q.effect in s'.documents[root].records
    ensures OnlyWatched(s'.documents[root], q.effect)
    ensures s'.documents[root].records[q.effect].invocation == OutcomeRecorded
  {
    CommittedShape(s, root, WithOutcome(s.documents[root], q));
  }

  lemma NoneWatched(s: Scope, root: string, e: EffectId, epoch: nat)
    requires root in s.documents && e in s.documents[root].records
    requires forall f | f in s.documents[root].records :: !Watched(s.documents[root].records[f])
    requires s.ledger.state == Active && s.ledger.epoch == epoch
    ensures OnlyWatched(s.documents[root], e) && Recoverable(s, root, e, epoch)
  {}

  /** Two hosts hold equal scopes in which one effect is outstanding. On one the holder of its
      lease submits the outcome; on the other the host crashes as soon as the outcome is durable
      and recovers afterwards. The scopes end equal, and recovering once more changes nothing. */
  method CrashConfluence(
    steady: EffectHost, crashing: EffectHost, root: string, q: ResultRequest, principal: string, epoch: nat, now: int,
    clock: Option<int>, clock': Option<int>)
    returns (submitted: Result<ResultStatus>, recorded: Result<ResultStatus>, recovered: Result<()>, again: Result<()>)
    requires steady != crashing && ScopeInv(steady.scope) && crashing.scope == steady.scope
    requires crashing.routeEpoch == epoch && q.kind.Ended?
    requires Submittable(steady.scope, root, q, principal, epoch, now, clock, clock')
    requires OnlyWatched(steady.scope.documents[root], q.effect)
    modifies steady`scope, crashing`scope
    ensures submitted.Ok? && recorded.Ok? && recovered.Ok? && again.Ok?
    ensures SubmitsTo(old(steady.scope), root, q, steady.scope)
    ensures crashing.scope == steady.scope
  {
    hide ScopeInv, ScopeEvolves, ReportsTo, AdmitsTo, RecoversTo, Submitted, OnlyWatched, ResultDeliverable, HoldsLease,
      RetainedReport, Admittable;
    ghost var s := steady.scope;
    submitted := steady.SubmitResult(root, q, principal, epoch, now, clock, clock');
    recorded := crashing.RecordResult(root, q, principal, epoch, now, clock, clock');
    ghost var s1 := crashing.scope;
    HoldersScope(s, root, q, principal, epoch, now, clock, clock');
    StillDeliverable(s, root, q, s1);
    ReportsRecorded(s, root, q, s1);
    OnlyReported(s, root, q, s1);
    recovered := crashing.Recover(root);
    ghost var s2 := crashing.scope;
    RecoversAdmitted(s1, root, q.effect, s2);
    SubmitsAdmit(s, root, q, s1, steady.scope);
    AdmittedSame(s1, root, q.effect, steady.scope, s2);
    NoneWatched(s2, root, q.effect, epoch);
    again := crashing.Recover(root);
  }

  lemma SubmitsAdmit(s: Scope, root: string, q: ResultRequest, s1: Scope, s': Scope)
    requires ReportsTo(s, root, q, s1) && SubmitsTo(s, root, q, s')
    ensures AdmitsTo(s1, root, q.effect, s')
  {
    hide AdmitsTo, Committed;
  }
}
