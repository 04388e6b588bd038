/** The claim, dispatch, report, record and admit protocol as a class over one scope. Every
    method says which transaction happened and exactly when; `ScopeInv` holds after each. */
module EffectsProtocol {
  import opened Options
  import opened Queueing
  import opened CheckpointV1
  import opened Effects
  import opened EffectsInvariant
  import opened EffectsChanges
  import opened EffectsHost
  import H = CheckpointHost
  import O = CheckpointOutbox

  /** A lease may be issued now, under this evidence of a deduplicating destination. */
  predicate MayClaim(s: Scope, root: string, e: EffectId, epoch: nat, expires: int, now: int, evidence: Option<bool>) {
    && Open(s, root, Some(epoch)) && e in s.documents[root].records
    && evidence != Some(false)
    && Time(now) && Time(expires) && now < expires
    && var r := s.documents[root].records[e];
       r.invocation == Unclaimed || (r.invocation == Ambiguous && evidence == Some(true) && r.deduplicates)
  }

  function NextClaim(s: Scope, root: string, e: EffectId, principal: string, epoch: nat, expires: int): Claim
    requires root in s.documents && e in s.documents[root].records
  {
    var r := s.documents[root].records[e];
    Claim(root, e, r.token, epoch, r.fence + 1, principal, expires, true)
  }

  /** The result fits the journal: its effect is there and maps that outcome. */
  predicate Reports(s: Scope, root: string, q: ResultRequest) {
    && root in s.documents && q.effect in s.documents[root].records
    && (q.kind.Ended? ==> q.kind.kind in s.documents[root].records[q.effect].mapping)
  }

  /** The scope once the live attempt of a worker has ended with this result. */
  function ReportedScope(s: Scope, root: string, q: ResultRequest): Scope
    requires Reports(s, root, q)
  {
    Committed(s, root, if q.kind.Ended? then WithOutcome(s.documents[root], q) else WithReport(s.documents[root], q))
  }

  predicate ReportsTo(s: Scope, root: string, q: ResultRequest, s': Scope) {
    Reports(s, root, q) && s' == ReportedScope(s, root, q)
  }

  /** The holder of the live lease submits something that can be delivered. */
  ghost predicate Submittable(s: Scope, root: string, q: ResultRequest, principal: string, epoch: nat, now: int,
                              clock: Option<int>, clock': Option<int>)
  {
    && HoldsLease(s, root, q, principal, epoch, now, clock, clock')
    && (q.kind.Ended? ==> ResultDeliverable(s.documents[root], q))
  }

  ghost predicate ResultDeliverable(d: Document, q: ResultRequest) {
    && q.effect in d.records && q.kind.Ended? && q.kind.kind in d.records[q.effect].mapping
    && DeliverableTo(d, q.effect, q.kind.kind, q.payload)
  }

  /** `_result_delivery`: the pinned target is live and the core would accept the result. */
  ghost predicate DeliverableTo(d: Document, e: EffectId, kind: Kind, payload: string)
    requires e in d.records && kind in d.records[e].mapping
  {
    && d.checkpoint.root.Retained? && d.records[e].target in d.checkpoint.root.aggregate.boxes
    && Acceptable(d.checkpoint, ResultDelivery(d.checkpoint.rootInstance, e, d.records[e], kind, payload))
  }

  /** The recorded outcome of `e` would be accepted. */
  ghost predicate Admittable(s: Scope, root: string, e: EffectId) {
    && Recorded(s, root, e)
    && DeliverableTo(s.documents[root], e, s.documents[root].records[e].outcome.value.kind,
                     s.documents[root].records[e].outcome.value.payload)
  }

  /** The scope may be mutated, and a recorded outcome of `e`, if there is one, is accepted. */
  ghost predicate Recoverable(s: Scope, root: string, e: EffectId, epoch: nat)
    requires root in s.documents && e in s.documents[root].records
  {
    && s.ledger.state == Active && s.ledger.epoch == epoch
    && (s.documents[root].records[e].invocation == OutcomeRecorded ==> Admittable(s, root, e))
  }

  class EffectHost {
    var scope: Scope
    var route: Route
    var routeEpoch: nat

    constructor (roots: set<string>, epoch: nat, route: Route)
      ensures ScopeInv(scope) && scope.documents == map[] && scope.invoked == {}
    {
      scope := Scope(map[], Ledger(Active, epoch, 0, roots, map[], map[], map[], {}, {}), {});
      this.route := route;
      routeEpoch := epoch;
    }

    /** `seed` with a journal that has no effect yet. */
    method Seed(checkpoint: Checkpoint) returns (result: Result<()>)
      requires ScopeInv(scope) && Stored(checkpoint)
      modifies this`scope
      ensures ScopeInv(scope) && ScopeEvolves(old(scope), scope)
      ensures result.Ok? <==>
        && checkpoint.rootInstance !in old(scope).documents && old(scope).ledger.state == Active
        && old(scope).ledger.epoch == routeEpoch && checkpoint.rootInstance in old(scope).ledger.roots
      ensures result.Err? ==> scope == old(scope)
      ensures result.Ok? ==> scope == SeededScope(old(scope), checkpoint)
    {
      var root := checkpoint.rootInstance;
      if root in scope.documents { return Err(WrongRoot); }
      if scope.ledger.state != Active || scope.ledger.epoch != routeEpoch { return Err(StaleScopeAuthority); }
      if root !in scope.ledger.roots { return Err(UnauthorizedScope); }
      hide ScopeInv, ScopeEvolves, Stored, Mirrored, MirrorRefuses;
      var d := EmptyDocument(checkpoint);
      var ledger := MirrorAuthority(scope.ledger, root, d, true);
      SeedKeeps(scope, checkpoint);
      scope := scope.(documents := scope.documents[root := d], ledger := ledger.value);
      return Ok(());
    }

    /** `claim`. `evidence` is the verdict of the installed handler on submitted evidence. */
    method IssueClaim(root: string, e: EffectId, principal: string, epoch: nat, expires: int, now: int, evidence: Option<bool>)
      returns (result: Result<Claim>)
      requires ScopeInv(scope)
      modifies this`scope
      ensures ScopeInv(scope) && ScopeEvolves(old(scope), scope)
      ensures result.Ok? <==> MayClaim(old(scope), root, e, epoch, expires, now, evidence)
      ensures result.Err? ==> scope == old(scope)
      ensures result.Ok? ==>
        && result.value == NextClaim(old(scope), root, e, principal, epoch, expires)
        && scope == Committed(old(scope), root, Claimed(old(scope).documents[root], e, result.value))
    {
      hide ScopeInv, ScopeEvolves, DocumentInv, DocumentEvolves, JournalValid, Mirrored, MirrorRefuses, Located, Stored, Committed;
      Stays(scope);
      if root !in scope.documents { return Err(WrongRoot); }
      if scope.ledger.state != Active || scope.ledger.epoch != epoch { return Err(StaleScopeAuthority); }
      var d := scope.documents[root];
      if e !in d.records { return Err(EffectNotOutstanding); }
      if evidence == Some(false) { return Err(HostCapabilityMismatch); }
      if !Time(now) || !Time(expires) || expires <= now { return Err(StaleAttemptFence); }
      var r := d.records[e];
      if r.invocation != Unclaimed && r.invocation != Ambiguous { return Err(EffectNotOutstanding); }
      if r.invocation == Ambiguous && !(evidence == Some(true) && r.deduplicates) { return Err(EffectNotOutstanding); }
      var claim := Claim(root, e, r.token, epoch, r.fence + 1, principal, expires, true);
      InScope(scope, root);
      ClaimedKeeps(root, d, e, claim);
      ClaimedFacts(d, e, claim);
      hide Claimed;
      scope := CommitChange(scope, root, Claimed(d, e, claim));
      return Ok(claim);
    }

    /** `dispatch`: the handler is invoked for a live lease; the journal does not change. The
        invocation stands even when the lease runs out before the transaction ends. */
    method Dispatch(root: string, e: EffectId, principal: string, epoch: nat, now: int,
                    clock: Option<int>, clock': Option<int>, authorized: bool)
      returns (result: Result<()>)
      requires ScopeInv(scope)
      modifies this`scope
      ensures ScopeInv(scope) && ScopeEvolves(old(scope), scope)
      ensures scope.documents == old(scope).documents && scope.ledger == old(scope).ledger
      ensures result.Ok? ==>
        && root in old(scope).documents && e in old(scope).documents[root].records
        && (e, old(scope).documents[root].records[e].fence) in scope.invoked
      ensures scope != old(scope) ==>
        && Open(old(scope), root, Some(epoch)) && e in old(scope).documents[root].records
        && old(scope).documents[root].records[e].invocation == Leased && authorized
        && LiveClaim(old(scope).ledger, old(scope).documents[root], e, principal, old(scope).documents[root].records[e].fence, now)
        && Live(clock, old(scope).ledger.active[e].expires)
        && scope.invoked == old(scope).invoked + {(e, old(scope).documents[root].records[e].fence)}
    {
      hide ScopeInv, ScopeEvolves, DocumentInv, DocumentEvolves, JournalValid, Mirrored, MirrorRefuses, Located, Stored, Committed;
      Stays(scope);
      if clock.None? { return Err(StaleAttemptFence); }
      if root !in scope.documents { return Err(WrongRoot); }
      var d := scope.documents[root];
      if e !in d.records { return Err(EffectNotOutstanding); }
      if scope.ledger.state != Active || scope.ledger.epoch != epoch { return Err(StaleScopeAuthority); }
      var guarded := GuardWorker(scope, root, e, principal, d.records[e].fence, now, clock);
      if guarded.Some? { return Err(guarded.value); }
      var r := d.records[e];
      if r.invocation != Leased { return Err(EffectNotOutstanding); }
      LeasedIs(scope, root, e);
      if !Authorized(d, e, r.token, r.fence, principal, epoch, clock.value, false) {
        return Err(StaleAttemptFence);
      }
      if !authorized { return Err(UnauthorizedScope); }
      InvokedKeeps(scope, root, e);
      scope := scope.(invoked := scope.invoked + {(e, r.fence)});
      if clock'.None? || !Authorized(d, e, r.token, r.fence, principal, epoch, clock'.value, false) {
        return Err(StaleAttemptFence);
      }
      return Ok(());
    }

    /** `_record_result`: the durable half of `submit_result`. */
    method RecordResult(root: string, q: ResultRequest, principal: string, epoch: nat, now: int,
                        clock: Option<int>, clock': Option<int>)
      returns (result: Result<ResultStatus>)
      requires ScopeInv(scope)
      modifies this`scope
      ensures ScopeInv(scope) && ScopeEvolves(old(scope), scope)
      ensures result.Err? ==> scope == old(scope)
      ensures scope != old(scope) ==>
        && HoldsLease(old(scope), root, q, principal, epoch, now, clock, clock')
        && ReportsTo(old(scope), root, q, scope)
      ensures Submittable(old(scope), root, q, principal, epoch, now, clock, clock') ==>
        result.Ok? && ReportsTo(old(scope), root, q, scope)
      ensures result.Ok? ==>
        && root in scope.documents && q.effect in scope.documents[root].records
        && RetainedReport(scope.documents[root].records[q.effect], q)
      ensures result.Ok? && q.kind.Ended? ==>
        && root in scope.documents && q.effect in scope.documents[root].records
        && Decided(scope.documents[root].records[q.effect].invocation)
        && scope.documents[root].records[q.effect].outcome == Some(Outcome(q.kind.kind, q.payload, q.fence))
        && (scope == old(scope) ==> !Watched(scope.documents[root].records[q.effect]))
    {
      hide ScopeInv, ScopeEvolves, DocumentInv, DocumentEvolves, JournalValid, Mirrored, MirrorRefuses, Located, Stored, Committed;
      Stays(scope);
      if root !in scope.documents { return Err(WrongRoot); }
      var d := scope.documents[root];
      if q.effect !in d.records { return Err(EffectNotOutstanding); }
      var r := d.records[q.effect];
      if r.invocation == Leased { LeasedIs(scope, root, q.effect); }
      if scope.ledger.state != Active || scope.ledger.epoch != epoch { return Err(StaleScopeAuthority); }
      var guarded := GuardWorker(scope, root, q.effect, principal, q.fence, now, clock);
      if guarded.Some? { return Err(guarded.value); }
      var retained := RetainedReport(r, q);
      var replay := retained && (!q.kind.Ended? || r.receipt.Some?);
      if !Authorized(d, q.effect, q.token, q.fence, principal, epoch, now, replay) {
        return Err(AuthorizeError(d, q.effect, q.token, q.fence, principal, epoch));
      }
      if (q.effect, q.fence) in d.requests || ReportedAt(r, q.fence) {
        if !retained || ((q.effect, q.fence) in d.requests && d.requests[(q.effect, q.fence)] != q) {
          return Err(EffectResultConflict);
        }
        RetainedIs(scope, root, q);
        if q.effect in scope.ledger.active { UnlessLeased(scope, root, q.effect); }
        if (q.effect, q.fence) in d.answers { return Ok(d.answers[(q.effect, q.fence)].status); }
        return Ok(if r.receipt.Some? then CommittedResult else if q.kind.Ended? then OutcomeOnly else ReportRecorded);
      }
      if r.invocation != Leased { return Err(EffectNotOutstanding); }
      result, scope := ReportLive(scope, root, q, clock');
    }

    /** `submit_result`: the outcome is durable first; its admission is a transaction of its own. */
    method SubmitResult(root: string, q: ResultRequest, principal: string, epoch: nat, now: int,
                        clock: Option<int>, clock': Option<int>)
      returns (result: Result<ResultStatus>)
      requires ScopeInv(scope)
      modifies this`scope
      ensures ScopeInv(scope) && ScopeEvolves(old(scope), scope)
      ensures scope == old(scope) || Submitted(old(scope), root, q, scope)
      ensures Submittable(old(scope), root, q, principal, epoch, now, clock, clock') ==>
        && result.Ok?
        && (if q.kind.Ended? then SubmitsTo(old(scope), root, q, scope) else ReportsTo(old(scope), root, q, scope))
      ensures result.Err? ==>
        || scope == old(scope)
        || (q.kind.Ended? && ReportsTo(old(scope), root, q, scope) && Recorded(scope, root, q.effect))
      ensures result.Ok? ==>
        && root in scope.documents && q.effect in scope.documents[root].records
        && RetainedReport(scope.documents[root].records[q.effect], q)
      ensures result.Ok? && q.kind.Ended? ==>
        && scope.documents[root].records[q.effect].outcome == Some(Outcome(q.kind.kind, q.payload, q.fence))
        && scope.documents[root].records[q.effect].invocation in {ResultAdmitted, Closed}
    {
      hide ScopeInv, ScopeEvolves, DocumentInv, DocumentEvolves, JournalValid, Mirrored, MirrorRefuses, Located, Stored, Committed,
        ReportsTo, AdmitsTo, ResultDeliverable, HoldsLease;
      ghost var before := scope;
      result := RecordResult(root, q, principal, epoch, now, clock, clock');
      if result.Err? || !q.kind.Ended? { return; }
      ghost var recorded := scope;
      if Submittable(before, root, q, principal, epoch, now, clock, clock') {
        StillDeliverable(before, root, q, scope);
        HoldersScope(before, root, q, principal, epoch, now, clock, clock');
      }
      if scope != before { ReportsRecorded(before, root, q, scope); }
      result := AdmitStage(root, q, epoch);
      ScopeEvolvesTransitive(before, recorded, scope);
      if Submittable(before, root, q, principal, epoch, now, clock, clock') {
        SubmitsBoth(before, root, q, recorded, scope);
      }
    }

    /** The admission stage of `submit_result`, which a crash may separate from the record stage. */
    method AdmitStage(root: string, q: ResultRequest, epoch: nat) returns (result: Result<ResultStatus>)
      requires ScopeInv(scope) && q.kind.Ended?
      requires root in scope.documents && q.effect in scope.documents[root].records
      requires scope.documents[root].records[q.effect].outcome == Some(Outcome(q.kind.kind, q.payload, q.fence))
      requires Decided(scope.documents[root].records[q.effect].invocation)
      modifies this`scope
      ensures ScopeInv(scope) && ScopeEvolves(old(scope), scope)
      ensures !Watched(old(scope).documents[root].records[q.effect]) ==> scope == old(scope) || Answers(old(scope), root, q, scope)
      ensures Recorded(old(scope), root, q.effect) ==>
        scope == old(scope) || AdmitsTo(old(scope), root, q.effect, scope)
      ensures
        (&& Recorded(old(scope), root, q.effect) && Open(old(scope), root, Some(epoch))
         && ResultDeliverable(old(scope).documents[root], q)) ==>
        result.Ok? && AdmitsTo(old(scope), root, q.effect, scope)
      ensures result.Err? ==> scope == old(scope)
      ensures root in scope.documents && q.effect in scope.documents[root].records
      ensures scope.documents[root].records[q.effect].reports == old(scope).documents[root].records[q.effect].reports
      ensures scope.documents[root].records[q.effect].outcome == old(scope).documents[root].records[q.effect].outcome
      ensures result.Ok? ==> scope.documents[root].records[q.effect].invocation in {ResultAdmitted, Closed}
    {
      hide ScopeInv, ScopeEvolves, DocumentInv, DocumentEvolves, JournalValid, Mirrored, MirrorRefuses, Located, Stored, Committed;
      Stays(scope);
      if scope.ledger.state != Active || scope.ledger.epoch != epoch { return Err(StaleScopeAuthority); }
      var d := scope.documents[root];
      if (q.effect, q.fence) in d.answers {
        AnsweredIs(scope, root, q);
        return Ok(d.answers[(q.effect, q.fence)].status);
      }
      if d.records[q.effect].invocation == OutcomeRecorded {
        RecordedIs(scope, root, q.effect);
        result, scope := AdmitRecorded(scope, root, q.effect);
        return;
      }
      var response := CommittedResponse(d, d.records[q.effect]);
      AnswerKeeps(scope, root, q, response);
      scope := CommitChange(scope, root, d.(answers := d.answers[(q.effect, q.fence) := response]));
      return Ok(CommittedResult);
    }

    /** `recover`, one effect: its own atomic transaction. */
    method RecoverOne(root: string, e: EffectId) returns (result: Result<()>)
      requires ScopeInv(scope) && root in scope.documents && e in scope.documents[root].records
      modifies this`scope
      ensures ScopeInv(scope) && ScopeEvolves(old(scope), scope)
      ensures scope == old(scope) || RecoversTo(old(scope), root, e, scope)
      ensures result.Ok? && Watched(old(scope).documents[root].records[e]) ==> scope != old(scope)
      ensures root in scope.documents && scope.documents[root].records.Keys == old(scope).documents[root].records.Keys
      ensures forall f | f in scope.documents[root].records && f != e ::
        scope.documents[root].records[f] == old(scope).documents[root].records[f]
      ensures result.Ok? ==> !Watched(scope.documents[root].records[e])
      ensures !Watched(old(scope).documents[root].records[e]) ==> scope == old(scope)
      ensures result.Ok? <==> Recoverable(old(scope), root, e, routeEpoch)
      ensures scope.ledger.state == old(scope).ledger.state && scope.ledger.epoch == old(scope).ledger.epoch
    {
      hide ScopeInv, ScopeEvolves, DocumentInv, DocumentEvolves, JournalValid, Mirrored, MirrorRefuses, Located, Stored, Committed;
      Stays(scope);
      if scope.ledger.state != Active || scope.ledger.epoch != routeEpoch { return Err(StaleScopeAuthority); }
      var d := scope.documents[root];
      if d.records[e].invocation == OutcomeRecorded {
        RecordedIs(scope, root, e);
        var admitted, s' := AdmitRecorded(scope, root, e);
        scope := s';
        return if admitted.Ok? then Ok(()) else Err(admitted.error);
      }
      if d.records[e].invocation == Leased {
        InScope(scope, root);
        LossKeeps(root, d, e);
        CommittedState(scope, root, WithLoss(d, e));
        scope := CommitChange(scope, root, WithLoss(d, e));
      }
      return Ok(());
    }

    /** `recover`: every effect of the snapshot, in turn. */
    method Recover(root: string) returns (result: Result<()>)
      requires ScopeInv(scope) && root in scope.documents
      modifies this`scope
      ensures ScopeInv(scope) && ScopeEvolves(old(scope), scope) && root in scope.documents
      ensures scope.documents[root].records.Keys == old(scope).documents[root].records.Keys
      ensures scope.ledger.state == old(scope).ledger.state && scope.ledger.epoch == old(scope).ledger.epoch
      ensures result.Ok? ==> forall e | e in scope.documents[root].records :: !Watched(scope.documents[root].records[e])
      ensures (forall e | e in old(scope).documents[root].records :: !Watched(old(scope).documents[root].records[e])) ==>
        scope == old(scope)
      ensures forall e | e in old(scope).documents[root].records && OnlyWatched(old(scope).documents[root], e) ::
        && (scope == old(scope) || RecoversTo(old(scope), root, e, scope))
        && (Recoverable(old(scope), root, e, routeEpoch) ==> result.Ok?)
    {
      hide ScopeInv, ScopeEvolves, DocumentInv, DocumentEvolves, JournalValid, Mirrored, MirrorRefuses, Located, Stored, Committed, RecoversTo,
        Admittable;
      ghost var before := scope;
      Stays(scope);
      var left := scope.documents[root].records.Keys;
      while left != {}
        invariant ScopeInv(scope) && ScopeEvolves(before, scope) && root in scope.documents
        invariant scope.documents[root].records.Keys == before.documents[root].records.Keys && left <= scope.documents[root].records.Keys
        invariant forall e | e in left :: scope.documents[root].records[e] == before.documents[root].records[e]
        invariant forall e | e in scope.documents[root].records && e !in left :: !Watched(scope.documents[root].records[e])
        invariant forall e | e in before.documents[root].records && OnlyWatched(before.documents[root], e) ::
          scope == before || (e !in left && RecoversTo(before, root, e, scope))
        invariant scope.ledger.state == before.ledger.state && scope.ledger.epoch == before.ledger.epoch
        invariant (forall e | e in before.documents[root].records :: !Watched(before.documents[root].records[e])) ==> scope == before
        decreases left
      {
        var e :| e in left;
        ghost var previous := scope;
        var one := RecoverOne(root, e);
        ScopeEvolvesTransitive(before, previous, scope);
        if one.Err? { return one; }
        left := left - {e};
      }
      return Ok(());
    }

    /** `cancel`. */
    method Cancel(root: string, q: CancelRequest) returns (result: Result<CancelState>)
      requires ScopeInv(scope)
      modifies this`scope
      ensures ScopeInv(scope) && ScopeEvolves(old(scope), scope)
      ensures result.Err? ==> scope == old(scope)
      ensures scope != old(scope) ==> NewCancel(old(scope), root, q, routeEpoch) && CancelsTo(old(scope), root, q, scope)
      ensures NewCancel(old(scope), root, q, routeEpoch) && !MayPrevent(old(scope).documents[root], q) ==>
        (result == Err(InvalidEffectJournal) <==> Prevented(old(scope).documents[root].records[q.effect]))
        && (result.Ok? <==> !Prevented(old(scope).documents[root].records[q.effect]))
    {
      hide ScopeInv, ScopeEvolves, DocumentInv, DocumentEvolves, JournalValid, Mirrored, MirrorRefuses, Located, Stored, Committed;
      Stays(scope);
      if root !in scope.documents { return Err(WrongRoot); }
      if scope.ledger.state != Active || scope.ledger.epoch != routeEpoch { return Err(StaleScopeAuthority); }
      var d := scope.documents[root];
      if q.effect !in d.records { return Err(EffectNotOutstanding); }
      if q.operation in d.responses {
        match d.responses[q.operation] {
          case CancelAnswered(request, cancellation, _, _, _) =>
            return if request == q then Ok(cancellation.state) else Err(OperationIdConflict);
          case Produced(_, _) =>
            return Err(OperationIdConflict);
        }
      }
      result, scope := CancelNew(scope, root, q);
    }

    /** `terminalize_outbox` of the effect host: adapter acceptance, not the end of the invocation. */
    method TerminalizeOutbox(root: string, e: EffectId, outcome: string) returns (result: Result<()>)
      requires ScopeInv(scope)
      modifies this`scope
      ensures ScopeInv(scope) && ScopeEvolves(old(scope), scope)
      ensures result.Err? ==> scope == old(scope)
      ensures scope != old(scope) ==> TerminalizesTo(old(scope), root, e, outcome, scope)
    {
      hide ScopeInv, ScopeEvolves, DocumentInv, DocumentEvolves, JournalValid, Mirrored, MirrorRefuses, Located, Stored, Committed;
      Stays(scope);
      if root !in scope.documents { return Err(WrongRoot); }
      if scope.ledger.state != Active || scope.ledger.epoch != routeEpoch { return Err(StaleScopeAuthority); }
      var d := scope.documents[root];
      if e !in d.records { return Err(EffectNotOutstanding); }
      var j := H.FindTerminalEffect(d.checkpoint, e);
      if 0 <= j { return if d.checkpoint.terminalOutbox[j].outcome == outcome then Ok(()) else Err(EffectResultConflict); }
      var i := H.FindPendingEffect(d.checkpoint, e);
      if i < 0 { return Err(EffectNotOutstanding); }
      InScope(scope, root);
      TerminalizedExtends(d.checkpoint, i, outcome);
      var c := O.TerminalizedDocument(d.checkpoint, i, outcome);
      CheckpointKeeps(root, d, c);
      scope := CommitChange(scope, root, WithCheckpoint(d, c));
      return Ok(());
    }

    /** `produce`: the core's step, a blank record for each new effect, and the stored answer.
        `decide` and `overflow` are the engine's dispatch of the ready head, as in a step of the
        checkpoint; `foreign` are the effects whose correlation is not the request's token. */
    method Produce(
      root: string, q: ProduceRequest, expected: H.Expected, still: set<string>, capacity: Option<nat>,
      order: seq<RuntimeId>, decide: Dispatched, overflow: Dispatched, foreign: set<EffectId>, generation: nat)
      returns (result: Result<()>)
      requires ScopeInv(scope)
      requires root in scope.documents && scope.documents[root].checkpoint.root.Retained? ==>
                 H.Dispatchable(scope.documents[root].checkpoint, order, decide, overflow)
      modifies this`scope
      ensures ScopeInv(scope) && ScopeEvolves(old(scope), scope)
      ensures result.Err? ==> scope == old(scope)
      ensures scope != old(scope) ==>
        && Open(old(scope), root, Some(routeEpoch)) && q.operation !in old(scope).documents[root].responses
        && generation == route.generation
        && H.Matches(old(scope).documents[root].checkpoint, expected)
        && exists disposition, c ::
             && H.StepsTo(old(scope).documents[root].checkpoint, q.target, capacity, decide, disposition, c)
             && ProducesTo(old(scope), root, q, c, route, scope)
      ensures result.Ok? && scope == old(scope) ==>
        && root in old(scope).documents && q.operation in old(scope).documents[root].responses
        && old(scope).documents[root].responses[q.operation].Produced?
        && old(scope).documents[root].responses[q.operation].request == q
    {
      hide ScopeInv, JournalValid, Located, DocumentInv, Mirrored, Extends, Stored, H.StepsTo, H.Dispatchable, H.Matches,
        ScopeEvolves, ProducesTo, ProducesRecords;
      Stays(scope);
      if root !in scope.documents { return Err(WrongRoot); }
      if scope.ledger.state != Active || scope.ledger.epoch != routeEpoch { return Err(StaleScopeAuthority); }
      var d := scope.documents[root];
      if q.operation in d.responses {
        match d.responses[q.operation] {
          case Produced(request, _) =>
            return if request == q then Ok(()) else Err(OperationIdConflict);
          case CancelAnswered(_, _, _, _, _) =>
            return Err(OperationIdConflict);
        }
      }
      if generation != route.generation { return Err(ScopeGenerationConflict); }
      InScope(scope, root);
      var stepped := StepCore(d.checkpoint, q.target, expected, still, capacity, order, decide, overflow);
      if stepped.Err? { return Err(stepped.error); }
      var pinned := PinIntents(d, stepped.value, foreign, NewRecord(q.token, route));
      if pinned.Err? { return Err(pinned.error); }
      result, scope := ProduceCommit(scope, root, q, stepped.value, route, pinned.value);
    }
  }

  /** The core's step inside `produce`, which takes only a committed one. */
  method StepCore(
    c: Checkpoint, target: RuntimeId, expected: H.Expected, still: set<string>, capacity: Option<nat>,
    order: seq<RuntimeId>, decide: Dispatched, overflow: Dispatched)
    returns (r: Result<Checkpoint>)
    requires Stored(c) && (c.root.Retained? ==> H.Dispatchable(c, order, decide, overflow))
    ensures r.Ok? ==> H.Matches(c, expected) && exists disposition :: H.StepsTo(c, target, capacity, decide, disposition, r.value)
    ensures r.Ok? ==> CoreSteps(c, target, r.value) && Extends(c, r.value)
  {
    hide Stored, H.Dispatchable, H.StepsTo, Extends;
    if expected.revision != c.revision || expected.digest != CheckpointDigest(c) { return Err(CoreRefused); }
    if c.root.TombstonedRoot? { return Err(CoreRefused); }
    var a := c.root.aggregate;
    if target in a.boxes && a.boxes[target].ready == [] { return Err(InvalidHostRequest); }
    var outcome, c' := H.StepRetained(c, target, still, capacity, order, decide, overflow);
    if !outcome.StepCommitted? { return Err(InvalidHostRequest); }
    StepExtends(c, target, c');
    return Ok(c');
  }

  // ---------------------------------------------------------------- the parts of the operations

  predicate RetainedReport(r: EffectRecord, q: ResultRequest) {
    exists i | 0 <= i < |r.reports| :: r.reports[i] == ReportOf(q)
  }

  lemma LeasedIs(s: Scope, root: string, e: EffectId)
    requires ScopeInv(s) && root in s.documents && e in s.documents[root].records
    requires s.documents[root].records[e].invocation == Leased
    ensures e in s.ledger.active && e in s.documents[root].claims && s.ledger.active[e] == s.documents[root].claims[e]
    ensures e in s.ledger.fences && s.ledger.fences[e] == s.documents[root].records[e].fence >= 1 && e in s.ledger.work
    ensures forall i | 0 <= i < |s.documents[root].records[e].reports| ::
      s.documents[root].records[e].reports[i].fence < s.documents[root].records[e].fence
    ensures (e, s.documents[root].records[e].fence) !in s.documents[root].requests
  {
    hide Stored, JournalValid, RecordValid;
    InScope(s, root);
    RecordIn(root, s.documents[root], e);
  }

  lemma UnlessLeased(s: Scope, root: string, e: EffectId)
    requires ScopeInv(s) && root in s.documents && e in s.documents[root].records && e in s.ledger.active
    ensures s.documents[root].records[e].invocation == Leased
  {
    InScope(s, root);
  }

  lemma ReportsRecorded(s: Scope, root: string, q: ResultRequest, s': Scope)
    requires q.kind.Ended? && ReportsTo(s, root, q, s')
    ensures Recorded(s', root, q.effect)
  {
    CommittedShape(s, root, WithOutcome(s.documents[root], q));
  }

  lemma InvokedKeeps(s: Scope, root: string, e: EffectId)
    requires ScopeInv(s) && root in s.documents && e in s.documents[root].records
    requires s.documents[root].records[e].invocation == Leased
    ensures var s' := s.(invoked := s.invoked + {(e, s.documents[root].records[e].fence)});
      ScopeInv(s') && ScopeEvolves(s, s')
  {
    hide DocumentInv, PairValid, DocumentEvolves;
    LeasedIs(s, root, e);
    Stays(s);
    var s' := s.(invoked := s.invoked + {(e, s.documents[root].records[e].fence)});
    assert LedgerInv(s');
    hide LedgerInv;
  }

  /** A report the journal still has: its request's outcome, if any, is the record's outcome. */
  lemma RetainedIs(s: Scope, root: string, q: ResultRequest)
    requires ScopeInv(s) && root in s.documents && q.effect in s.documents[root].records
    requires RetainedReport(s.documents[root].records[q.effect], q)
    ensures q.kind.Ended? ==>
      && Decided(s.documents[root].records[q.effect].invocation)
      && s.documents[root].records[q.effect].outcome == Some(Outcome(q.kind.kind, q.payload, q.fence))
  {
    hide Stored, JournalValid, LedgerInv, Located;
    var d := s.documents[root];
    var r := d.records[q.effect];
    RecordIn(root, d, q.effect);
    var i :| 0 <= i < |r.reports| && r.reports[i] == ReportOf(q);
    assert r.reports[i].fence == i + 1;
  }

  lemma ReportedFacts(d: Document, q: ResultRequest, d': Document)
    requires q.effect in d.records
    requires if q.kind.Ended? then q.kind.kind in d.records[q.effect].mapping && d' == WithOutcome(d, q) else d' == WithReport(d, q)
    ensures d' != d && d'.records.Keys == d.records.Keys && q.effect in d'.records
    ensures RetainedReport(d'.records[q.effect], q)
    ensures q.kind.Ended? ==>
      && Decided(d'.records[q.effect].invocation)
      && d'.records[q.effect].outcome == Some(Outcome(q.kind.kind, q.payload, q.fence))
  {
    assert d'.records[q.effect].reports[|d.records[q.effect].reports|] == ReportOf(q);
    assert d'.revision != d.revision;
  }

  lemma ClaimedFacts(d: Document, e: EffectId, k: Claim)
    requires e in d.records
    ensures Claimed(d, e, k) != d && Claimed(d, e, k).records.Keys == d.records.Keys
  {
    assert Claimed(d, e, k).revision != d.revision;
  }

  /** The live attempt is reported: delivery check, change, commit, and the lease must still be
      live when the transaction ends. */
  method ReportLive(s: Scope, root: string, q: ResultRequest, clock': Option<int>) returns (result: Result<ResultStatus>, s': Scope)
    requires ScopeInv(s) && root in s.documents && Reportable(s.documents[root], q) && q.effect in s.documents[root].claims
    ensures ScopeInv(s') && ScopeEvolves(s, s')
    ensures result.Err? ==> s' == s
    ensures result.Ok? ==> ReportsTo(s, root, q, s') && s' != s && Live(clock', s.documents[root].claims[q.effect].expires)
    ensures result.Ok? ==>
      && root in s'.documents && q.effect in s'.documents[root].records
      && RetainedReport(s'.documents[root].records[q.effect], q)
    ensures result.Ok? && q.kind.Ended? ==>
      && Decided(s'.documents[root].records[q.effect].invocation)
      && s'.documents[root].records[q.effect].outcome == Some(Outcome(q.kind.kind, q.payload, q.fence))
    ensures result.Ok? <==>
      Live(clock', s.documents[root].claims[q.effect].expires) && (q.kind.Ended? ==> ResultDeliverable(s.documents[root], q))
  {
    hide ScopeInv, ScopeEvolves, DocumentInv, DocumentEvolves, JournalValid, Mirrored, MirrorRefuses, Located, Stored, Committed, Acceptable,
      WithOutcome, WithReport, RetainedReport;
    Stays(s);
    InScope(s, root);
    var d := s.documents[root];
    var d';
    if q.kind.Ended? {
      if q.kind.kind !in d.records[q.effect].mapping { return Err(InvalidHostRequest), s; }
      var deliverable := CheckDelivery(s, root, q.effect, q.kind.kind, q.payload);
      if deliverable.None? { return Err(InvalidHostRequest), s; }
      d' := WithOutcome(d, q);
      OutcomeKeeps(root, d, q);
    } else {
      d' := WithReport(d, q);
      ReportKeeps(root, d, q);
    }
    ReportedFacts(d, q, d');
    s' := CommitChange(s, root, d');
    if !Live(clock', d.claims[q.effect].expires) { return Err(StaleAttemptFence), s; }
    return Ok(if q.kind.Ended? then OutcomeOnly else ReportRecorded), s';
  }

  /** `_result_delivery`. */
  method CheckDelivery(s: Scope, root: string, e: EffectId, kind: Kind, payload: string) returns (r: Option<Checkpoint>)
    requires ScopeInv(s) && root in s.documents && e in s.documents[root].records && kind in s.documents[root].records[e].mapping
    ensures r.Some? <==> DeliverableTo(s.documents[root], e, kind, payload)
    ensures r.Some? ==>
      AdmitsOne(s.documents[root].checkpoint, ResultDelivery(root, e, s.documents[root].records[e], kind, payload), r.value)
  {
    hide ScopeInv, JournalValid, DocumentInv, Stored, Acceptable, AdmitsOne;
    InScope(s, root);
    var d := s.documents[root];
    if d.checkpoint.root.TombstonedRoot? || d.records[e].target !in d.checkpoint.root.aggregate.boxes { return None; }
    r := TryAdmit(d.checkpoint, ResultDelivery(root, e, d.records[e], kind, payload));
  }

  /** `_admit` of a recorded outcome, with its transaction. */
  method AdmitRecorded(s: Scope, root: string, e: EffectId) returns (result: Result<ResultStatus>, s': Scope)
    requires ScopeInv(s) && Recorded(s, root, e)
    ensures ScopeInv(s') && ScopeEvolves(s, s')
    ensures result.Err? ==> s' == s
    ensures result.Ok? ==> AdmitsTo(s, root, e, s') && s' != s
    ensures s'.ledger.state == s.ledger.state && s'.ledger.epoch == s.ledger.epoch
    ensures result.Ok? ==>
      && root in s'.documents && s'.documents[root].records.Keys == s.documents[root].records.Keys
      && (forall f | f in s.documents[root].records && f != e :: s'.documents[root].records[f] == s.documents[root].records[f])
      && s'.documents[root].records[e].invocation == ResultAdmitted
      && s'.documents[root].records[e].reports == s.documents[root].records[e].reports
      && s'.documents[root].records[e].outcome == s.documents[root].records[e].outcome
    ensures result.Ok? <==>
      DeliverableTo(s.documents[root], e, s.documents[root].records[e].outcome.value.kind, s.documents[root].records[e].outcome.value.payload)
  {
    hide ScopeInv, ScopeEvolves, DocumentInv, DocumentEvolves, JournalValid, Mirrored, MirrorRefuses, Located, Stored, Committed, Acceptable;
    Stays(s);
    InScope(s, root);
    var d := s.documents[root];
    var o := d.records[e].outcome.value;
    var c := CheckDelivery(s, root, e, o.kind, o.payload);
    if c.None? { return Err(InvalidHostRequest), s; }
    AdmissionKeeps(root, d, e, c.value);
    assert AdmitsOne(d.checkpoint, ResultOf(root, e, d.records[e]), c.value);
    OneAdmission(d.checkpoint, ResultOf(root, e, d.records[e]), c.value);
    var d' := WithAdmission(d, e, c.value);
    s' := CommitChange(s, root, d');
    CommittedState(s, root, d');
    return Ok(CommittedResult), s';
  }

  lemma OneAdmission(c: Checkpoint, x: Delivery, c': Checkpoint)
    requires AdmitsOne(c, x, c')
    ensures c.root.Retained? && c' == AdmittedOne(c, x)
  {}

  lemma AnsweredIs(s: Scope, root: string, q: ResultRequest)
    requires ScopeInv(s) && root in s.documents && q.effect in s.documents[root].records
    requires s.documents[root].records[q.effect].outcome.Some? && s.documents[root].records[q.effect].outcome.value.fence == q.fence
    requires (q.effect, q.fence) in s.documents[root].answers
    ensures s.documents[root].records[q.effect].invocation != OutcomeRecorded
  {
    hide Stored, LedgerInv, Located;
    var d := s.documents[root];
    var r := d.records[q.effect];
    RecordIn(root, d, q.effect);
    if 1 <= q.fence <= |r.reports| {
      assert r.reports[q.fence - 1].fence == q.fence;
    }
  }

  lemma AnswerKeeps(s: Scope, root: string, q: ResultRequest, a: ResultResponse)
    requires ScopeInv(s) && root in s.documents && q.effect in s.documents[root].records
    requires s.documents[root].records[q.effect].outcome.Some? && s.documents[root].records[q.effect].outcome.value.fence == q.fence
    requires Decided(s.documents[root].records[q.effect].invocation)
    requires s.documents[root].records[q.effect].invocation != OutcomeRecorded
    ensures var d := s.documents[root];
      var d' := d.(answers := d.answers[(q.effect, q.fence) := a]);
      DocumentInv(root, d') && DocumentEvolves(d, d')
  {
    hide LedgerInv, Located, PairValid, Stored, AnswersOk, ReportsExact, OutcomeLast, OutcomeOk;
    var d := s.documents[root];
    RecordIn(root, d, q.effect);
    AnswerAdded(d, q.effect, q.fence, a, d.(answers := d.answers[(q.effect, q.fence) := a]));
  }

  method CancelNew(s: Scope, root: string, q: CancelRequest) returns (result: Result<CancelState>, s': Scope)
    requires ScopeInv(s) && root in s.documents && q.effect in s.documents[root].records
    ensures ScopeInv(s') && ScopeEvolves(s, s')
    ensures result.Err? ==> s' == s
    ensures result.Ok? ==> CancelsTo(s, root, q, s')
    ensures !MayPrevent(s.documents[root], q) ==>
      (result == Err(InvalidEffectJournal) <==> Prevented(s.documents[root].records[q.effect]))
      && (result.Ok? <==> !Prevented(s.documents[root].records[q.effect]))
  {
    hide ScopeInv, ScopeEvolves, DocumentInv, DocumentEvolves, JournalValid, Mirrored, MirrorRefuses, Located, Stored, Committed;
    Stays(s);
    InScope(s, root);
    var d := s.documents[root];
    var r := d.records[q.effect];
    if r.invocation == Unclaimed && r.fence == 0 {
      if Cancelled !in r.mapping { return Err(InvalidHostRequest), s; }
      var deliverable := CheckDelivery(s, root, q.effect, Cancelled, q.payload);
      if deliverable.None? { return Err(InvalidHostRequest), s; }
      var d' := WithCancellation(d, q, CancelledRecord(q.effect, r, q));
      PreventKeeps(root, d, q);
      s' := CommitChange(s, root, d');
      return Ok(PreventedStart), s';
    }
    var d' := WithCancellation(d, q, LateCancelRecord(r, q));
    LateCancelValid(root, d, q);
    if r.cancellation.None? || r.cancellation.value.state != PreventedStart {
      LateCancelKeeps(root, d, q);
      CommitsKeep(s, root, d');
    }
    var committed := Commit(s, root, d');
    if committed.Err? { return Err(committed.error), s; }
    return Ok(ReconciliationRequired), committed.value;
  }

  /** The pinning loop of `produce`: a blank record for every intent the journal does not know. */
  method PinIntents(d: Document, c: Checkpoint, foreign: set<EffectId>, blank: EffectRecord)
    returns (r: Result<map<EffectId, EffectRecord>>)
    ensures r.Ok? ==> ProducesRecords(d, c, blank, r.value)
    ensures r.Err? ==> r.error == EffectNotOutstanding
    ensures r.Err? ==> exists i ::
      0 <= i < |c.pendingOutbox| && c.pendingOutbox[i].effectId in foreign && c.pendingOutbox[i].effectId !in d.records
  {
    var records := d.records;
    for i := 0 to |c.pendingOutbox|
      invariant forall e | e in d.records :: e in records && records[e] == d.records[e]
      invariant forall j | 0 <= j < i :: c.pendingOutbox[j].effectId in records
      invariant forall e | e in records && e !in d.records ::
        records[e] == blank && exists j :: 0 <= j < |c.pendingOutbox| && c.pendingOutbox[j].effectId == e
    {
      var e := c.pendingOutbox[i].effectId;
      if e !in records {
        if e in foreign { return Err(EffectNotOutstanding); }
        records := records[e := blank];
      }
    }
    return Ok(records);
  }

  method ProduceCommit(s: Scope, root: string, q: ProduceRequest, c: Checkpoint, route: Route, records: map<EffectId, EffectRecord>)
    returns (result: Result<()>, s': Scope)
    requires ScopeInv(s) && root in s.documents && Extends(s.documents[root].checkpoint, c)
    requires ProducesRecords(s.documents[root], c, NewRecord(q.token, route), records)
    ensures ScopeInv(s') && ScopeEvolves(s, s')
    ensures result.Err? ==> s' == s
    ensures result.Ok? ==> ProducesTo(s, root, q, c, route, s') && s' != s
  {
    hide ScopeInv, JournalValid, Located, DocumentInv, Mirrored, ScopeEvolves, Stored, Extends, MirrorRefuses, ProducesRecords,
      DocumentEvolves;
    Stays(s);
    InScope(s, root);
    var d := s.documents[root];
    var d' := WithProduction(d, q, c, records);
    ProductionKeeps(root, d, q, c, route, records);
    DocumentParts(root, d');
    var committed := Commit(s, root, d');
    if committed.Err? { return Err(committed.error), s; }
    CommitKeeps(s, root, d', true, Committed(s, root, d'));
    return Ok(()), committed.value;
  }

  // ---------------------------------------------------------------- what each operation does

  lemma Stays(s: Scope)
    ensures ScopeEvolves(s, s)
  {
    forall root | root in s.documents ensures DocumentEvolves(s.documents[root], s.documents[root]) {
      Unchanged(s.documents[root]);
    }
  }

  function EmptyDocument(c: Checkpoint): Document {
    Document(c, map[], 0, CheckpointDigest(c), map[], map[], map[], map[])
  }

  function SeededScope(s: Scope, c: Checkpoint): Scope {
    var d := EmptyDocument(c);
    s.(documents := s.documents[c.rootInstance := d], ledger := Mirrored(s.ledger, c.rootInstance, d, true))
  }

  lemma EmptyKeeps(c: Checkpoint)
    requires Stored(c)
    ensures DocumentInv(c.rootInstance, EmptyDocument(c))
  {
    hide Stored;
  }

  lemma SeedKeeps(s: Scope, c: Checkpoint)
    requires ScopeInv(s) && Stored(c) && c.rootInstance !in s.documents && c.rootInstance in s.ledger.roots
    ensures ScopeInv(SeededScope(s, c)) && ScopeEvolves(s, SeededScope(s, c))
    ensures !MirrorRefuses(s.ledger, c.rootInstance, EmptyDocument(c))
  {
    hide Stored, DocumentInv, DocumentEvolves, PairValid, LedgerInv, Mirrored;
    EmptyKeeps(c);
    var s' := SeededScope(s, c);
    SeedLedger(s, c);
    SeedLedgerInv(s, c);
    forall root | root in s.documents
      ensures DocumentInv(root, s.documents[root]) && DocumentEvolves(s.documents[root], s'.documents[root])
    {
      assert DocumentInv(root, s.documents[root]);
      Unchanged(s.documents[root]);
    }
    forall root | root in s'.documents
      ensures DocumentInv(root, s'.documents[root])
    {
      if root in s.documents { assert s'.documents[root] == s.documents[root]; }
    }
  }

  lemma SeedLedgerInv(s: Scope, c: Checkpoint)
    requires LedgerInv(s) && c.rootInstance !in s.documents && c.rootInstance in s.ledger.roots
    ensures LedgerInv(SeededScope(s, c))
  {
    hide PairValid, Mirrored;
    SeedLedger(s, c);
    SeedPairs(s, c);
  }

  lemma SeedPairs(s: Scope, c: Checkpoint)
    requires LedgerInv(s) && c.rootInstance !in s.documents && c.rootInstance in s.ledger.roots
    ensures var s' := SeededScope(s, c);
      forall root | root in s'.documents :: PairValid(s'.ledger, root, s'.documents[root])
  {
    var s' := SeededScope(s, c);
    SeedLedger(s, c);
    forall root | root in s'.documents
      ensures PairValid(s'.ledger, root, s'.documents[root])
    {
      if root in s.documents { PairIn(s, root); }
    }
  }

  lemma SeedLedger(s: Scope, c: Checkpoint)
    ensures var l' := SeededScope(s, c).ledger;
      l' == s.ledger.(checkpoints := s.ledger.checkpoints + {CheckpointDigest(c)}, generation := s.ledger.generation + 1)
  {
    assert ClaimsOf(EmptyDocument(c)) == {};
    var none: set<EffectId> := {};
    assert s.ledger.active - none == s.ledger.active;
  }

  /** The outcome was recorded and then admitted. */
  ghost predicate SubmitsTo(s: Scope, root: string, q: ResultRequest, s': Scope) {
    && Reports(s, root, q)
    && AdmitsTo(ReportedScope(s, root, q), root, q.effect, s')
  }

  lemma SubmitsBoth(s: Scope, root: string, q: ResultRequest, s1: Scope, s': Scope)
    requires ReportsTo(s, root, q, s1) && AdmitsTo(s1, root, q.effect, s')
    ensures SubmitsTo(s, root, q, s')
  {}

  /** Recording an outcome leaves what decides its delivery as it was. */
  lemma StillDeliverable(s: Scope, root: string, q: ResultRequest, s': Scope)
    requires q.kind.Ended? && ReportsTo(s, root, q, s') && ResultDeliverable(s.documents[root], q)
    ensures root in s'.documents && ResultDeliverable(s'.documents[root], q)
    ensures Admittable(s', root, q.effect)
    ensures s'.ledger.state == s.ledger.state && s'.ledger.epoch == s.ledger.epoch
  {
    hide Acceptable, Mirrored;
    CommittedShape(s, root, WithOutcome(s.documents[root], q));
    CommittedState(s, root, WithOutcome(s.documents[root], q));
    ReportsRecorded(s, root, q, s');
  }

  lemma CommittedState(s: Scope, root: string, d: Document)
    ensures Committed(s, root, d).ledger.state == s.ledger.state && Committed(s, root, d).ledger.epoch == s.ledger.epoch
  {}

  lemma HoldersScope(s: Scope, root: string, q: ResultRequest, principal: string, epoch: nat, now: int,
                     clock: Option<int>, clock': Option<int>)
    requires HoldsLease(s, root, q, principal, epoch, now, clock, clock')
    ensures Open(s, root, Some(epoch))
  {}

  ghost predicate Submitted(s: Scope, root: string, q: ResultRequest, s': Scope) {
    || ReportsTo(s, root, q, s')
    || (exists s1 :: ReportsTo(s, root, q, s1) && AdmitsTo(s1, root, q.effect, s'))
    || Answers(s, root, q, s')
  }

  /** Only the stored answer of an admitted outcome is added. */
  ghost predicate Answers(s: Scope, root: string, q: ResultRequest, s': Scope) {
    && root in s.documents && q.effect in s.documents[root].records
    && s' == Committed(s, root, s.documents[root].(answers :=
         s.documents[root].answers[(q.effect, q.fence) := CommittedResponse(s.documents[root], s.documents[root].records[q.effect])]))
  }

  /** What recovery of one effect does: a recorded outcome is admitted, a lost lease becomes ambiguous. */
  ghost predicate RecoversTo(s: Scope, root: string, e: EffectId, s': Scope) {
    && root in s.documents && e in s.documents[root].records
    && (AdmitsTo(s, root, e, s') || LosesTo(s, root, e, s'))
  }

  /** The lease of a worker that disappeared ends in an ambiguous report. */
  predicate LosesTo(s: Scope, root: string, e: EffectId, s': Scope) {
    && root in s.documents && e in s.documents[root].records && s.documents[root].records[e].invocation == Leased
    && e in s.documents[root].claims && s' == Committed(s, root, WithLoss(s.documents[root], e))
  }

  predicate OnlyWatched(d: Document, e: EffectId) {
    forall f | f in d.records && f != e :: !Watched(d.records[f])
  }

  ghost predicate NewCancel(s: Scope, root: string, q: CancelRequest, epoch: nat) {
    && Open(s, root, Some(epoch)) && q.effect in s.documents[root].records && q.operation !in s.documents[root].responses
  }

  predicate MayPrevent(d: Document, q: CancelRequest) {
    q.effect in d.records && d.records[q.effect].invocation == Unclaimed && d.records[q.effect].fence == 0
  }

  /** A cancellation before any claim ends the invocation; a later one only asks for reconciliation. */
  ghost predicate CancelsTo(s: Scope, root: string, q: CancelRequest, s': Scope) {
    && root in s.documents && q.effect in s.documents[root].records
    && var d := s.documents[root];
       if MayPrevent(d, q) then
         Preventable(d, q) && s' == Committed(s, root, WithCancellation(d, q, CancelledRecord(q.effect, d.records[q.effect], q)))
       else
         !Prevented(d.records[q.effect])
         && s' == Committed(s, root, WithCancellation(d, q, LateCancelRecord(d.records[q.effect], q)))
  }

  ghost predicate TerminalizesTo(s: Scope, root: string, e: EffectId, outcome: string, s': Scope) {
    && root in s.documents
    && exists i :: PendingEffect(s.documents[root].checkpoint, i, e)
         && s' == Committed(s, root, WithCheckpoint(s.documents[root], O.TerminalizedDocument(s.documents[root].checkpoint, i, outcome)))
  }

  ghost predicate ProducesTo(s: Scope, root: string, q: ProduceRequest, c: Checkpoint, route: Route, s': Scope) {
    && root in s.documents
    && exists records :: ProducesRecords(s.documents[root], c, NewRecord(q.token, route), records)
         && s' == Committed(s, root, WithProduction(s.documents[root], q, c, records))
  }
}
