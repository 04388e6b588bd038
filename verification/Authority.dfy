/** The scope authority (`authority.py`): receipted operations guarded by an epoch and a
    generation, worker fencing, freezing a scope, and doubt about a disconnected writer.

    A request's digest is the request itself, and a result's evidence digest the result. The
    private fault seam is not part of the model. */
module Authority {
  import opened Options
  import opened Queueing
  import opened CheckpointV1
  import opened Effects
  import opened EffectsInvariant
  import opened EffectsChanges
  import opened EffectsHost
  import opened EffectsProtocol
  import opened EffectsRuns

  datatype Operation =
    | ReadAuthority
    | ProveRetirement(evidence: string)
    | FenceWorker(root: string, effect: EffectId, token: string, principal: string, fence: Option<nat>)
    | GuardedCommit(digest: string)
    | FreezeScope

  datatype Request = Request(operation: Operation, id: string, epoch: nat, generation: nat)

  datatype Refusal =
    | ScopeOperationConflict | HostMismatch | InDoubtRefusal | StaleAuthority | GenerationConflict
    | PrincipalMismatch | StaleFence | InvalidRequest

  datatype Response =
    | Rejected(refusal: Refusal, epoch: nat, generation: nat, state: ScopeState)
    | Accepted(request: Request, epoch: nat, generation: nat, state: ScopeState, claim: Option<Claim>)

  datatype AuthorityReceipt = AuthorityReceipt(request: Request, response: Response)

  /** What a freeze lists: everything the scope holds, its receipts and its mutations. */
  datatype Inventory = Inventory(scope: Scope, receipts: seq<AuthorityReceipt>, mutations: seq<string>)

  datatype Authority = Authority(
    scope: Scope, owner: string, fencing: bool, participants: bool, lease: nat,
    receipts: seq<AuthorityReceipt>, mutations: seq<string>, inventory: Option<Inventory>)

  /** Who asks, for which assigned worker, at which trusted time, with which native bytes. */
  datatype Caller = Caller(principal: string, worker: string, clock: Option<int>, mutation: Option<string>)

  predicate ReceiptFor(a: Authority, i: int, id: string) {
    0 <= i < |a.receipts| && a.receipts[i].request.id == id
  }

  ghost predicate Receipted(a: Authority, id: string) {
    exists i :: ReceiptFor(a, i, id)
  }

  ghost predicate AuthorityInv(a: Authority) {
    && ScopeInv(a.scope)
    && (forall i, j, id | ReceiptFor(a, i, id) && ReceiptFor(a, j, id) :: i == j)
    && (forall i | 0 <= i < |a.receipts| :: a.receipts[i].response.Accepted? && a.receipts[i].response.request == a.receipts[i].request)
    && (a.scope.ledger.state == Frozen ==> a.inventory.Some? && a.scope.ledger.fences == map[] && a.scope.ledger.active == map[])
    && (a.inventory.Some? ==> a.scope.ledger.state == Frozen)
  }

  /** The epoch, the generation, the state and the caller allow a mutation. */
  predicate Current(a: Authority, q: Request, caller: Caller) {
    && q.epoch == a.scope.ledger.epoch && q.generation == a.scope.ledger.generation
    && a.scope.ledger.state == Active
    && (q.operation.FenceWorker? || caller.principal == a.owner)
  }

  function Lease(a: Authority, q: Request, caller: Caller): Claim
    requires q.operation.FenceWorker? && q.operation.effect in a.scope.ledger.fences && caller.clock.Some?
  {
    var o := q.operation;
    Claim(o.root, o.effect, o.token, a.scope.ledger.epoch, a.scope.ledger.fences[o.effect] + 1, caller.principal,
          caller.clock.value + a.lease, true)
  }

  ghost predicate NoClaims(l: Ledger, e: EffectId) {
    e !in l.active && forall k | k in l.history :: k.effect != e
  }

  /** Everything `fence_worker` checks, for an effect that a hosted journal owns. */
  ghost predicate MayFence(a: Authority, q: Request, caller: Caller) {
    && q.operation.FenceWorker? && a.fencing && caller.principal == q.operation.principal == caller.worker
    && caller.clock.Some? && Time(caller.clock.value) && caller.clock.value + a.lease < INT64 && a.lease > 0
    && var o, l := q.operation, a.scope.ledger;
       && o.effect in l.fences && o.root in l.roots
       && (o.fence == Some(l.fences[o.effect]) || (o.fence == None && l.fences[o.effect] == 0 && NoClaims(l, o.effect)))
       && o.effect in l.work && l.work[o.effect] == Binding(o.root, o.token)
       && o.root in a.scope.documents && o.effect in a.scope.documents[o.root].records
       && a.scope.documents[o.root].records[o.effect].invocation == Unclaimed
  }

  /** The authority after a mutation: the next generation and a receipt with its result. */
  function Accepting(a: Authority, q: Request, s: Scope, claim: Option<Claim>): Authority {
    var l := s.ledger.(generation := a.scope.ledger.generation + 1);
    a.(scope := s.(ledger := l), receipts := a.receipts + [AuthorityReceipt(q, Accepted(q, l.epoch, l.generation, l.state, claim))])
  }

  function Fenced(a: Authority, q: Request, caller: Caller): Authority
    requires q.operation.FenceWorker? && q.operation.effect in a.scope.ledger.fences && caller.clock.Some?
    requires q.operation.root in a.scope.documents && q.operation.effect in a.scope.documents[q.operation.root].records
  {
    var k := Lease(a, q, caller);
    Accepting(a, q, Committed(a.scope, k.root, Claimed(a.scope.documents[k.root], k.effect, k)), Some(k))
  }

  function Guarded(a: Authority, q: Request, mutation: string): Authority {
    Accepting(a, q, a.scope, None).(mutations := a.mutations + [mutation])
  }

  function FrozenBy(a: Authority, q: Request): Authority {
    var next := Accepting(a, q, a.scope.(ledger := a.scope.ledger.(state := Frozen, active := map[])), None);
    next.(inventory := Some(Inventory(next.scope, next.receipts, next.mutations)))
  }

  predicate MayFreeze(a: Authority) {
    (a.participants ==> a.fencing) && a.scope.ledger.fences == map[] && a.scope.ledger.active == map[]
  }

  /** The outcome of a request that is not a replay. */
  ghost predicate Performs(a: Authority, q: Request, caller: Caller, response: Response, a': Authority) {
    && Current(a, q, caller)
    && match q.operation
       case FenceWorker(_, _, _, _, _) =>
         MayFence(a, q, caller) && a' == Fenced(a, q, caller) && response == a'.receipts[|a.receipts|].response
       case GuardedCommit(digest) =>
         caller.mutation == Some(digest) && a' == Guarded(a, q, digest) && response == a'.receipts[|a.receipts|].response
       case FreezeScope =>
         MayFreeze(a) && a' == FrozenBy(a, q) && response == a'.receipts[|a.receipts|].response
       case _ => false
  }

  /** What a transaction of the colocated execution store leaves: the new checkpoint in the
      ledger, the next generation, and the receipt of a guarded commit. `bytes` is the encoded
      checkpoint and `id` the identity made of its root, revision and digest. */
  function StoreWrites(a: Authority, id: string, bytes: string, current: Checkpoint): Authority {
    var q := Request(GuardedCommit(bytes), id, a.scope.ledger.epoch, a.scope.ledger.generation);
    var l := a.scope.ledger.(checkpoints := a.scope.ledger.checkpoints + {CheckpointDigest(current)});
    Accepting(a, q, a.scope.(ledger := l), None).(mutations := a.mutations + [bytes])
  }

  /** The store may start a transaction on this root, holding this checkpoint. */
  predicate MayStore(a: Authority, owner: string, epoch: nat, root: string, previous: Option<Checkpoint>) {
    && owner == a.owner && epoch == a.scope.ledger.epoch && a.scope.ledger.state == Active && root in a.scope.ledger.roots
    && (previous.Some? ==> CheckpointDigest(previous.value) in a.scope.ledger.checkpoints)
  }

  ghost predicate StoresTo(a: Authority, owner: string, epoch: nat, root: string, previous: Option<Checkpoint>,
                           id: string, bytes: string, current: Checkpoint, a': Authority)
  {
    && MayStore(a, owner, epoch, root, previous) && previous != Some(current) && !Receipted(a, id)
    && a' == StoreWrites(a, id, bytes, current)
  }

  datatype StoreResult = StoreOk | Unauthorized | StaleStore | Unproven | StoreConflict | InvalidCheckpoint

  function Refuse(a: Authority, refusal: Refusal): Response {
    Response.Rejected(refusal, a.scope.ledger.epoch, a.scope.ledger.generation, a.scope.ledger.state)
  }

  class ScopeAuthority {
    var authority: Authority

    /** `_perform`, for a caller with rights on the scope. */
    method Perform(q: Request, caller: Caller) returns (response: Response)
      requires AuthorityInv(authority)
      modifies this
      ensures AuthorityInv(authority)
      ensures forall i | ReceiptFor(old(authority), i, q.id) && q.operation != ReadAuthority ::
        && authority == old(authority)
        && response == if old(authority).receipts[i].request == q then old(authority).receipts[i].response
                       else Refuse(old(authority), ScopeOperationConflict)
      ensures authority == old(authority) || Performs(old(authority), q, caller, response, authority)
      ensures !Receipted(old(authority), q.id) && Current(old(authority), q, caller) ==>
        (authority != old(authority) <==>
           || MayFence(old(authority), q, caller)
           || (q.operation.GuardedCommit? && caller.mutation == Some(q.operation.digest))
           || (q.operation.FreezeScope? && MayFreeze(old(authority))))
      ensures response.Accepted? && q.operation != ReadAuthority ==> Receipted(authority, q.id)
    {
      hide ScopeInv;
      var a := authority;
      if q.operation == ReadAuthority { return Accepted(q, a.scope.ledger.epoch, a.scope.ledger.generation, a.scope.ledger.state, None); }
      var i := FindReceipt(a, q.id);
      if 0 <= i {
        return if a.receipts[i].request == q then a.receipts[i].response else Refuse(a, ScopeOperationConflict);
      }
      response, authority := PerformNew(a, q, caller);
    }

    /** The transaction of `AuthoritySQLiteExecutionStore` around a checkpoint write. */
    method StoreTransaction(owner: string, epoch: nat, root: string, previous: Option<Checkpoint>,
                            current: Option<Checkpoint>, id: string, bytes: string)
      returns (result: StoreResult)
      requires AuthorityInv(authority)
      modifies this
      ensures AuthorityInv(authority)
      ensures result == StoreOk <==>
        && MayStore(old(authority), owner, epoch, root, previous)
        && (current == previous || (current.Some? && !Receipted(old(authority), id)))
      ensures result != StoreOk || current == previous ==> authority == old(authority)
      ensures result == StoreOk && current != previous ==>
        StoresTo(old(authority), owner, epoch, root, previous, id, bytes, current.value, authority)
    {
      hide AuthorityInv;
      var l := authority.scope.ledger;
      if owner != authority.owner || epoch != l.epoch || l.state != Active { return StaleStore; }
      if root !in l.roots { return Unauthorized; }
      if previous.Some? && CheckpointDigest(previous.value) !in l.checkpoints { return Unproven; }
      if current == previous { return StoreOk; }
      if current.None? { return InvalidCheckpoint; }
      var i := FindReceipt(authority, id);
      if 0 <= i { return StoreConflict; }
      StoreKeeps(authority, id, bytes, current.value);
      authority := StoreWrites(authority, id, bytes, current.value);
      return StoreOk;
    }

    /** `_mark_transaction_in_doubt`: freezing waits until the writer's fate is known. */
    method MarkInDoubt() returns (ok: bool)
      requires AuthorityInv(authority)
      modifies this
      ensures AuthorityInv(authority)
      ensures ok <==> old(authority).scope.ledger.state == Active
      ensures authority == if ok then Doubted(old(authority)) else old(authority)
    {
      if authority.scope.ledger.state != Active { return false; }
      DoubtKeeps(authority, InDoubt);
      authority := Doubted(authority);
      return true;
    }

    /** `_resolve_rolled_back_fate`. */
    method ResolveRolledBack(id: string) returns (ok: bool)
      requires AuthorityInv(authority)
      modifies this
      ensures AuthorityInv(authority)
      ensures ok <==> old(authority).scope.ledger.state == InDoubt && !Receipted(old(authority), id)
      ensures authority == if ok then Resolved(old(authority)) else old(authority)
    {
      if authority.scope.ledger.state != InDoubt { return false; }
      var i := FindReceipt(authority, id);
      if 0 <= i { return false; }
      DoubtKeeps(authority, Active);
      authority := Resolved(authority);
      return true;
    }
  }

  function Doubted(a: Authority): Authority {
    a.(scope := a.scope.(ledger := a.scope.ledger.(state := InDoubt)))
  }

  function Resolved(a: Authority): Authority {
    a.(scope := a.scope.(ledger := a.scope.ledger.(state := Active)))
  }

  method FindReceipt(a: Authority, id: string) returns (i: int)
    ensures 0 <= i ==> ReceiptFor(a, i, id)
    ensures i < 0 ==> !Receipted(a, id)
  {
    i := 0;
    while i < |a.receipts|
      invariant 0 <= i <= |a.receipts|
      invariant forall j | 0 <= j < i :: !ReceiptFor(a, j, id)
    {
      if a.receipts[i].request.id == id { return; }
      i := i + 1;
    }
    i := -1;
  }

  method PerformNew(a: Authority, q: Request, caller: Caller) returns (response: Response, a': Authority)
    requires AuthorityInv(a) && !Receipted(a, q.id) && q.operation != ReadAuthority
    ensures AuthorityInv(a')
    ensures a' == a || Performs(a, q, caller, response, a')
    ensures response.Accepted? <==> a' != a
    ensures Current(a, q, caller) ==>
      (a' != a <==>
         || MayFence(a, q, caller)
         || (q.operation.GuardedCommit? && caller.mutation == Some(q.operation.digest))
         || (q.operation.FreezeScope? && MayFreeze(a)))
    ensures a' != a ==> Receipted(a', q.id)
  {
    hide AuthorityInv, Mirrored;
    if q.operation.ProveRetirement? { return Refuse(a, HostMismatch), a; }
    if q.operation.FenceWorker? && !a.fencing { return Refuse(a, HostMismatch), a; }
    if a.scope.ledger.state == InDoubt { return Refuse(a, InDoubtRefusal), a; }
    if q.epoch != a.scope.ledger.epoch { return Refuse(a, StaleAuthority), a; }
    if q.generation != a.scope.ledger.generation { return Refuse(a, GenerationConflict), a; }
    if a.scope.ledger.state != Active || (!q.operation.FenceWorker? && caller.principal != a.owner) {
      return Refuse(a, StaleAuthority), a;
    }
    match q.operation {
      case FenceWorker(_, _, _, _, _) =>
        response, a' := Fence(a, q, caller);
        return;
      case GuardedCommit(digest) =>
        if caller.mutation != Some(digest) { return Refuse(a, InvalidRequest), a; }
        a' := Guarded(a, q, digest);
        GuardKeeps(a, q, digest);
      case FreezeScope =>
        if (a.participants && !a.fencing) || a.scope.ledger.fences != map[] || a.scope.ledger.active != map[] {
          return Refuse(a, HostMismatch), a;
        }
        a' := FrozenBy(a, q);
        FreezeKeeps(a, q);
    }
    assert ReceiptFor(a', |a.receipts|, q.id);
    response := a'.receipts[|a.receipts|].response;
  }

  /** The `fence_worker` branch: an installed effect journal is a participant in the claim. */
  method Fence(a: Authority, q: Request, caller: Caller) returns (response: Response, a': Authority)
    requires AuthorityInv(a) && !Receipted(a, q.id) && q.operation.FenceWorker? && Current(a, q, caller) && a.fencing
    ensures AuthorityInv(a')
    ensures a' == a || Performs(a, q, caller, response, a')
    ensures response.Accepted? <==> a' != a
    ensures a' != a <==> MayFence(a, q, caller)
    ensures a' != a ==> Receipted(a', q.id)
  {
    hide AuthorityInv, Mirrored, ScopeInv, DocumentInv, DocumentEvolves, JournalValid;
    var o, l := q.operation, a.scope.ledger;
    if o.principal != caller.principal { return Refuse(a, PrincipalMismatch), a; }
    if caller.clock.None? || !Time(caller.clock.value) || caller.clock.value + a.lease >= INT64 { return Refuse(a, HostMismatch), a; }
    if o.effect !in l.fences || o.root !in l.roots { return Refuse(a, StaleFence), a; }
    var claimed := AnyClaim(l, o.effect);
    if o.fence != Some(l.fences[o.effect]) && !(o.fence == None && l.fences[o.effect] == 0 && !claimed) {
      return Refuse(a, StaleFence), a;
    }
    if caller.worker != caller.principal { return Refuse(a, PrincipalMismatch), a; }
    HostedWork(a, o.effect);
    if l.work[o.effect] != Binding(o.root, o.token) { return Refuse(a, InvalidRequest), a; }
    var d := a.scope.documents[o.root];
    if a.lease == 0 || d.records[o.effect].invocation != Unclaimed { return Refuse(a, HostMismatch), a; }
    var k := Claim(o.root, o.effect, o.token, l.epoch, l.fences[o.effect] + 1, caller.principal, caller.clock.value + a.lease, true);
    FenceKeeps(a, q, caller);
    var s' := CommitChange(a.scope, o.root, Claimed(d, o.effect, k));
    a' := Accepting(a, q, s', Some(k));
    assert ReceiptFor(a', |a.receipts|, q.id);
    response := a'.receipts[|a.receipts|].response;
  }

  method AnyClaim(l: Ledger, e: EffectId) returns (found: bool)
    ensures found <==> !NoClaims(l, e)
  {
    found := e in l.active || exists k | k in l.history :: k.effect == e;
  }

  // ---------------------------------------------------------------- what the operations keep

  lemma HostedWork(a: Authority, e: EffectId)
    requires AuthorityInv(a) && e in a.scope.ledger.fences
    ensures ScopeInv(a.scope) && e in a.scope.ledger.work
    ensures var root := a.scope.ledger.work[e].root;
      && root in a.scope.documents && e in a.scope.documents[root].records
      && DocumentInv(root, a.scope.documents[root])
      && a.scope.ledger.fences[e] == a.scope.documents[root].records[e].fence
      && a.scope.documents[root].records[e].token == a.scope.ledger.work[e].token
  {
    hide DocumentInv;
    InScope(a.scope, a.scope.ledger.work[e].root);
  }

  /** Guards of the invariant that a new receipt must respect. */
  lemma ReceiptKeeps(a: Authority, a': Authority, q: Request)
    requires AuthorityInv(a) && !Receipted(a, q.id) && ScopeInv(a'.scope)
    requires |a'.receipts| == |a.receipts| + 1 && a'.receipts[..|a.receipts|] == a.receipts
    requires var x := a'.receipts[|a.receipts|]; x.request == q && x.response.Accepted? && x.response.request == q
    requires a'.scope.ledger.state == Frozen ==>
      a'.inventory.Some? && a'.scope.ledger.fences == map[] && a'.scope.ledger.active == map[]
    requires a'.inventory.Some? ==> a'.scope.ledger.state == Frozen
    ensures AuthorityInv(a')
  {
    hide ScopeInv;
    forall i, id | ReceiptFor(a', i, id)
      ensures if i < |a.receipts| then ReceiptFor(a, i, id) else id == q.id && !Receipted(a, id)
    {
      if i < |a.receipts| { assert a'.receipts[i] == a.receipts[i]; }
    }
    forall i | 0 <= i < |a.receipts| ensures a'.receipts[i] == a.receipts[i] {}
  }

  /** The ledger's state and generation do not matter to the scope's invariant. */
  lemma StateAside(s: Scope, state: ScopeState, generation: nat)
    requires ScopeInv(s)
    ensures ScopeInv(s.(ledger := s.ledger.(state := state, generation := generation)))
  {
    hide DocumentInv;
    var s' := s.(ledger := s.ledger.(state := state, generation := generation));
    forall root | root in s.documents
      ensures PairValid(s'.ledger, root, s'.documents[root]) && DocumentInv(root, s'.documents[root])
    {
      InScope(s, root);
    }
  }

  /** Nor does it matter that the ledger knows another checkpoint. */
  lemma CheckpointAside(s: Scope, g: CheckpointDigest, generation: nat)
    requires ScopeInv(s)
    ensures ScopeInv(s.(ledger := s.ledger.(checkpoints := s.ledger.checkpoints + {g}, generation := generation)))
  {
    hide DocumentInv;
    var s' := s.(ledger := s.ledger.(checkpoints := s.ledger.checkpoints + {g}, generation := generation));
    forall root | root in s.documents
      ensures PairValid(s'.ledger, root, s'.documents[root]) && DocumentInv(root, s'.documents[root])
    {
      InScope(s, root);
    }
  }

  lemma StoreKeeps(a: Authority, id: string, bytes: string, current: Checkpoint)
    requires AuthorityInv(a) && !Receipted(a, id) && a.scope.ledger.state == Active
    ensures var a' := StoreWrites(a, id, bytes, current);
      && AuthorityInv(a') && a.receipts <= a'.receipts && Receipted(a', id)
      && a'.scope.ledger.generation == a.scope.ledger.generation + 1
      && a'.scope.ledger.fences == a.scope.ledger.fences && a'.scope.documents == a.scope.documents
  {
    hide ScopeInv;
    var q := Request(GuardedCommit(bytes), id, a.scope.ledger.epoch, a.scope.ledger.generation);
    var a' := StoreWrites(a, id, bytes, current);
    CheckpointAside(a.scope, CheckpointDigest(current), a.scope.ledger.generation + 1);
    ReceiptKeeps(a, a', q);
    assert ReceiptFor(a', |a.receipts|, id);
  }

  lemma GuardKeeps(a: Authority, q: Request, digest: string)
    requires AuthorityInv(a) && !Receipted(a, q.id) && a.scope.ledger.state == Active
    ensures AuthorityInv(Guarded(a, q, digest))
  {
    hide ScopeInv;
    StateAside(a.scope, Active, a.scope.ledger.generation + 1);
    ReceiptKeeps(a, Guarded(a, q, digest), q);
  }

  lemma FreezeKeeps(a: Authority, q: Request)
    requires AuthorityInv(a) && !Receipted(a, q.id) && a.scope.ledger.state == Active && MayFreeze(a)
    ensures AuthorityInv(FrozenBy(a, q))
  {
    hide ScopeInv;
    StateAside(a.scope, Frozen, a.scope.ledger.generation + 1);
    ReceiptKeeps(a, FrozenBy(a, q), q);
  }

  lemma FenceKeeps(a: Authority, q: Request, caller: Caller)
    requires AuthorityInv(a) && !Receipted(a, q.id) && Current(a, q, caller) && MayFence(a, q, caller)
    ensures var k := Lease(a, q, caller);
      var d := a.scope.documents[k.root];
      && DocumentInv(k.root, d) && DocumentInv(k.root, Claimed(d, k.effect, k)) && DocumentEvolves(d, Claimed(d, k.effect, k))
    ensures AuthorityInv(Fenced(a, q, caller))
    ensures ScopeEvolves(a.scope, Fenced(a, q, caller).scope)
  {
    hide ScopeInv, DocumentInv, DocumentEvolves, Mirrored, ScopeEvolves;
    var k := Lease(a, q, caller);
    HostedWork(a, k.effect);
    var d := a.scope.documents[k.root];
    ClaimedKeeps(k.root, d, k.effect, k);
    var s' := Committed(a.scope, k.root, Claimed(d, k.effect, k));
    ChangeKeeps(a.scope, k.root, Claimed(d, k.effect, k));
    CommittedShape(a.scope, k.root, Claimed(d, k.effect, k));
    StateAside(s', s'.ledger.state, a.scope.ledger.generation + 1);
    MirroredState(a.scope.ledger, k.root, Claimed(d, k.effect, k));
    ReceiptKeeps(a, Fenced(a, q, caller), q);
    assert Fenced(a, q, caller).scope == s';
  }

  lemma MirroredState(l: Ledger, root: string, d: Document)
    ensures Mirrored(l, root, d, true).state == l.state && Mirrored(l, root, d, true).generation == l.generation + 1
  {}

  lemma DoubtKeeps(a: Authority, state: ScopeState)
    requires AuthorityInv(a) && a.scope.ledger.state != Frozen && state != Frozen
    ensures AuthorityInv(a.(scope := a.scope.(ledger := a.scope.ledger.(state := state))))
  {
    hide ScopeInv;
    StateAside(a.scope, state, a.scope.ledger.generation);
    var a' := a.(scope := a.scope.(ledger := a.scope.ledger.(state := state)));
    assert forall i, id :: ReceiptFor(a', i, id) <==> ReceiptFor(a, i, id);
  }

  // ---------------------------------------------------------------- runs

  /** One committed authority operation, one write of the execution store, doubt or its
      resolution, or one step of the effect host, which needs an active scope. */
  ghost predicate AuthorityNext(a: Authority, a': Authority) {
    || (exists q: Request, caller, response :: !Receipted(a, q.id) && Performs(a, q, caller, response, a'))
    || (exists owner, epoch, root, previous, id, bytes, current ::
          StoresTo(a, owner, epoch, root, previous, id, bytes, current, a'))
    || (a.scope.ledger.state == Active && a' == Doubted(a))
    || (a.scope.ledger.state == InDoubt && a' == Resolved(a))
    || (a.scope.ledger.state == Active && Next(a.scope, a'.scope) && a' == a.(scope := a'.scope))
  }

  ghost predicate AuthorityRun(aa: seq<Authority>) {
    && |aa| > 0 && AuthorityInv(aa[0])
    && forall i | 0 <= i < |aa| - 1 :: AuthorityNext(aa[i], aa[i + 1])
  }

  lemma AuthorityNextKeeps(a: Authority, a': Authority)
    requires AuthorityInv(a) && AuthorityNext(a, a')
    ensures AuthorityInv(a') && a.receipts <= a'.receipts
    ensures a.scope.ledger.generation <= a'.scope.ledger.generation
    ensures a.scope.ledger.state != Frozen
  {
    hide Next, Mirrored, MayFence, ScopeInv;
    if q: Request, caller, response :| !Receipted(a, q.id) && Performs(a, q, caller, response, a') {
      PerformKeeps(a, q, caller, response, a');
    } else if owner, epoch, root, previous, id, bytes, current :|
                StoresTo(a, owner, epoch, root, previous, id, bytes, current, a') {
      StoreKeeps(a, id, bytes, current);
    } else if a.scope.ledger.state == Active && a' == Doubted(a) {
      DoubtKeeps(a, InDoubt);
    } else if a.scope.ledger.state == InDoubt && a' == Resolved(a) {
      DoubtKeeps(a, Active);
    } else {
      HostStepKeeps(a, a');
    }
  }

  lemma PerformKeeps(a: Authority, q: Request, caller: Caller, response: Response, a': Authority)
    requires AuthorityInv(a) && !Receipted(a, q.id) && Performs(a, q, caller, response, a')
    ensures AuthorityInv(a') && a.receipts <= a'.receipts
    ensures a'.scope.ledger.generation == a.scope.ledger.generation + 1
  {
    hide AuthorityInv, Mirrored;
    match q.operation {
      case FenceWorker(_, _, _, _, _) => FenceKeeps(a, q, caller);
      case GuardedCommit(digest) => GuardKeeps(a, q, digest);
      case FreezeScope => FreezeKeeps(a, q);
      case _ =>
    }
  }

  lemma HostStepKeeps(a: Authority, a': Authority)
    requires AuthorityInv(a) && a.scope.ledger.state == Active && Next(a.scope, a'.scope) && a' == a.(scope := a'.scope)
    ensures AuthorityInv(a') && a.scope.ledger.generation <= a'.scope.ledger.generation
  {
    hide ScopeInv, Next;
    NextKeeps(a.scope, a'.scope);
    NextState(a.scope, a'.scope);
    hide ScopeEvolves;
    assert forall i, id :: ReceiptFor(a', i, id) <==> ReceiptFor(a, i, id);
  }

  /** Host steps do not touch the scope's state. */
  lemma NextState(s: Scope, s': Scope)
    requires Next(s, s')
    ensures s'.ledger.state == s.ledger.state && s'.ledger.epoch == s.ledger.epoch
  {
    hide Stored, CoreSteps, NewCancel, HoldsLease, MayClaim, LiveClaim, AdmitsOne, MirrorRefuses, ProducesRecords;
  }

  /** Each accepted mutating operation raises the generation by exactly one. */
  lemma GenerationStep(a: Authority, q: Request, caller: Caller, response: Response, a': Authority)
    requires AuthorityInv(a) && !Receipted(a, q.id) && Performs(a, q, caller, response, a')
    ensures a'.scope.ledger.generation == a.scope.ledger.generation + 1
    ensures response.Accepted? && response.generation == a'.scope.ledger.generation
    ensures a'.receipts == a.receipts + [AuthorityReceipt(q, response)]
  {
    hide Mirrored, MayFence;
    PerformKeeps(a, q, caller, response, a');
  }

  /** So does every write of the execution store; two writes never share an identity. */
  lemma StoreStep(a: Authority, owner: string, epoch: nat, root: string, previous: Option<Checkpoint>, id: string,
                  bytes: string, current: Checkpoint, a': Authority)
    requires AuthorityInv(a) && StoresTo(a, owner, epoch, root, previous, id, bytes, current, a')
    ensures a'.scope.ledger.generation == a.scope.ledger.generation + 1
    ensures |a'.receipts| == |a.receipts| + 1 && a.receipts <= a'.receipts && ReceiptFor(a', |a.receipts|, id)
    ensures forall i, b | ReceiptFor(a, i, b) :: b != id
    ensures MayStore(a', owner, epoch, root, Some(current))
  {
    hide ScopeInv;
    StoreKeeps(a, id, bytes, current);
  }

  lemma {:induction false} AuthorityRunKeeps(aa: seq<Authority>, i: nat, j: nat)
    requires AuthorityRun(aa) && i <= j < |aa|
    ensures AuthorityInv(aa[j]) && aa[i].receipts <= aa[j].receipts
    ensures aa[i].scope.ledger.generation <= aa[j].scope.ledger.generation
    decreases j
  {
    hide AuthorityInv, AuthorityNext;
    if j > 0 {
      AuthorityRunKeeps(aa, if i < j then i else j - 1, j - 1);
      assert AuthorityNext(aa[j - 1], aa[j - 1 + 1]);
      AuthorityNextKeeps(aa[j - 1], aa[j]);
    }
  }

  /** A frozen scope stays exactly as it was frozen: nothing in it, in its receipts or in its
      inventory changes in any later state. */
  lemma {:induction false} FrozenForGood(aa: seq<Authority>, i: nat, j: nat)
    requires AuthorityRun(aa) && i <= j < |aa| && aa[i].scope.ledger.state == Frozen
    ensures aa[j] == aa[i]
    decreases j - i
  {
    hide AuthorityInv, AuthorityNext;
    if i < j {
      FrozenForGood(aa, i, j - 1);
      AuthorityRunKeeps(aa, j - 1, j - 1);
      assert AuthorityNext(aa[j - 1], aa[j - 1 + 1]);
      AuthorityNextKeeps(aa[j - 1], aa[j]);
    }
  }

  /** A scope that ever hosted an effect is never frozen afterwards: the journal entries that
      freezing refuses are never dropped. */
  lemma EffectsPreventFreezing(aa: seq<Authority>, i: nat, j: nat, e: EffectId)
    requires AuthorityRun(aa) && i <= j < |aa| && e in aa[i].scope.ledger.fences
    ensures aa[j].scope.ledger.state != Frozen
  {
    hide ScopeInv, AuthorityNext;
    FencesKept(aa, i, j, e);
    AuthorityRunKeeps(aa, j, j);
  }

  lemma {:induction false} FencesKept(aa: seq<Authority>, i: nat, j: nat, e: EffectId)
    requires AuthorityRun(aa) && i <= j < |aa| && e in aa[i].scope.ledger.fences
    ensures e in aa[j].scope.ledger.fences && aa[i].scope.ledger.fences[e] <= aa[j].scope.ledger.fences[e]
    decreases j - i
  {
    hide AuthorityInv, AuthorityNext;
    if i < j {
      FencesKept(aa, i, j - 1, e);
      AuthorityRunKeeps(aa, j - 1, j - 1);
      assert AuthorityNext(aa[j - 1], aa[j - 1 + 1]);
      FencesGrow(aa[j - 1], aa[j], e);
    }
  }

  /** No operation of either side lowers or drops a fence. */
  lemma FencesGrow(a: Authority, a': Authority, e: EffectId)
    requires AuthorityInv(a) && AuthorityNext(a, a') && e in a.scope.ledger.fences
    ensures e in a'.scope.ledger.fences && a.scope.ledger.fences[e] <= a'.scope.ledger.fences[e]
  {
    hide Next, Mirrored, ScopeInv;
    if q: Request, caller, response :| !Receipted(a, q.id) && Performs(a, q, caller, response, a') {
      PerformFences(a, q, caller, response, a', e);
    } else if owner, epoch, root, previous, id, bytes, current :|
                StoresTo(a, owner, epoch, root, previous, id, bytes, current, a') {
      StoreKeeps(a, id, bytes, current);
    } else if Next(a.scope, a'.scope) {
      NextKeeps(a.scope, a'.scope);
    }
  }

  lemma PerformFences(a: Authority, q: Request, caller: Caller, response: Response, a': Authority, e: EffectId)
    requires AuthorityInv(a) && !Receipted(a, q.id) && Performs(a, q, caller, response, a') && e in a.scope.ledger.fences
    ensures e in a'.scope.ledger.fences && a.scope.ledger.fences[e] <= a'.scope.ledger.fences[e]
  {
    hide AuthorityInv, Mirrored, DocumentInv, DocumentEvolves;
    if q.operation.FenceWorker? { FenceKeeps(a, q, caller); }
  }

  /** Repeating a receipted request returns the same result with no change, in every later
      state, frozen or not: the receipt is found under its id and holds that request. */
  lemma ReplaySame(aa: seq<Authority>, i: nat, j: nat, k: int, id: string)
    requires AuthorityRun(aa) && i <= j < |aa| && ReceiptFor(aa[i], k, id)
    ensures ReceiptFor(aa[j], k, id) && aa[j].receipts[k] == aa[i].receipts[k]
    ensures forall m | ReceiptFor(aa[j], m, id) :: m == k
  {
    hide ScopeInv, AuthorityNext;
    AuthorityRunKeeps(aa, i, j);
  }
}
