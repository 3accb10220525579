/** The transactions on access requests, one function each. Every transaction reads the clock once. */
module RequestSpec {
  import opened AuthActions
  import opened Basics
  import T = Tables
  import opened RequestTables

  const SYNC_LEASE := MINUTE

  // ---- Rows ----

  /** HasActiveAccess */
  predicate HasActiveAccess(row: Request, now: int) {
    && row.state == Approved
    && row.grant.at.Some? && row.grant.until.Some? && row.grant.revokedAt.None?
    && row.grant.at.value <= now < row.grant.until.value
  }

  /** SchedulePAMRequestSync: due now, and taken away from whichever worker has it. */
  function Scheduled(row: Request, now: int): Request {
    row.(sync := Sync(ToDo, 0, now, 0, None))
  }

  /** RevokePAMRequestAccess: the first revocation is the one that is kept. */
  function Revoked(row: Request, now: int): Request {
    if row.grant.revokedAt.Some? then row else row.(grant := row.grant.(revokedAt := Some(now)))
  }

  function Activated(row: Request, from: int): Request {
    row.(grant := row.grant.(at := Some(from), until := Some(from + row.terms.durationMinutes * MINUTE)))
  }

  /** The bulk update shared by policy saves and the removal of management. */
  function Swept(row: Request, now: int): Request {
    row.(state := Invalidated, revision := row.revision + 1, grant := row.grant.(revokedAt := Some(now)),
         sync := row.sync.(state := ToDo, nextAt := now, owner := 0, until := None))
  }

  function PolicyScopeOf(scope: Scope): PolicyScope {
    if scope.action == Retrieve then ViewPolicy else AccountPolicy(scope.target.id)
  }

  /** PAMPolicyInTransaction: a target without a row has the default policy, with id and revision 0. */
  function PolicyOf(sys: Sys, scope: PolicyScope): Policy {
    if scope in sys.policies then sys.policies[scope] else Policy(0, 0, false, [], 1, 60, 1440, 0, 0, NO_PERMISSIONS.(connect := true))
  }

  predicate OwnerAvailable(owner: T.Owner, facts: OwnerFacts) {
    owner.Gateway? || !facts.managed || (facts.enabled && facts.authorityPresent)
  }

  predicate ViewOwnerAvailable(owner: T.Owner, facts: OwnerFacts) {
    owner.Gateway? || !facts.managed || facts.enabled
  }

  /** requestBinding for a connection. */
  function BindingRefusal(sys: Sys, target: T.Owner, asset: nat, account: nat): Option<Error> {
    if !target.Account? || asset == 0 || account == 0 || target.id != account then Some(BadInput)
    else if (asset, account) !in sys.bindings || !sys.bindings[(asset, account)].assetExists then Some(Denied)
    else if !sys.bindings[(asset, account)].enabled || !sys.bindings[(asset, account)].matchesAsset then Some(ScopeChanged)
    else None
  }

  /** requestScopeCurrent */
  predicate ScopeCurrent(sys: Sys, row: Request, facts: OwnerFacts, policy: Policy) {
    && row.terms.policy == policy.id && row.terms.policyRevision == policy.revision
    && match row.scope.action
       case Retrieve =>
         && Retrieve in policy.approvalActions && ViewOwnerAvailable(row.scope.target, facts)
         && row.scope.credential == facts.credential && row.scope.username == facts.username
       case Connect =>
         && OwnerAvailable(row.scope.target, facts)
         && BindingRefusal(sys, row.scope.target, row.scope.asset, row.scope.target.id).None?
         && sys.bindings[(row.scope.asset, row.scope.target.id)].id == row.scope.binding
         && sys.bindings[(row.scope.asset, row.scope.target.id)].revision == row.scope.bindingRevision
  }

  // ---- Creation ----

  datatype RequestInput = RequestInput(requester: int, key: nat, intent: nat, target: T.Owner, asset: nat, account: nat, durationMinutes: int)

  /** requestIntent, as far as the fields kept here go. */
  predicate InputComplete(input: RequestInput) {
    input.key != 0 && input.target.id != 0
  }

  predicate SameKey(row: Request, input: RequestInput) {
    row.requester == input.requester && row.key == input.key
  }

  ghost predicate KeyTaken(sys: Sys, input: RequestInput) {
    exists id :: id in sys.requests && SameKey(sys.requests[id], input)
  }

  ghost function RowOfKey(sys: Sys, input: RequestInput): (id: nat)
    requires KeyTaken(sys, input)
    ensures id in sys.requests && SameKey(sys.requests[id], input)
  {
    var id :| id in sys.requests && SameKey(sys.requests[id], input); id
  }

  function NewRequest(input: RequestInput, scope: Scope, policy: Policy, durationMinutes: int, now: int): Request {
    Request(input.requester, input.key, input.intent, scope,
            Terms(policy.id, policy.revision, durationMinutes, policy.required, policy.template, policy.templateRevision,
                  1, policy.permissions, now, now + policy.expiryMinutes * MINUTE),
            Pending, 1, 0, Receipt(0, 0, None), [], Grant(None, None, None), Sync(ToDo, 0, now, 0, None))
  }

  /** Create. A key already used is answered first of all. `seenRevision` is the policy revision read before the
   transaction, `sourceAllowed` the address test. */
  ghost function CreateConnect(sys: Sys, input: RequestInput, seenRevision: nat, sourceAllowed: bool, newId: nat): Commit {
    var policy := PolicyOf(sys, AccountPolicy(input.target.id));
    if input.requester <= 0 then Rollback(sys, Denied)
    else if !InputComplete(input) || input.durationMinutes < 1 then Rollback(sys, BadInput)
    else if KeyTaken(sys, input) then
      var id := RowOfKey(sys, input);
      if sys.requests[id].intent != input.intent then Rollback(sys, RevisionChanged) else Commit(sys, Ok(id))
    else if input.target !in sys.owners || !input.target.Account? || !sys.owners[input.target].managed then Rollback(sys, Denied)
    else if policy.id == 0 || policy.revision != seenRevision then Rollback(sys, ScopeChanged)
    else if !OwnerAvailable(input.target, sys.owners[input.target]) || !sourceAllowed then Rollback(sys, Denied)
    else if input.durationMinutes > policy.maxDurationMinutes then Rollback(sys, BadInput)
    else if BindingRefusal(sys, input.target, input.asset, input.account).Some? then
      Rollback(sys, BindingRefusal(sys, input.target, input.asset, input.account).value)
    else if newId == 0 || newId in sys.requests then Rollback(sys, StateChanged)
    else
      var binding := sys.bindings[(input.asset, input.account)];
      var scope := Scope(input.target, Connect, input.asset, binding.id, binding.revision, 0, sys.owners[input.target].username);
      Commit(sys.(requests := sys.requests[newId := NewRequest(input, scope, policy, input.durationMinutes, sys.now)]), Ok(newId))
  }

  /** An open view request of the same requester and target. */
  predicate OpenView(row: Request, input: RequestInput) {
    row.requester == input.requester && row.scope.target == input.target && row.scope.action == Retrieve && !Ended(row.state)
  }

  /** The result of the query for them, in the order the database returned them. */
  predicate OpenViews(requests: map<nat, Request>, input: RequestInput, found: seq<nat>) {
    && (forall id :: id in found ==> id in requests && OpenView(requests[id], input))
    && (forall id :: id in requests && OpenView(requests[id], input) ==> id in found)
    && (forall i, j :: 0 <= i < j < |found| ==> found[i] != found[j])
  }

  /** An open request that can still be answered or used stands in the way of a new one. */
  predicate StandsInTheWay(sys: Sys, row: Request, facts: OwnerFacts, policy: Policy) {
    && ScopeCurrent(sys, row, facts, policy)
    && ((row.state == Pending && sys.now < row.terms.expiresAt) || HasActiveAccess(row, sys.now))
  }

  function Superseded(row: Request, now: int): Request {
    Revoked(Scheduled(row.(state := Invalidated, revision := row.revision + 1), now), now)
  }

  /** Invalidate the open requests found, up to the first that stands in the way. */
  function Supersede(sys: Sys, found: seq<nat>, facts: OwnerFacts, policy: Policy): (map<nat, Request>, Option<nat>)
    requires forall id :: id in found ==> id in sys.requests
    decreases |found|
  {
    if found == [] then (sys.requests, None)
    else if StandsInTheWay(sys, sys.requests[found[0]], facts, policy) then (sys.requests, Some(found[0]))
    else
      Supersede(sys.(requests := sys.requests[found[0] := Superseded(sys.requests[found[0]], sys.now)]), found[1..], facts, policy)
  }

  /** CreatePasswordViewRequest; `seen` is the policy read before the transaction. */
  ghost function CreateView(sys: Sys, input: RequestInput, seen: Policy, found: seq<nat>, newId: nat): Commit {
    if input.requester <= 0 || input.target !in sys.owners then Rollback(sys, Denied)
    else if ViewPolicy !in sys.policies then Rollback(sys, Unavailable)
    else if seen.template == 0 then Rollback(sys, NoProvider)
    else if (input.durationMinutes != 0 && input.durationMinutes != seen.maxDurationMinutes)
            || !InputComplete(input) || input.asset != 0 || input.account != 0 then Rollback(sys, BadInput)
    else
      var policy, facts := sys.policies[ViewPolicy], sys.owners[input.target];
      if policy.revision != seen.revision || !ViewOwnerAvailable(input.target, facts) then Rollback(sys, ScopeChanged)
      else if KeyTaken(sys, input) then
        var id := RowOfKey(sys, input);
        if sys.requests[id].intent != input.intent then Rollback(sys, RevisionChanged)
        else if sys.requests[id].scope.target != input.target then Rollback(sys, ScopeChanged)
        else if !ScopeCurrent(sys, sys.requests[id], facts, policy) then Rollback(sys, ScopeChanged)
        else Commit(sys, Ok(id))
      else if !OpenViews(sys.requests, input, found) then Rollback(sys, StateChanged)
      else
        var (requests, standing) := Supersede(sys, found, facts, policy);
        if standing.Some? then Commit(sys.(requests := requests), Ok(standing.value))
        else if newId == 0 || newId in sys.requests then Rollback(sys, StateChanged)
        else
          var scope := Scope(input.target, Retrieve, 0, 0, 0, facts.credential, facts.username);
          var row := NewRequest(input, scope, policy.(required := 1, permissions := NO_PERMISSIONS), policy.maxDurationMinutes, sys.now);
          Commit(sys.(requests := requests[newId := row]), Ok(newId))
  }

  // ---- Decisions ----

  predicate DecisionComplete(e: Decision, now: int) {
    && e.event != 0 && e.request != 0 && e.requestRevision != 0 && e.providerRevision != 0 && e.ticket != 0 && e.template != 0
    && e.decidedAt.Some? && e.decidedAt.value <= now + MINUTE
    && e.verdict.Some? && e.verdict.value != Pending
  }

  /** uidSet: the approvers that count. */
  function UidSet(uids: seq<int>, excluded: int): set<int> {
    set uid | uid in uids && uid > 0 && uid != excluded
  }

  predicate EnoughApprovers(row: Request, uids: seq<int>) {
    |UidSet(uids, row.requester)| == |uids| && |uids| >= row.terms.required
  }

  predicate SameTicket(row: Request, e: Decision) {
    row.terms.template == e.template && row.terms.templateRevision == e.templateRevision
    && row.terms.requestRevision == e.requestRevision && row.ticket == e.ticket
  }

  function Stamped(row: Request, e: Decision): Request {
    row.(receipt := Receipt(e.providerRevision, e.event, Some(e)))
  }

  /** The approval branch, on a pending row: the row to save, or why not. */
  function Approve(sys: Sys, row: Request, e: Decision, facts: OwnerFacts, policy: Policy): (Request, Option<Error>)
    requires e.decidedAt.Some?
  {
    var at := e.decidedAt.value;
    var decided := row.(approvers := e.approvers, revision := row.revision + 1);
    if !EnoughApprovers(row, e.approvers) then (row, Some(Denied))
    else if at < row.terms.createdAt - MINUTE then (row, Some(ScopeChanged))
    else if at >= row.terms.expiresAt || sys.now >= at + row.terms.durationMinutes * MINUTE then (decided.(state := Expired), None)
    else if !ScopeCurrent(sys, row, facts, policy) then (decided.(state := Invalidated), None)
    else if row.grant.at.Some? || row.grant.revokedAt.Some? then (row, Some(GrantExists))
    else (Activated(decided.(state := Approved), at), None)
  }

  /** A newer decision on a row that already carries its receipt. */
  function Settle(sys: Sys, row: Request, e: Decision, facts: OwnerFacts, policy: Policy): (Request, Option<Error>)
    requires e.decidedAt.Some? && e.verdict.Some?
  {
    if Ended(row.state) || (row.state == Approved && e.verdict.value == Approved) then (row, None)
    else if e.verdict.value == Approved then Approve(sys, row, e, facts, policy)
    else (Revoked(row.(state := e.verdict.value, revision := row.revision + 1), sys.now), None)
  }

  /** acceptPAMITSMDecision */
  function Decide(sys: Sys, e: Decision): Commit {
    if !DecisionComplete(e, sys.now) then Rollback(sys, BadInput)
    else if e.request !in sys.requests then Rollback(sys, NotFound)
    else
      var row := sys.requests[e.request];
      if row.scope.target !in sys.owners || (row.scope.action == Retrieve && ViewPolicy !in sys.policies) then Rollback(sys, NotFound)
      else if !SameTicket(row, e) then Rollback(sys, ScopeChanged)
      else if e.providerRevision <= row.receipt.revision then
        if row.receipt == Receipt(e.providerRevision, e.event, Some(e)) then Commit(sys, Ok(e.request))
        else Rollback(sys, RevisionChanged)
      else if row.receipt.event == e.event then Rollback(sys, RevisionChanged)
      else
        var (saved, error) := Settle(sys, Stamped(row, e), e, sys.owners[row.scope.target], PolicyOf(sys, PolicyScopeOf(row.scope)));
        if error.Some? then Rollback(sys, error.value)
        else Commit(sys.(requests := sys.requests[e.request := saved]), Ok(e.request))
  }

  // ---- Local closing ----

  predicate DueToExpire(row: Request, now: int) {
    match row.state
    case Pending => now >= row.terms.expiresAt
    case Approved => row.grant.until.Some? && now >= row.grant.until.value
    case _ => false
  }

  /** expirePAMITSMRequest */
  function Expire(sys: Sys, id: nat): Commit {
    if id !in sys.requests then Rollback(sys, NotFound)
    else
      var row := sys.requests[id];
      if !DueToExpire(row, sys.now) then Commit(sys, Ok(id))
      else
        Commit(sys.(requests := sys.requests[id := Revoked(row.(state := Expired, revision := row.revision + 1), sys.now)]), Ok(id))
  }

  /** Cancel, for an operator already authorised. */
  function Cancel(sys: Sys, id: nat, revision: nat): Commit {
    if revision == 0 then Rollback(sys, BadInput)
    else if id !in sys.requests then Rollback(sys, NotFound)
    else
      var row := sys.requests[id];
      if row.state == Cancelled then Commit(sys, Ok(id))
      else if row.revision != revision || Ended(row.state) then Rollback(sys, StateChanged)
      else
        var closed := Revoked(Scheduled(row.(state := Cancelled, revision := row.revision + 1), sys.now), sys.now);
        Commit(sys.(requests := sys.requests[id := closed]), Ok(id))
  }

  /** The rows a bulk update selects. */
  predicate SweptByPolicy(row: Request, policy: nat) {
    row.terms.policy == policy && !Ended(row.state)
  }

  predicate SweptByView(row: Request) {
    row.scope.action == Retrieve && !Ended(row.state)
  }

  predicate SweptByRemoval(row: Request, account: nat) {
    row.scope.target == T.Account(account) && row.scope.action == Connect && !Ended(row.state)
  }

  function SweepPolicy(requests: map<nat, Request>, policy: nat, now: int): map<nat, Request> {
    map id | id in requests :: if SweptByPolicy(requests[id], policy) then Swept(requests[id], now) else requests[id]
  }

  function SweepViews(requests: map<nat, Request>, now: int): map<nat, Request> {
    map id | id in requests :: if SweptByView(requests[id]) then Swept(requests[id], now) else requests[id]
  }

  function SweepRemoval(requests: map<nat, Request>, account: nat, now: int): map<nat, Request> {
    map id | id in requests :: if SweptByRemoval(requests[id], account) then Swept(requests[id], now) else requests[id]
  }

  /** normalizePAMPolicy, as far as the columns kept here go. */
  predicate PolicyInputOk(terms: Policy) {
    && 1 <= terms.required <= 2 && 1 <= terms.maxDurationMinutes <= 10080 && 1 <= terms.expiryMinutes <= 43200
    && (terms.approvalActions == [] || terms.approvalActions == [Connect])
    && terms.permissions.connect && !terms.permissions.share
    && (terms.allowRequests || terms.approvalActions != [] ==> terms.template != 0 && terms.templateRevision != 0)
  }

  /** PAMPolicyService.Save; `terms` carries the new settings, its id and revision are ignored. */
  function SavePolicy(sys: Sys, account: nat, seenRevision: nat, terms: Policy): Commit {
    var scope := AccountPolicy(account);
    var current := PolicyOf(sys, scope);
    if T.Account(account) !in sys.owners then Rollback(sys, NotFound)
    else if !sys.owners[T.Account(account)].managed then Rollback(sys, Denied)
    else if !PolicyInputOk(terms) then Rollback(sys, BadInput)
    else if current.revision != seenRevision then Rollback(sys, RevisionChanged)
    else
      var isNew := current.id == 0;
      var saved := terms.(id := if isNew then sys.nextPolicy else current.id, revision := current.revision + 1);
      Commit(sys.(policies := sys.policies[scope := saved],
                  nextPolicy := if isNew then sys.nextPolicy + 1 else sys.nextPolicy,
                  requests := if isNew then sys.requests else SweepPolicy(sys.requests, current.id, sys.now)),
             Ok(saved.id))
  }

  /** The transaction of SavePasswordViewSettings. */
  function SaveViewSettings(sys: Sys, seenRevision: nat, approval: bool, template: nat, templateRevision: nat, validMinutes: int): Commit {
    if ViewPolicy !in sys.policies then Rollback(sys, NotFound)
    else if validMinutes < 1 || validMinutes > 60 || (approval && template == 0) then Rollback(sys, BadInput)
    else if sys.policies[ViewPolicy].revision != seenRevision then Rollback(sys, RevisionChanged)
    else
      var policy := sys.policies[ViewPolicy];
      var saved := policy.(revision := policy.revision + 1, maxDurationMinutes := validMinutes, required := 1,
                           approvalActions := if approval then [Retrieve] else [], allowRequests := approval,
                           template := if approval then template else 0,
                           templateRevision := if approval then templateRevision else 0);
      Commit(sys.(policies := sys.policies[ViewPolicy := saved], requests := SweepViews(sys.requests, sys.now)), Ok(policy.id))
  }

  /** EnsurePasswordViewPolicy: created once at startup. */
  function EnsureViewPolicy(sys: Sys): Commit {
    if ViewPolicy in sys.policies then Commit(sys, Ok(sys.policies[ViewPolicy].id))
    else
      var approval := exists s :: s in sys.policies && Retrieve in sys.policies[s].approvalActions;
      var policy := Policy(sys.nextPolicy, 1, approval, if approval then [Retrieve] else [], 1, 5, 1440, 0, 0, NO_PERMISSIONS);
      Commit(sys.(policies := sys.policies[ViewPolicy := policy], nextPolicy := sys.nextPolicy + 1), Ok(policy.id))
  }

  /** A binding keeps its id, each save of it has a larger revision, and a deleted asset stays deleted; only the route of
   its asset changes under it. */
  predicate BindingMayBecome(a: BindingFacts, b: BindingFacts) {
    b.id == a.id && (a.revision < b.revision || (a.revision == b.revision && a.enabled == b.enabled)) && (b.assetExists ==> a.assetExists)
  }

  /** What attaching and saving a binding or its asset leaves for this code to see; TargetSpec has the writers themselves.
   A new binding never takes a used id. */
  function SetBinding(sys: Sys, asset: nat, account: nat, binding: BindingFacts): Commit {
    if (asset, account) !in sys.bindings then
      Commit(sys.(bindings := sys.bindings[(asset, account) := binding.(id := sys.nextBinding)], nextBinding := sys.nextBinding + 1),
             Ok(sys.nextBinding))
    else if !BindingMayBecome(sys.bindings[(asset, account)], binding) then Rollback(sys, RevisionChanged)
    else Commit(sys.(bindings := sys.bindings[(asset, account) := binding]), Ok(binding.id))
  }

  /** What RemoveManagement does to requests, bindings and policies; CredentialSpec.RemoveManagement has the rest. */
  function RemoveManagement(sys: Sys, account: nat, revisionMatches: bool, executionActive: bool): Commit {
    if T.Account(account) !in sys.owners || !sys.owners[T.Account(account)].managed then Rollback(sys, NotFound)
    else if !revisionMatches then Rollback(sys, RevisionChanged)
    else if executionActive then Rollback(sys, StateChanged)
    else
      Commit(sys.(requests := SweepRemoval(sys.requests, account, sys.now),
                  bindings := map b | b in sys.bindings && b.1 != account :: sys.bindings[b],
                  policies := sys.policies - {AccountPolicy(account)},
                  owners := sys.owners[T.Account(account) := sys.owners[T.Account(account)].(managed := false, enabled := true)]),
             Ok(account))
  }

  // ---- Synchronisation ----

  /** bindITSMTicket, for a status that names this request. */
  function BindTicket(sys: Sys, id: nat, requestRevision: nat, template: nat, templateRevision: nat, ticket: nat): Commit {
    if id !in sys.requests then Rollback(sys, NotFound)
    else
      var row := sys.requests[id];
      if ticket == 0 || requestRevision != row.terms.requestRevision || template != row.terms.template
         || templateRevision != row.terms.templateRevision || (row.ticket != 0 && row.ticket != ticket) then Rollback(sys, ScopeChanged)
      else Commit(sys.(requests := sys.requests[id := row.(ticket := ticket)]), Ok(id))
  }

  /** A row the claim query may return. */
  predicate Claimable(row: Request, now: int) {
    && (row.sync.state == ToDo || row.sync.state == Running)
    && row.sync.nextAt <= now
    && (row.sync.until.None? || row.sync.until.value < now)
  }

  /** The claim at the head of the work loop, under a token never used before. */
  function ClaimSync(sys: Sys, token: nat, id: nat): Commit {
    if token == 0 || token in sys.workers || id !in sys.requests || !Claimable(sys.requests[id], sys.now) then Rollback(sys, NotFound)
    else
      var row := sys.requests[id];
      var claimed := row.(sync := row.sync.(state := Running, owner := token, until := Some(sys.now + SYNC_LEASE)));
      Commit(sys.(requests := sys.requests[id := claimed],
                  workers := sys.workers[token := Worker(id, row.sync.attempts, false)]), Ok(id))
  }

  /** The worker reads the row it is going to synchronise. */
  function ReadSync(sys: Sys, token: nat): Commit {
    if token !in sys.workers then Rollback(sys, NotFound)
    else Commit(sys.(workers := sys.workers[token := sys.workers[token].(hasRead := true)]), Ok(token))
  }

  datatype SyncResult = Failed | Synced(done: bool)

  function Backoff(attempts: nat): int {
    match (if attempts < 8 then attempts else 8)
    case 0 => SECOND
    case 1 => 2 * SECOND
    case 2 => 4 * SECOND
    case 3 => 8 * SECOND
    case 4 => 16 * SECOND
    case 5 => 32 * SECOND
    case 6 => 64 * SECOND
    case 7 => 128 * SECOND
    case _ => 256 * SECOND
  }

  function FinishedSync(attempts: nat, result: SyncResult, now: int): Sync {
    match result
    case Failed => Sync(if attempts + 1 >= 8 then GaveUp else ToDo, attempts + 1, now + Backoff(attempts + 1), 0, None)
    case Synced(done) => Sync(if done then Done else ToDo, 0, now + 15 * SECOND, 0, None)
  }

  /** The worker's final update, a failure if it could not even read the row. It reaches the row only while the row
   still carries the worker's token. */
  function FinishSync(sys: Sys, token: nat, result: SyncResult): Commit {
    if token !in sys.workers || (result.Synced? && !sys.workers[token].hasRead) then Rollback(sys, NotFound)
    else
      var worker := sys.workers[token];
      if worker.request !in sys.requests || sys.requests[worker.request].sync.owner != token then Commit(sys, Ok(worker.request))
      else
        var row := sys.requests[worker.request];
        Commit(sys.(requests := sys.requests[worker.request := row.(sync := FinishedSync(worker.attempts, result, sys.now))]),
               Ok(worker.request))
  }

  /** RetrySync */
  function RetrySync(sys: Sys, id: nat, revision: nat): Commit {
    if id !in sys.requests then Rollback(sys, NotFound)
    else
      var row := sys.requests[id];
      if revision != row.revision then Rollback(sys, RevisionChanged)
      else if row.sync.state != GaveUp then Rollback(sys, StateChanged)
      else Commit(sys.(requests := sys.requests[id := Scheduled(row, sys.now)]), Ok(id))
  }
}
