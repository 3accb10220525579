/** The access request tables as the backend has them, one method per transaction, each proved to be the transaction
 RequestSpec describes. */
module RequestRepository {
  import opened AuthActions
  import opened Basics
  import T = Tables
  import opened RequestTables
  import S = RequestSpec
  import V = RequestInvariant
  import R = RequestRuns

  class AccessStore {
    var requests: map<nat, Request>
    var policies: map<PolicyScope, Policy>
    var nextPolicy: nat
    var owners: map<T.Owner, OwnerFacts>
    var bindings: map<(nat, nat), BindingFacts>
    var nextBinding: nat
    var workers: map<nat, Worker>
    var now: int

    ghost function Contents(): Sys
      reads this
    {
      Sys(requests, policies, nextPolicy, owners, bindings, nextBinding, workers, now)
    }

    ghost predicate Valid()
      reads this
    {
      V.SysOk(Contents())
    }

    constructor ()
      ensures Valid() && Contents() == Sys(map[], map[], 1, map[], map[], 1, map[], 0)
    {
      requests, policies, nextPolicy := map[], map[], 1;
      owners, bindings, nextBinding, workers, now := map[], map[], 1, map[], 0;
    }

    /** uidSet: fill a map with the uids that count. */
    method UidSet(uids: seq<int>, excluded: int) returns (result: map<int, bool>)
      ensures result.Keys == S.UidSet(uids, excluded) && |result| == |S.UidSet(uids, excluded)|
    {
      result := map[];
      for i := 0 to |uids|
        invariant result.Keys == S.UidSet(uids[..i], excluded)
      {
        assert uids[..i + 1] == uids[..i] + [uids[i]];
        if uids[i] > 0 && uids[i] != excluded {
          result := result[uids[i] := true];
        }
      }
      assert uids[..|uids|] == uids;
      assert |result| == |result.Keys|;
    }

    method PolicyOf(scope: PolicyScope) returns (policy: Policy)
      ensures policy == S.PolicyOf(Contents(), scope)
    {
      if scope in policies { return policies[scope]; }
      policy := Policy(0, 0, false, [], 1, 60, 1440, 0, 0, NO_PERMISSIONS.(connect := true));
    }

    /** requestBinding for a connection: the binding, or why there is none. */
    method RequestBinding(target: T.Owner, asset: nat, account: nat) returns (binding: Option<BindingFacts>, refusal: Option<Error>)
      ensures refusal == S.BindingRefusal(Contents(), target, asset, account)
      ensures refusal.None? ==> (asset, account) in bindings && binding == Some(bindings[(asset, account)])
    {
      binding := None;
      if !target.Account? || asset == 0 || account == 0 || target.id != account { return binding, Some(BadInput); }
      if (asset, account) !in bindings { return binding, Some(Denied); }
      var row := bindings[(asset, account)];
      if !row.assetExists { return binding, Some(Denied); }
      if !row.enabled || !row.matchesAsset { return binding, Some(ScopeChanged); }
      return Some(row), None;
    }

    method ScopeCurrent(row: Request, facts: OwnerFacts, policy: Policy) returns (current: bool)
      ensures current == S.ScopeCurrent(Contents(), row, facts, policy)
    {
      if row.terms.policy != policy.id || row.terms.policyRevision != policy.revision { return false; }
      if row.scope.action == Retrieve {
        return Retrieve in policy.approvalActions && S.ViewOwnerAvailable(row.scope.target, facts)
            && row.scope.credential == facts.credential && row.scope.username == facts.username;
      }
      if !S.OwnerAvailable(row.scope.target, facts) { return false; }
      var binding, refusal := RequestBinding(row.scope.target, row.scope.asset, row.scope.target.id);
      current := refusal.None? && binding.value.id == row.scope.binding && binding.value.revision == row.scope.bindingRevision;
    }

    method CreateConnect(input: S.RequestInput, seenRevision: nat, sourceAllowed: bool, newId: nat) returns (reply: Reply)
      requires Valid()
      modifies this`requests
      ensures Commit(Contents(), reply) == S.CreateConnect(old(Contents()), input, seenRevision, sourceAllowed, newId)
      ensures Valid()
    {
      V.CreateConnectKeeps(Contents(), input, seenRevision, sourceAllowed, newId);
      hide V.SysOk;
      if input.requester <= 0 { return Refused(Denied); }
      if !S.InputComplete(input) || input.durationMinutes < 1 { return Refused(BadInput); }
      if id :| id in requests && S.SameKey(requests[id], input) {
        R.OnlyRowOfKey(Contents(), input, id);
        if requests[id].intent != input.intent { return Refused(RevisionChanged); }
        return Ok(id);
      }
      assert !S.KeyTaken(Contents(), input);
      if input.target !in owners || !input.target.Account? || !owners[input.target].managed { return Refused(Denied); }
      var policy := PolicyOf(AccountPolicy(input.target.id));
      if policy.id == 0 || policy.revision != seenRevision { return Refused(ScopeChanged); }
      if !S.OwnerAvailable(input.target, owners[input.target]) || !sourceAllowed { return Refused(Denied); }
      if input.durationMinutes > policy.maxDurationMinutes { return Refused(BadInput); }
      var binding, refusal := RequestBinding(input.target, input.asset, input.account);
      if refusal.Some? { return Refused(refusal.value); }
      if newId == 0 || newId in requests { return Refused(StateChanged); }
      var scope := Scope(input.target, Connect, input.asset, binding.value.id, binding.value.revision, 0, owners[input.target].username);
      requests := requests[newId := S.NewRequest(input, scope, policy, input.durationMinutes, now)];
      reply := Ok(newId);
    }

    method CreateView(input: S.RequestInput, seen: Policy, found: seq<nat>, newId: nat) returns (reply: Reply)
      requires Valid()
      modifies this`requests
      ensures Commit(Contents(), reply) == S.CreateView(old(Contents()), input, seen, found, newId)
      ensures Valid()
    {
      V.CreateViewKeeps(Contents(), input, seen, found, newId);
      hide V.SysOk;
      if input.requester <= 0 || input.target !in owners { return Refused(Denied); }
      if ViewPolicy !in policies { return Refused(Unavailable); }
      if seen.template == 0 { return Refused(NoProvider); }
      if input.durationMinutes != 0 && input.durationMinutes != seen.maxDurationMinutes { return Refused(BadInput); }
      if !S.InputComplete(input) || input.asset != 0 || input.account != 0 { return Refused(BadInput); }
      var policy, facts := policies[ViewPolicy], owners[input.target];
      if policy.revision != seen.revision || !S.ViewOwnerAvailable(input.target, facts) { return Refused(ScopeChanged); }
      if id :| id in requests && S.SameKey(requests[id], input) {
        R.OnlyRowOfKey(Contents(), input, id);
        if requests[id].intent != input.intent { return Refused(RevisionChanged); }
        var current := ScopeCurrent(requests[id], facts, policy);
        if requests[id].scope.target != input.target || !current { return Refused(ScopeChanged); }
        return Ok(id);
      }
      assert !S.KeyTaken(Contents(), input);
      if !S.OpenViews(requests, input, found) { return Refused(StateChanged); }
      var saved := requests;
      var standing := SupersedeFound(found, facts, policy);
      if standing.Some? { return Ok(standing.value); }
      if newId == 0 || newId in requests {
        requests := saved;
        return Refused(StateChanged);
      }
      var scope := Scope(input.target, Retrieve, 0, 0, 0, facts.credential, facts.username);
      requests := requests[newId := S.NewRequest(input, scope, policy.(required := 1, permissions := NO_PERMISSIONS), policy.maxDurationMinutes, now)];
      reply := Ok(newId);
    }

    /** The loop over open requests: answer with the first that stands in the way, invalidate those before it. */
    method SupersedeFound(found: seq<nat>, facts: OwnerFacts, policy: Policy) returns (standing: Option<nat>)
      requires forall id :: id in found ==> id in requests
      modifies this`requests
      ensures (requests, standing) == S.Supersede(old(Contents()), found, facts, policy)
      ensures requests.Keys == old(requests).Keys
    {
      for i := 0 to |found|
        invariant requests.Keys == old(requests).Keys
        invariant S.Supersede(Contents(), found[i..], facts, policy) == S.Supersede(old(Contents()), found, facts, policy)
      {
        var item := requests[found[i]];
        var current := ScopeCurrent(item, facts, policy);
        assert found[i..][0] == found[i] && found[i..][1..] == found[i + 1..];
        if current && ((item.state == Pending && now < item.terms.expiresAt) || S.HasActiveAccess(item, now)) {
          return Some(found[i]);
        }
        item := item.(state := Invalidated, revision := item.revision + 1);
        item := S.Scheduled(item, now);
        item := S.Revoked(item, now);
        requests := requests[found[i] := item];
      }
      standing := None;
    }

    /** ActivatePAMRequestAccess on the caller's row. */
    method ActivateAccess(request: Request, from: int) returns (granted: Option<Request>)
      ensures granted == if request.grant.at.Some? || request.grant.revokedAt.Some? then None else Some(S.Activated(request, from))
    {
      if request.grant.at.Some? || request.grant.revokedAt.Some? { return None; }
      var until := from + request.terms.durationMinutes * MINUTE;
      granted := Some(request.(grant := request.grant.(at := Some(from), until := Some(until))));
    }

    method Decide(e: Decision) returns (reply: Reply)
      requires Valid()
      modifies this`requests
      ensures Commit(Contents(), reply) == S.Decide(old(Contents()), e)
      ensures Valid()
    {
      V.DecideKeeps(Contents(), e);
      hide V.SysOk, S.Settle;
      if !S.DecisionComplete(e, now) { return Refused(BadInput); }
      if e.request !in requests { return Refused(NotFound); }
      var request := requests[e.request];
      if request.scope.target !in owners { return Refused(NotFound); }
      if request.scope.action == Retrieve && ViewPolicy !in policies { return Refused(NotFound); }
      var policy := PolicyOf(S.PolicyScopeOf(request.scope));
      if !S.SameTicket(request, e) { return Refused(ScopeChanged); }
      if e.providerRevision <= request.receipt.revision {
        if e.providerRevision == request.receipt.revision && request.receipt.event == e.event && request.receipt.payload == Some(e) {
          return Ok(e.request);
        }
        return Refused(RevisionChanged);
      }
      if request.receipt.event == e.event { return Refused(RevisionChanged); }
      request := request.(receipt := Receipt(e.providerRevision, e.event, Some(e)));
      var settled := Settle(request, e, owners[request.scope.target], policy);
      if settled.1.Some? { return Refused(settled.1.value); }
      requests := requests[e.request := settled.0];
      reply := Ok(e.request);
    }

    /** From the receipt to the row to save, on the caller's row. */
    method Settle(row: Request, e: Decision, facts: OwnerFacts, policy: Policy) returns (settled: (Request, Option<Error>))
      requires e.decidedAt.Some? && e.verdict.Some?
      ensures settled == S.Settle(Contents(), row, e, facts, policy)
    {
      hide S.Approve;
      if row.state != Pending && row.state != Approved { return (row, None); }
      if e.verdict.value == Approved {
        if row.state == Approved { return (row, None); }
        settled := ApprovePending(row, e, facts, policy);
        return;
      }
      var request := row.(state := e.verdict.value);
      request := S.Revoked(request, now);
      settled := (request.(revision := request.revision + 1), None);
    }

    /** The approval branch, on the caller's pending row. */
    method ApprovePending(pending: Request, e: Decision, facts: OwnerFacts, policy: Policy) returns (decided: (Request, Option<Error>))
      requires e.decidedAt.Some?
      ensures decided == S.Approve(Contents(), pending, e, facts, policy)
    {
      var at := e.decidedAt.value;
      var request := pending;
      var actors := UidSet(e.approvers, request.requester);
      if |actors| != |e.approvers| || |actors| < request.terms.required { return (pending, Some(Denied)); }
      if at < request.terms.createdAt - MINUTE { return (pending, Some(ScopeChanged)); }
      request := request.(approvers := e.approvers);
      var grantExpires := at + request.terms.durationMinutes * MINUTE;
      var scopeCurrent := ScopeCurrent(pending, facts, policy);
      if at >= request.terms.expiresAt || now >= grantExpires {
        request := request.(state := Expired);
      } else if !scopeCurrent {
        request := request.(state := Invalidated);
      } else {
        request := request.(state := Approved);
        var granted := ActivateAccess(request, at);
        if granted.None? { return (pending, Some(GrantExists)); }
        request := granted.value;
      }
      request := request.(revision := request.revision + 1);
      decided := (request, None);
    }

    method Expire(id: nat) returns (reply: Reply)
      requires Valid()
      modifies this`requests
      ensures Commit(Contents(), reply) == S.Expire(old(Contents()), id)
      ensures Valid()
    {
      V.ExpireKeeps(Contents(), id);
      hide V.SysOk;
      if id !in requests { return Refused(NotFound); }
      var current := requests[id];
      var expired := current.state == Pending && now >= current.terms.expiresAt;
      if current.state == Approved && current.grant.until.Some? {
        expired := now >= current.grant.until.value;
      }
      if expired {
        current := current.(state := Expired, revision := current.revision + 1);
        current := S.Revoked(current, now);
        requests := requests[id := current];
      }
      reply := Ok(id);
    }

    method Cancel(id: nat, revision: nat) returns (reply: Reply)
      requires Valid()
      modifies this`requests
      ensures Commit(Contents(), reply) == S.Cancel(old(Contents()), id, revision)
      ensures Valid()
    {
      V.CancelKeeps(Contents(), id, revision);
      hide V.SysOk;
      if revision == 0 { return Refused(BadInput); }
      if id !in requests { return Refused(NotFound); }
      var request := requests[id];
      if request.state == Cancelled { return Ok(id); }
      if request.revision != revision || (request.state != Pending && request.state != Approved) { return Refused(StateChanged); }
      request := request.(state := Cancelled, revision := request.revision + 1);
      request := S.Scheduled(request, now);
      request := S.Revoked(request, now);
      requests := requests[id := request];
      reply := Ok(id);
    }

    /** The three bulk updates. */
    method SweepPolicy(policy: nat)
      modifies this`requests
      ensures requests == S.SweepPolicy(old(requests), policy, now)
    {
      requests := map id | id in requests ::
        if requests[id].terms.policy == policy && !Ended(requests[id].state) then S.Swept(requests[id], now) else requests[id];
    }

    method SweepViews()
      modifies this`requests
      ensures requests == S.SweepViews(old(requests), now)
    {
      requests := map id | id in requests ::
        if requests[id].scope.action == Retrieve && !Ended(requests[id].state) then S.Swept(requests[id], now) else requests[id];
    }

    method SweepRemoval(account: nat)
      modifies this`requests
      ensures requests == S.SweepRemoval(old(requests), account, now)
    {
      requests := map id | id in requests ::
        if requests[id].scope.target == T.Account(account) && requests[id].scope.action == Connect && !Ended(requests[id].state)
        then S.Swept(requests[id], now) else requests[id];
    }

    method SavePolicy(account: nat, seenRevision: nat, terms: Policy) returns (reply: Reply)
      requires Valid()
      modifies this`requests, this`policies, this`nextPolicy
      ensures Commit(Contents(), reply) == S.SavePolicy(old(Contents()), account, seenRevision, terms)
      ensures Valid()
    {
      V.SavePolicyKeeps(Contents(), account, seenRevision, terms);
      hide V.SysOk, S.SweepPolicy;
      if T.Account(account) !in owners { return Refused(NotFound); }
      if !owners[T.Account(account)].managed { return Refused(Denied); }
      if !S.PolicyInputOk(terms) { return Refused(BadInput); }
      var current := PolicyOf(AccountPolicy(account));
      if current.revision != seenRevision { return Refused(RevisionChanged); }
      var saved := terms.(id := current.id, revision := current.revision + 1);
      if current.id == 0 {
        saved := saved.(id := nextPolicy);
        nextPolicy := nextPolicy + 1;
      }
      policies := policies[AccountPolicy(account) := saved];
      if current.id != 0 {
        SweepPolicy(current.id);
      }
      reply := Ok(saved.id);
    }

    method SaveViewSettings(seenRevision: nat, approval: bool, template: nat, templateRevision: nat, validMinutes: int) returns (reply: Reply)
      requires Valid()
      modifies this`requests, this`policies
      ensures Commit(Contents(), reply) == S.SaveViewSettings(old(Contents()), seenRevision, approval, template, templateRevision, validMinutes)
      ensures Valid()
    {
      V.SaveViewSettingsKeeps(Contents(), seenRevision, approval, template, templateRevision, validMinutes);
      hide V.SysOk, S.SweepViews;
      if ViewPolicy !in policies { return Refused(NotFound); }
      if validMinutes < 1 || validMinutes > 60 || (approval && template == 0) { return Refused(BadInput); }
      var policy := policies[ViewPolicy];
      if policy.revision != seenRevision { return Refused(RevisionChanged); }
      policy := policy.(revision := policy.revision + 1, maxDurationMinutes := validMinutes, required := 1);
      policy := policy.(approvalActions := [], allowRequests := approval, template := 0, templateRevision := 0);
      if approval {
        policy := policy.(approvalActions := [Retrieve], template := template, templateRevision := templateRevision);
      }
      policies := policies[ViewPolicy := policy];
      SweepViews();
      reply := Ok(policy.id);
    }

    /** As much of the binding's own writers as this code can see. */
    method SetBinding(asset: nat, account: nat, binding: BindingFacts) returns (reply: Reply)
      requires Valid()
      modifies this`bindings, this`nextBinding
      ensures Commit(Contents(), reply) == S.SetBinding(old(Contents()), asset, account, binding)
      ensures Valid()
    {
      V.SetBindingKeeps(Contents(), asset, account, binding);
      hide V.SysOk;
      if (asset, account) !in bindings {
        bindings := bindings[(asset, account) := binding.(id := nextBinding)];
        nextBinding := nextBinding + 1;
      } else {
        if !S.BindingMayBecome(bindings[(asset, account)], binding) { return Refused(RevisionChanged); }
        bindings := bindings[(asset, account) := binding];
      }
      reply := Ok(bindings[(asset, account)].id);
    }

    method RemoveManagement(account: nat, revisionMatches: bool, executionActive: bool) returns (reply: Reply)
      requires Valid()
      modifies this
      ensures Commit(Contents(), reply) == S.RemoveManagement(old(Contents()), account, revisionMatches, executionActive)
      ensures Valid()
    {
      V.RemoveManagementKeeps(Contents(), account, revisionMatches, executionActive);
      hide V.SysOk, S.SweepRemoval;
      var owner := T.Account(account);
      if owner !in owners || !owners[owner].managed { return Refused(NotFound); }
      if !revisionMatches { return Refused(RevisionChanged); }
      if executionActive { return Refused(StateChanged); }
      SweepRemoval(account);
      bindings := map b | b in bindings && b.1 != account :: bindings[b];
      policies := policies - {AccountPolicy(account)};
      owners := owners[owner := owners[owner].(managed := false, enabled := true)];
      reply := Ok(account);
    }

    method BindTicket(id: nat, requestRevision: nat, template: nat, templateRevision: nat, ticket: nat) returns (reply: Reply)
      requires Valid()
      modifies this`requests
      ensures Commit(Contents(), reply) == S.BindTicket(old(Contents()), id, requestRevision, template, templateRevision, ticket)
      ensures Valid()
    {
      V.BindTicketKeeps(Contents(), id, requestRevision, template, templateRevision, ticket);
      hide V.SysOk;
      if id !in requests { return Refused(NotFound); }
      var request := requests[id];
      if ticket == 0 || requestRevision != request.terms.requestRevision || template != request.terms.template
         || templateRevision != request.terms.templateRevision || (request.ticket != 0 && request.ticket != ticket) {
        return Refused(ScopeChanged);
      }
      requests := requests[id := request.(ticket := ticket)];
      reply := Ok(id);
    }

    method ClaimSync(token: nat, id: nat) returns (reply: Reply)
      requires Valid()
      modifies this`requests, this`workers
      ensures Commit(Contents(), reply) == S.ClaimSync(old(Contents()), token, id)
      ensures Valid()
    {
      V.ClaimSyncKeeps(Contents(), token, id);
      hide V.SysOk, S.Claimable;
      if token == 0 || token in workers || id !in requests || !S.Claimable(requests[id], now) { return Refused(NotFound); }
      var claimed := requests[id];
      workers := workers[token := Worker(id, claimed.sync.attempts, false)];
      requests := requests[id := claimed.(sync := claimed.sync.(state := Running, owner := token, until := Some(now + MINUTE)))];
      reply := Ok(id);
    }

    /** The columns the last update of a worker sets. */
    method SyncUpdates(before: nat, result: S.SyncResult) returns (updates: Sync)
      ensures updates == S.FinishedSync(before, result, now)
    {
      updates := Sync(ToDo, 0, now, 0, None);
      match result {
        case Failed =>
          var attempts := before + 1;
          updates := updates.(attempts := attempts, nextAt := now + S.Backoff(attempts));
          if attempts >= 8 { updates := updates.(state := GaveUp); }
        case Synced(done) =>
          updates := updates.(nextAt := now + 15 * SECOND);
          if done { updates := updates.(state := Done); }
      }
    }

    method FinishSync(token: nat, result: S.SyncResult) returns (reply: Reply)
      requires Valid()
      modifies this`requests
      ensures Commit(Contents(), reply) == S.FinishSync(old(Contents()), token, result)
      ensures Valid()
    {
      V.SyncKeeps(Contents(), token, 0, 0, result);
      hide V.SysOk, S.FinishedSync;
      if token !in workers || (result.Synced? && !workers[token].hasRead) { return Refused(NotFound); }
      var id := workers[token].request;
      var updates := SyncUpdates(workers[token].attempts, result);
      if id in requests && requests[id].sync.owner == token {
        requests := requests[id := requests[id].(sync := updates)];
      }
      reply := Ok(id);
    }

    method RetrySync(id: nat, revision: nat) returns (reply: Reply)
      requires Valid()
      modifies this`requests
      ensures Commit(Contents(), reply) == S.RetrySync(old(Contents()), id, revision)
      ensures Valid()
    {
      V.SyncKeeps(Contents(), 0, id, revision, S.Failed);
      hide V.SysOk;
      if id !in requests { return Refused(NotFound); }
      var request := requests[id];
      if revision != request.revision { return Refused(RevisionChanged); }
      if request.sync.state != GaveUp { return Refused(StateChanged); }
      requests := requests[id := S.Scheduled(request, now)];
      reply := Ok(id);
    }

    /** The worker's read of the row it has claimed. */
    method ReadSync(token: nat) returns (reply: Reply)
      requires Valid()
      modifies this`workers
      ensures Commit(Contents(), reply) == S.ReadSync(old(Contents()), token)
      ensures Valid()
    {
      V.ReadSyncKeeps(Contents(), token);
      hide V.SysOk;
      if token !in workers { return Refused(NotFound); }
      workers := workers[token := workers[token].(hasRead := true)];
      reply := Ok(token);
    }

    /** EnsurePasswordViewPolicy, once at startup: an older policy that asked for approval makes the new one ask too. */
    method EnsureViewPolicy() returns (reply: Reply)
      requires Valid()
      modifies this`policies, this`nextPolicy
      ensures Commit(Contents(), reply) == S.EnsureViewPolicy(old(Contents()))
      ensures Valid()
    {
      V.EnsureViewPolicyKeeps(Contents());
      hide V.SysOk;
      if ViewPolicy in policies { return Ok(policies[ViewPolicy].id); }
      var approval := exists s :: s in policies && Retrieve in policies[s].approvalActions;
      var policy := Policy(nextPolicy, 1, approval, if approval then [Retrieve] else [], 1, 5, 1440, 0, 0, NO_PERMISSIONS);
      policies := policies[ViewPolicy := policy];
      nextPolicy := nextPolicy + 1;
      reply := Ok(policy.id);
    }
  }
}
