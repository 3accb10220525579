/** What every transaction on access requests keeps. */
module RequestInvariant {
  import opened Basics
  import T = Tables
  import opened RequestTables
  import opened RequestSpec

  /** Approved exactly while a grant is set and not revoked; a grant is always backed by enough approvers in time. */
  predicate RowOk(row: Request, now: int) {
    && (row.state == Pending ==> row.grant == Grant(None, None, None))
    && (row.state == Approved <==> row.grant.at.Some? && row.grant.revokedAt.None?)
    && (row.grant.at.Some? ==> GrantBacked(row, now))
    && (row.grant.at.None? ==> row.grant.until.None?)
    && (row.scope.action == Connect ==> row.scope.target.Account?)
    && (row.sync.owner != 0 ==> row.sync.state == Running)
  }

  predicate GrantBacked(row: Request, now: int)
    requires row.grant.at.Some?
  {
    var at := row.grant.at.value;
    && EnoughApprovers(row, row.approvers)
    && row.terms.createdAt - MINUTE <= at < row.terms.expiresAt
    && at <= now + MINUTE
    && row.grant.until == Some(at + row.terms.durationMinutes * MINUTE)
  }

  /** The fence: an open request was made under the policy that is in force. */
  predicate Fenced(row: Request, policies: map<PolicyScope, Policy>) {
    Ended(row.state) ||
    (&& PolicyScopeOf(row.scope) in policies
     && policies[PolicyScopeOf(row.scope)].id == row.terms.policy
     && policies[PolicyScopeOf(row.scope)].revision == row.terms.policyRevision)
  }

  /** A row in a worker's hands names a worker that claimed this row. */
  predicate InHands(id: nat, row: Request, workers: map<nat, Worker>) {
    row.sync.owner == 0 || (row.sync.owner in workers && workers[row.sync.owner].request == id)
  }

  ghost predicate RowsOk(sys: Sys) {
    forall id :: id in sys.requests ==>
      RowOk(sys.requests[id], sys.now) && Fenced(sys.requests[id], sys.policies) && InHands(id, sys.requests[id], sys.workers)
  }

  ghost predicate PoliciesOk(sys: Sys) {
    && sys.nextPolicy != 0
    && (forall s :: s in sys.policies ==> 0 < sys.policies[s].id < sys.nextPolicy)
    && (forall s, t :: s in sys.policies && t in sys.policies && sys.policies[s].id == sys.policies[t].id ==> s == t)
  }

  ghost predicate KeysUnique(sys: Sys) {
    forall a, b :: a in sys.requests && b in sys.requests && sys.requests[a].requester == sys.requests[b].requester ==>
      sys.requests[a].key == sys.requests[b].key ==> a == b
  }

  ghost predicate SysOk(sys: Sys) {
    RowsOk(sys) && PoliciesOk(sys) && KeysUnique(sys) && 0 !in sys.workers
  }

  // ---- One row at a time ----

  /** What one transaction may do to a row it finds. The columns fixed at creation stay; an ended request stays ended
   with its grant; a grant once given keeps its times; the provider's revision never goes back. */
  predicate RowLater(a: Request, b: Request) {
    && b.requester == a.requester && b.key == a.key && b.intent == a.intent && b.scope == a.scope && b.terms == a.terms
    && a.revision <= b.revision && a.receipt.revision <= b.receipt.revision
    && (b.state == a.state || a.state == Pending || (a.state == Approved && Ended(b.state)))
    && (Ended(a.state) ==> b.grant == a.grant && b.approvers == a.approvers)
    && (a.grant.at.Some? ==> b.grant.at == a.grant.at && b.grant.until == a.grant.until && b.approvers == a.approvers)
    && (a.grant.revokedAt.Some? ==> b.grant == a.grant)
    && (a.ticket != 0 ==> b.ticket == a.ticket)
  }

  ghost predicate RowsLater(before: map<nat, Request>, after: map<nat, Request>) {
    forall id :: id in before ==> id in after && RowLater(before[id], after[id])
  }

  /** A transaction other than a worker's leaves a row's place in the queue alone or puts the row back to do. */
  predicate SyncKept(a: Request, b: Request) {
    b.sync == a.sync || (b.sync.owner == 0 && b.sync.state == ToDo)
  }

  ghost predicate SyncsKept(before: map<nat, Request>, after: map<nat, Request>) {
    forall id :: id in before && id in after ==> SyncKept(before[id], after[id])
  }

  lemma SweptOk(row: Request, now: int)
    requires RowOk(row, now) && !Ended(row.state)
    ensures RowOk(Swept(row, now), now) && RowLater(row, Swept(row, now)) && Ended(Swept(row, now).state)
  {
  }

  lemma SupersededOk(row: Request, now: int)
    requires RowOk(row, now) && !Ended(row.state)
    ensures RowOk(Superseded(row, now), now) && RowLater(row, Superseded(row, now)) && Ended(Superseded(row, now).state)
  {
  }

  /** The approval branch on a pending row: the activation it ends in cannot fail. */
  lemma ApproveOk(sys: Sys, row: Request, e: Decision, facts: OwnerFacts, policy: Policy)
    requires RowOk(row, sys.now) && row.state == Pending
    requires e.decidedAt.Some? && e.decidedAt.value <= sys.now + MINUTE
    ensures var (saved, error) := Approve(sys, row, e, facts, policy);
      && error != Some(GrantExists)
      && (error.None? ==>
            && RowOk(saved, sys.now) && RowLater(row, saved) && saved.receipt == row.receipt
            && saved.sync == row.sync && saved.ticket == row.ticket
            && (saved.state == Approved ==> ScopeCurrent(sys, row, facts, policy)))
  {
  }

  lemma StampedOk(row: Request, e: Decision, now: int)
    requires RowOk(row, now) && row.receipt.revision < e.providerRevision
    ensures RowOk(Stamped(row, e), now) && RowLater(row, Stamped(row, e))
  {
  }

  lemma SettleOk(sys: Sys, row: Request, e: Decision, facts: OwnerFacts, policy: Policy)
    requires RowOk(row, sys.now) && DecisionComplete(e, sys.now)
    ensures var (saved, error) := Settle(sys, row, e, facts, policy);
      && error != Some(GrantExists)
      && (error.None? ==>
            && RowOk(saved, sys.now) && RowLater(row, saved) && saved.receipt == row.receipt
            && saved.sync == row.sync && saved.ticket == row.ticket
            && (Ended(row.state) ==> Ended(saved.state)))
  {
    hide Approve;
    if row.state == Pending {
      ApproveOk(sys, row, e, facts, policy);
    }
  }

  // ---- Tables ----

  lemma RowIsOk(sys: Sys, id: nat)
    requires SysOk(sys) && id in sys.requests
    ensures RowOk(sys.requests[id], sys.now) && Fenced(sys.requests[id], sys.policies) && InHands(id, sys.requests[id], sys.workers)
  {
  }

  /** One row replaced by a later one. */
  lemma ReplaceKeeps(sys: Sys, id: nat, row: Request)
    requires SysOk(sys) && id in sys.requests
    requires RowOk(row, sys.now) && RowLater(sys.requests[id], row) && InHands(id, row, sys.workers)
    requires Ended(row.state) || !Ended(sys.requests[id].state)
    ensures SysOk(sys.(requests := sys.requests[id := row]))
    ensures RowsLater(sys.requests, sys.requests[id := row])
  {
  }

  lemma CreateKeeps(sys: Sys, id: nat, row: Request)
    requires SysOk(sys) && id !in sys.requests && RowOk(row, sys.now) && Fenced(row, sys.policies) && row.sync.owner == 0
    requires forall i :: i in sys.requests ==> sys.requests[i].requester != row.requester || sys.requests[i].key != row.key
    ensures SysOk(sys.(requests := sys.requests[id := row]))
    ensures RowsLater(sys.requests, sys.requests[id := row])
  {
  }

  lemma DecideKeeps(sys: Sys, e: Decision)
    requires SysOk(sys)
    ensures SysOk(Decide(sys, e).sys)
    ensures RowsLater(sys.requests, Decide(sys, e).sys.requests)
    ensures Decide(sys, e).reply != Refused(GrantExists)
  {
    hide SysOk, Settle, RowOk;
    if e.request in sys.requests && DecisionComplete(e, sys.now) && sys.requests[e.request].receipt.revision < e.providerRevision {
      var row := sys.requests[e.request];
      RowIsOk(sys, e.request);
      StampedOk(row, e, sys.now);
      if row.scope.target in sys.owners {
        SettleOk(sys, Stamped(row, e), e, sys.owners[row.scope.target], PolicyOf(sys, PolicyScopeOf(row.scope)));
      }
      if Decide(sys, e).reply.Ok? {
        ReplaceKeeps(sys, e.request, Decide(sys, e).sys.requests[e.request]);
      }
    }
  }

  lemma ExpireKeeps(sys: Sys, id: nat)
    requires SysOk(sys)
    ensures SysOk(Expire(sys, id).sys) && RowsLater(sys.requests, Expire(sys, id).sys.requests)
  {
    hide SysOk;
    if Expire(sys, id).sys != sys {
      RowIsOk(sys, id);
      ReplaceKeeps(sys, id, Expire(sys, id).sys.requests[id]);
    }
  }

  lemma CancelKeeps(sys: Sys, id: nat, revision: nat)
    requires SysOk(sys)
    ensures SysOk(Cancel(sys, id, revision).sys) && RowsLater(sys.requests, Cancel(sys, id, revision).sys.requests)
  {
    hide SysOk;
    if Cancel(sys, id, revision).sys != sys {
      RowIsOk(sys, id);
      ReplaceKeeps(sys, id, Cancel(sys, id, revision).sys.requests[id]);
    }
  }

  lemma LaterTransitive(a: map<nat, Request>, b: map<nat, Request>, c: map<nat, Request>)
    requires RowsLater(a, b) && RowsLater(b, c)
    ensures RowsLater(a, c)
  {
    forall id | id in a
      ensures id in c && RowLater(a[id], c[id])
    {
      assert RowLater(a[id], b[id]) && RowLater(b[id], c[id]);
    }
  }

  // ---- Bulk updates ----

  /** A sweep that ends every open row whose policy the new table no longer has in force. */
  lemma SweepKeeps(sys: Sys, after: Sys)
    requires SysOk(sys) && PoliciesOk(after) && after.workers == sys.workers && after.now == sys.now
    requires after.requests.Keys == sys.requests.Keys
    requires forall id :: id in sys.requests ==>
      || (!Ended(sys.requests[id].state) && after.requests[id] == Swept(sys.requests[id], sys.now))
      || (after.requests[id] == sys.requests[id] && Fenced(sys.requests[id], after.policies))
    ensures SysOk(after) && RowsLater(sys.requests, after.requests)
  {
    forall id | id in after.requests
      ensures RowOk(after.requests[id], after.now) && Fenced(after.requests[id], after.policies)
      ensures InHands(id, after.requests[id], after.workers) && RowLater(sys.requests[id], after.requests[id])
    {
      RowIsOk(sys, id);
      if !Ended(sys.requests[id].state) {
        SweptOk(sys.requests[id], sys.now);
      }
    }
  }

  lemma SavedPoliciesOk(sys: Sys, account: nat, seenRevision: nat, terms: Policy)
    requires SysOk(sys)
    ensures PoliciesOk(SavePolicy(sys, account, seenRevision, terms).sys)
  {
    hide RowsOk, KeysUnique, SweepPolicy;
  }

  /** Ids are unique, so the sweep by policy id is a sweep by account. */
  lemma SweepsOneScope(sys: Sys, account: nat, id: nat)
    requires SysOk(sys) && id in sys.requests && AccountPolicy(account) in sys.policies && !Ended(sys.requests[id].state)
    ensures SweptByPolicy(sys.requests[id], sys.policies[AccountPolicy(account)].id)
      <==> PolicyScopeOf(sys.requests[id].scope) == AccountPolicy(account)
  {
    RowIsOk(sys, id);
  }

  lemma UnsweptStayFenced(sys: Sys, account: nat, seenRevision: nat, terms: Policy, id: nat)
    requires SysOk(sys) && id in sys.requests && SavePolicy(sys, account, seenRevision, terms).reply.Ok?
    requires AccountPolicy(account) in sys.policies ==> !SweptByPolicy(sys.requests[id], sys.policies[AccountPolicy(account)].id)
    ensures Fenced(sys.requests[id], SavePolicy(sys, account, seenRevision, terms).sys.policies)
  {
    RowIsOk(sys, id);
    hide RowsOk, KeysUnique, SweepPolicy;
  }

  lemma {:induction false} SavePolicyKeeps(sys: Sys, account: nat, seenRevision: nat, terms: Policy)
    requires SysOk(sys)
    ensures SysOk(SavePolicy(sys, account, seenRevision, terms).sys)
    ensures RowsLater(sys.requests, SavePolicy(sys, account, seenRevision, terms).sys.requests)
  {
    hide SysOk, PoliciesOk, Fenced;
    var c := SavePolicy(sys, account, seenRevision, terms);
    SavedPoliciesOk(sys, account, seenRevision, terms);
    if c.reply.Ok? {
      forall id | id in sys.requests && c.sys.requests[id] == sys.requests[id]
        ensures Fenced(sys.requests[id], c.sys.policies)
      {
        DefaultHasNoRow(sys, AccountPolicy(account));
        UnsweptStayFenced(sys, account, seenRevision, terms, id);
      }
      SweepKeeps(sys, c.sys);
    }
  }

  lemma DefaultHasNoRow(sys: Sys, scope: PolicyScope)
    requires SysOk(sys)
    ensures PolicyOf(sys, scope).id == 0 <==> scope !in sys.policies
  {
  }

  lemma {:induction false} SaveViewSettingsKeeps(sys: Sys, seenRevision: nat, approval: bool, template: nat, templateRevision: nat, validMinutes: int)
    requires SysOk(sys)
    ensures var c := SaveViewSettings(sys, seenRevision, approval, template, templateRevision, validMinutes);
      SysOk(c.sys) && RowsLater(sys.requests, c.sys.requests)
  {
    var c := SaveViewSettings(sys, seenRevision, approval, template, templateRevision, validMinutes);
    if c.reply.Ok? {
      forall id | id in sys.requests && c.sys.requests[id] == sys.requests[id]
        ensures Fenced(sys.requests[id], c.sys.policies)
      {
        RowIsOk(sys, id);
      }
      assert PoliciesOk(c.sys) by {
        hide RowsOk, KeysUnique, SweepViews;
      }
      hide SysOk, PoliciesOk, Fenced;
      SweepKeeps(sys, c.sys);
    }
  }

  lemma EnsureViewPolicyKeeps(sys: Sys)
    requires SysOk(sys)
    ensures SysOk(EnsureViewPolicy(sys).sys) && RowsLater(sys.requests, EnsureViewPolicy(sys).sys.requests)
  {
    var c := EnsureViewPolicy(sys);
    assert PoliciesOk(c.sys) by {
      hide RowsOk, KeysUnique;
    }
    forall id | id in sys.requests
      ensures Fenced(sys.requests[id], c.sys.policies)
    {
      RowIsOk(sys, id);
    }
    hide SysOk, PoliciesOk, Fenced;
    SweepKeeps(sys, c.sys);
  }

  lemma {:induction false} RemoveManagementKeeps(sys: Sys, account: nat, revisionMatches: bool, executionActive: bool)
    requires SysOk(sys)
    ensures var c := RemoveManagement(sys, account, revisionMatches, executionActive);
      SysOk(c.sys) && RowsLater(sys.requests, c.sys.requests)
  {
    var c := RemoveManagement(sys, account, revisionMatches, executionActive);
    if c.reply.Ok? {
      forall id | id in sys.requests && c.sys.requests[id] == sys.requests[id]
        ensures Fenced(sys.requests[id], c.sys.policies)
      {
        RowIsOk(sys, id);
      }
      SweepKeeps(sys, c.sys);
    }
  }

  // ---- Creation ----

  lemma CreateConnectKeeps(sys: Sys, input: RequestInput, seenRevision: nat, sourceAllowed: bool, newId: nat)
    requires SysOk(sys)
    ensures var c := CreateConnect(sys, input, seenRevision, sourceAllowed, newId);
      SysOk(c.sys) && RowsLater(sys.requests, c.sys.requests)
  {
    var c := CreateConnect(sys, input, seenRevision, sourceAllowed, newId);
    if c.sys != sys {
      CreateKeeps(sys, newId, c.sys.requests[newId]);
    }
  }

  lemma {:induction false} SupersedeKeeps(sys: Sys, found: seq<nat>, facts: OwnerFacts, policy: Policy)
    requires SysOk(sys)
    requires forall id :: id in found ==> id in sys.requests && !Ended(sys.requests[id].state)
    requires forall i, j :: 0 <= i < j < |found| ==> found[i] != found[j]
    ensures var (requests, standing) := Supersede(sys, found, facts, policy);
      && SysOk(sys.(requests := requests)) && RowsLater(sys.requests, requests)
      && requests.Keys == sys.requests.Keys && SyncsKept(sys.requests, requests)
    decreases |found|
  {
    hide SysOk, StandsInTheWay;
    if found != [] && !StandsInTheWay(sys, sys.requests[found[0]], facts, policy) {
      var row := Superseded(sys.requests[found[0]], sys.now);
      RowIsOk(sys, found[0]);
      SupersededOk(sys.requests[found[0]], sys.now);
      ReplaceKeeps(sys, found[0], row);
      var next := sys.(requests := sys.requests[found[0] := row]);
      SupersedeKeeps(next, found[1..], facts, policy);
      hide RowsLater, RowOk;
      LaterTransitive(sys.requests, next.requests, Supersede(sys, found, facts, policy).0);
    }
  }

  lemma {:induction false} CreateViewKeeps(sys: Sys, input: RequestInput, seen: Policy, found: seq<nat>, newId: nat)
    requires SysOk(sys)
    ensures var c := CreateView(sys, input, seen, found, newId);
      SysOk(c.sys) && RowsLater(sys.requests, c.sys.requests)
  {
    var c := CreateView(sys, input, seen, found, newId);
    if c.sys != sys {
      var policy, facts := sys.policies[ViewPolicy], sys.owners[input.target];
      var (requests, standing) := Supersede(sys, found, facts, policy);
      SupersedeKeeps(sys, found, facts, policy);
      if standing.None? {
        assert c.sys.requests == requests[newId := c.sys.requests[newId]];
        CreateKeeps(sys.(requests := requests), newId, c.sys.requests[newId]);
      }
    }
  }

  // ---- Synchronisation and the world outside ----

  lemma SyncKeeps(sys: Sys, token: nat, id: nat, revision: nat, result: SyncResult)
    requires SysOk(sys)
    ensures SysOk(FinishSync(sys, token, result).sys) && RowsLater(sys.requests, FinishSync(sys, token, result).sys.requests)
    ensures SysOk(RetrySync(sys, id, revision).sys) && RowsLater(sys.requests, RetrySync(sys, id, revision).sys.requests)
  {
    hide SysOk;
    var f, r := FinishSync(sys, token, result).sys, RetrySync(sys, id, revision).sys;
    if f != sys {
      RowIsOk(sys, sys.workers[token].request);
      ReplaceKeeps(sys, sys.workers[token].request, f.requests[sys.workers[token].request]);
    }
    if r != sys {
      RowIsOk(sys, id);
      ReplaceKeeps(sys, id, r.requests[id]);
    }
  }

  lemma BindTicketKeeps(sys: Sys, id: nat, requestRevision: nat, template: nat, templateRevision: nat, ticket: nat)
    requires SysOk(sys)
    ensures var c := BindTicket(sys, id, requestRevision, template, templateRevision, ticket);
      SysOk(c.sys) && RowsLater(sys.requests, c.sys.requests)
  {
    hide SysOk;
    var c := BindTicket(sys, id, requestRevision, template, templateRevision, ticket);
    if c.sys != sys {
      RowIsOk(sys, id);
      ReplaceKeeps(sys, id, c.sys.requests[id]);
    }
  }

  /** A worker more, or one that has read its row. */
  lemma WorkersKeep(sys: Sys, token: nat, worker: Worker)
    requires SysOk(sys) && token != 0
    requires token in sys.workers ==> sys.workers[token].request == worker.request
    ensures SysOk(sys.(workers := sys.workers[token := worker]))
  {
  }

  lemma ClaimSyncKeeps(sys: Sys, token: nat, id: nat)
    requires SysOk(sys)
    ensures SysOk(ClaimSync(sys, token, id).sys) && RowsLater(sys.requests, ClaimSync(sys, token, id).sys.requests)
  {
    hide SysOk;
    var c := ClaimSync(sys, token, id);
    if c.sys != sys {
      RowIsOk(sys, id);
      WorkersKeep(sys, token, c.sys.workers[token]);
      ReplaceKeeps(sys.(workers := c.sys.workers), id, c.sys.requests[id]);
    }
  }

  lemma ReadSyncKeeps(sys: Sys, token: nat)
    requires SysOk(sys)
    ensures SysOk(ReadSync(sys, token).sys)
  {
    if token in sys.workers {
      WorkersKeep(sys, token, sys.workers[token].(hasRead := true));
    }
  }

  lemma SetBindingKeeps(sys: Sys, asset: nat, account: nat, binding: BindingFacts)
    requires SysOk(sys)
    ensures SysOk(SetBinding(sys, asset, account, binding).sys)
    ensures SetBinding(sys, asset, account, binding).sys.requests == sys.requests
  {
    hide SysOk;
    OutsideKeeps(sys, SetBinding(sys, asset, account, binding).sys);
  }

  lemma OutsideKeeps(sys: Sys, after: Sys)
    requires SysOk(sys) && after == sys.(owners := after.owners, bindings := after.bindings, nextBinding := after.nextBinding, now := after.now)
    requires sys.now <= after.now
    ensures SysOk(after)
  {
    forall id | id in after.requests
      ensures RowOk(after.requests[id], after.now)
    {
      RowIsOk(sys, id);
    }
  }
}
