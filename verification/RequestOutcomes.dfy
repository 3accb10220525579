/** What each transaction on requests that exist comes to, on the rows before and after it: decisions of the provider,
 local closing, policy saves, and the synchronisation queue, the refusals included. */
module RequestOutcomes {
  import opened AuthActions
  import opened Basics
  import T = Tables
  import opened RequestTables
  import S = RequestSpec
  import V = RequestInvariant
  import R = RequestRuns

  /** No access at any instant. */
  ghost predicate NoAccess(row: Request) {
    forall t :: !S.HasActiveAccess(row, t)
  }

  /** Over, without access, in every state the requests can reach from here. */
  ghost predicate OverForGood(sys: Sys, id: nat, state: RequestState) {
    forall later: seq<R.Event> ::
      id in R.Run(sys, later).requests && R.Run(sys, later).requests[id].state == state && NoAccess(R.Run(sys, later).requests[id])
  }

  lemma EndedIsOver(sys: Sys, id: nat)
    requires V.SysOk(sys) && id in sys.requests && Ended(sys.requests[id].state)
    ensures OverForGood(sys, id, sys.requests[id].state)
  {
    hide V.SysOk, R.Run;
    forall later: seq<R.Event>
      ensures id in R.Run(sys, later).requests && R.Run(sys, later).requests[id].state == sys.requests[id].state
      ensures NoAccess(R.Run(sys, later).requests[id])
    {
      R.RunKeeps(sys, later);
      assert V.RowLater(sys.requests[id], R.Run(sys, later).requests[id]);
    }
  }

  // ---- Decisions ----

  /** A decision as acceptPAMITSMDecision wants it. */
  predicate WellFormed(e: Decision, now: int) {
    && e.event != 0 && e.request != 0 && e.requestRevision != 0 && e.providerRevision != 0 && e.ticket != 0 && e.template != 0
    && e.decidedAt.Some? && e.decidedAt.value <= now + MINUTE && e.verdict.Some? && e.verdict != Some(Pending)
  }

  /** Its request and what that is about can be read. */
  predicate Readable(sys: Sys, e: Decision) {
    && e.request in sys.requests && sys.requests[e.request].scope.target in sys.owners
    && (sys.requests[e.request].scope.action == Retrieve ==> ViewPolicy in sys.policies)
  }

  predicate OfTicket(row: Request, e: Decision) {
    && row.terms.template == e.template && row.terms.templateRevision == e.templateRevision
    && row.terms.requestRevision == e.requestRevision && row.ticket == e.ticket
  }

  /** One the row has not seen: a larger revision under another event id. */
  predicate Newer(row: Request, e: Decision) {
    row.receipt.revision < e.providerRevision && row.receipt.event != e.event
  }

  /** It is the last one that was accepted, delivered again. */
  predicate SeenBefore(row: Request, e: Decision) {
    row.receipt == Receipt(e.providerRevision, e.event, Some(e))
  }

  predicate ToSettle(sys: Sys, e: Decision) {
    WellFormed(e, sys.now) && Readable(sys, e) && OfTicket(sys.requests[e.request], e) && Newer(sys.requests[e.request], e)
  }

  /** The approval of a pending request. */
  predicate IsApproval(sys: Sys, e: Decision) {
    ToSettle(sys, e) && sys.requests[e.request].state == Pending && e.verdict == Some(Approved)
  }

  /** Enough people, each of them real, no one twice and not the requester. */
  predicate EnoughPeople(row: Request, e: Decision) {
    && |e.approvers| >= row.terms.required
    && (forall uid :: uid in e.approvers ==> uid > 0 && uid != row.requester)
    && (forall i, j :: 0 <= i < j < |e.approvers| ==> e.approvers[i] != e.approvers[j])
  }

  /** Every refusal, with its exact condition. */
  lemma {:induction false} DecisionAnsweredExactly(sys: Sys, e: Decision)
    requires V.SysOk(sys)
    ensures var reply := S.Decide(sys, e).reply;
      var found := WellFormed(e, sys.now) && Readable(sys, e);
      && (reply == Refused(BadInput) <==> !WellFormed(e, sys.now))
      && (reply == Refused(NotFound) <==> WellFormed(e, sys.now) && !Readable(sys, e))
      && (reply == Refused(ScopeChanged) <==>
            found && (!OfTicket(sys.requests[e.request], e) || (IsApproval(sys, e) && EnoughPeople(sys.requests[e.request], e)
              && e.decidedAt.value < sys.requests[e.request].terms.createdAt - MINUTE)))
      && (reply == Refused(RevisionChanged) <==>
            found && OfTicket(sys.requests[e.request], e) && !Newer(sys.requests[e.request], e) && !SeenBefore(sys.requests[e.request], e))
      && (reply == Refused(Denied) <==> IsApproval(sys, e) && !EnoughPeople(sys.requests[e.request], e))
      && (reply.Ok? ==> reply == Ok(e.request))
      && (reply.Refused? ==> S.Decide(sys, e).sys == sys && reply.error in {BadInput, NotFound, ScopeChanged, RevisionChanged, Denied})
  {
    hide V.SysOk, S.ScopeCurrent, S.UidSet;
    if e.request in sys.requests {
      V.RowIsOk(sys, e.request);
      R.SameSizeMeansDistinct(e.approvers, sys.requests[e.request].requester);
    }
  }

  /** Rejection, cancellation, invalidation or expiry by the provider ends an open request, a running grant included, at
   once and for good. */
  lemma {:induction false} DecisionEnds(sys: Sys, e: Decision)
    requires V.SysOk(sys) && ToSettle(sys, e) && !Ended(sys.requests[e.request].state) && e.verdict != Some(Approved)
    ensures var c, row := S.Decide(sys, e), sys.requests[e.request];
      && c.reply == Ok(e.request)
      && c.sys == sys.(requests := sys.requests[e.request := row.(
           state := e.verdict.value, revision := row.revision + 1, grant := row.grant.(revokedAt := Some(sys.now)),
           receipt := Receipt(e.providerRevision, e.event, Some(e)))])
      && OverForGood(c.sys, e.request, e.verdict.value)
  {
    hide V.SysOk, OverForGood;
    V.RowIsOk(sys, e.request);
    V.DecideKeeps(sys, e);
    EndedIsOver(S.Decide(sys, e).sys, e.request);
  }

  /** On an ended request, and as a second approval, a decision is only recorded. */
  lemma DecisionOnlyRecorded(sys: Sys, e: Decision)
    requires V.SysOk(sys) && ToSettle(sys, e)
    requires var row := sys.requests[e.request]; Ended(row.state) || (row.state == Approved && e.verdict == Some(Approved))
    ensures S.Decide(sys, e) == Commit(sys.(requests :=
      sys.requests[e.request := sys.requests[e.request].(receipt := Receipt(e.providerRevision, e.event, Some(e)))]), Ok(e.request))
  {
    hide V.SysOk;
  }

  /** One delivered again changes nothing. */
  lemma RedeliveryAnswered(sys: Sys, e: Decision)
    requires WellFormed(e, sys.now) && Readable(sys, e) && OfTicket(sys.requests[e.request], e) && SeenBefore(sys.requests[e.request], e)
    ensures S.Decide(sys, e) == Commit(sys, Ok(e.request))
  {
  }

  /** The scope of a request is still what it was: the policy and its revision, the owner in use, and the binding with its
   revision, or the credential and user name that were to be seen. */
  predicate ScopeStands(sys: Sys, row: Request)
    requires row.scope.target in sys.owners
  {
    var facts := sys.owners[row.scope.target];
    && S.PolicyScopeOf(row.scope) in sys.policies
    && sys.policies[S.PolicyScopeOf(row.scope)].id == row.terms.policy
    && sys.policies[S.PolicyScopeOf(row.scope)].revision == row.terms.policyRevision
    && (row.scope.target.Account? && facts.managed ==> facts.enabled)
    && (row.scope.action == Retrieve ==>
          && Retrieve in sys.policies[ViewPolicy].approvalActions
          && row.scope.credential == facts.credential && row.scope.username == facts.username)
    && (row.scope.action == Connect ==>
          && (row.scope.target.Account? && facts.managed ==> facts.authorityPresent)
          && row.scope.target.Account? && row.scope.asset != 0 && row.scope.target.id != 0
          && (row.scope.asset, row.scope.target.id) in sys.bindings
          && var binding := sys.bindings[(row.scope.asset, row.scope.target.id)];
             && binding.assetExists && binding.enabled && binding.matchesAsset
             && binding.id == row.scope.binding && binding.revision == row.scope.bindingRevision)
  }

  /** Which scopes are current, for requests under a policy row. */
  lemma ScopeCurrentExactly(sys: Sys, row: Request)
    requires V.SysOk(sys) && row.scope.target in sys.owners && row.terms.policy != 0
    ensures S.ScopeCurrent(sys, row, sys.owners[row.scope.target], S.PolicyOf(sys, S.PolicyScopeOf(row.scope))) <==> ScopeStands(sys, row)
  {
    hide V.RowsOk, V.KeysUnique;
  }

  /** What an approval by enough people, not decided before the application, makes of a pending request: expired if it
   comes late, invalidated if the scope does not stand, and otherwise approved for the time asked. */
  lemma {:induction false} ApprovalSettles(sys: Sys, e: Decision)
    requires V.SysOk(sys) && IsApproval(sys, e) && EnoughPeople(sys.requests[e.request], e)
    requires e.decidedAt.value >= sys.requests[e.request].terms.createdAt - MINUTE
    ensures var c, row, at := S.Decide(sys, e), sys.requests[e.request], e.decidedAt.value;
      var until := at + row.terms.durationMinutes * MINUTE;
      var late := at >= row.terms.expiresAt || sys.now >= until;
      var state := if late then Expired else if ScopeStands(sys, row) then Approved else Invalidated;
      && c.reply == Ok(e.request)
      && c.sys == sys.(requests := sys.requests[e.request := row.(
           state := state, revision := row.revision + 1, approvers := e.approvers,
           grant := if state == Approved then Grant(Some(at), Some(until), None) else Grant(None, None, None),
           receipt := Receipt(e.providerRevision, e.event, Some(e)))])
      && forall t :: S.HasActiveAccess(c.sys.requests[e.request], t) <==> state == Approved && at <= t < until
  {
    hide V.SysOk, S.ScopeCurrent, ScopeStands, S.UidSet;
    V.RowIsOk(sys, e.request);
    PendingHasPolicy(sys, e.request);
    R.SameSizeMeansDistinct(e.approvers, sys.requests[e.request].requester);
    StampedScope(sys, sys.requests[e.request], e);
    ScopeCurrentExactly(sys, sys.requests[e.request]);
  }

  lemma StampedScope(sys: Sys, row: Request, e: Decision)
    ensures forall facts, policy :: S.ScopeCurrent(sys, S.Stamped(row, e), facts, policy) <==> S.ScopeCurrent(sys, row, facts, policy)
  {
  }

  lemma PendingHasPolicy(sys: Sys, id: nat)
    requires V.SysOk(sys) && id in sys.requests && !Ended(sys.requests[id].state)
    ensures sys.requests[id].terms.policy != 0
  {
    V.RowIsOk(sys, id);
  }

  // ---- Local closing ----

  /** Cancelling: exactly on an open request at the revision seen, or one cancelled already, which stays as it is. */
  lemma {:induction false} CancelledExactly(sys: Sys, id: nat, revision: nat)
    requires V.SysOk(sys)
    ensures var c := S.Cancel(sys, id, revision);
      && (c.reply.Ok? <==>
            revision != 0 && id in sys.requests
            && (sys.requests[id].state == Cancelled || (sys.requests[id].revision == revision && !Ended(sys.requests[id].state))))
      && (c.reply.Refused? || sys.requests[id].state == Cancelled ==> c.sys == sys)
      && (c.reply.Ok? && sys.requests[id].state != Cancelled ==>
            && c.sys == sys.(requests := sys.requests[id := sys.requests[id].(
                 state := Cancelled, revision := revision + 1, grant := sys.requests[id].grant.(revokedAt := Some(sys.now)),
                 sync := Sync(ToDo, 0, sys.now, 0, None))])
            && OverForGood(c.sys, id, Cancelled))
  {
    hide V.SysOk, OverForGood;
    if id in sys.requests { V.RowIsOk(sys, id); }
    var c := S.Cancel(sys, id, revision);
    if c.reply.Ok? && sys.requests[id].state != Cancelled {
      V.CancelKeeps(sys, id, revision);
      EndedIsOver(c.sys, id);
    }
  }

  /** Expiry: exactly of a pending request past its time, or an approved one past its grant. */
  lemma {:induction false} ExpiredExactly(sys: Sys, id: nat)
    requires V.SysOk(sys) && id in sys.requests
    ensures var c, row := S.Expire(sys, id), sys.requests[id];
      var due := (row.state == Pending && row.terms.expiresAt <= sys.now)
        || (row.state == Approved && row.grant.until.Some? && row.grant.until.value <= sys.now);
      && c.reply == Ok(id)
      && (!due ==> c.sys == sys)
      && (due ==>
            && c.sys == sys.(requests := sys.requests[id := row.(
                 state := Expired, revision := row.revision + 1, grant := row.grant.(revokedAt := Some(sys.now)))])
            && OverForGood(c.sys, id, Expired))
  {
    hide V.SysOk, OverForGood;
    V.RowIsOk(sys, id);
    var c := S.Expire(sys, id);
    if c.sys != sys {
      V.ExpireKeeps(sys, id);
      EndedIsOver(c.sys, id);
    }
  }

  // ---- Policies ----

  /** A request closed by a bulk update. */
  predicate SweptAway(a: Request, b: Request, now: int) {
    && !Ended(a.state)
    && b == a.(state := Invalidated, revision := a.revision + 1, grant := a.grant.(revokedAt := Some(now)),
               sync := a.sync.(state := ToDo, nextAt := now, owner := 0, until := None))
  }

  /** Exactly the open requests under this target's policy were closed. */
  ghost predicate ClosedUnder(sys: Sys, after: Sys, scope: PolicyScope) {
    && after.requests.Keys == sys.requests.Keys
    && forall id :: id in sys.requests ==>
         if S.PolicyScopeOf(sys.requests[id].scope) == scope && !Ended(sys.requests[id].state)
         then SweptAway(sys.requests[id], after.requests[id], sys.now) else after.requests[id] == sys.requests[id]
  }

  predicate SettingsOk(terms: Policy) {
    && 1 <= terms.required <= 2 && 1 <= terms.maxDurationMinutes <= 10080 && 1 <= terms.expiryMinutes <= 43200
    && (terms.approvalActions == [] || terms.approvalActions == [Connect]) && terms.permissions.connect && !terms.permissions.share
    && ((terms.template != 0 && terms.templateRevision != 0) || (!terms.allowRequests && terms.approvalActions == []))
  }

  /** A policy save: when it is accepted, that it stores every setting given under the next revision, and that it closes
   exactly the open requests made under the old one. */
  lemma {:induction false} PolicySavedExactly(sys: Sys, account: nat, seenRevision: nat, terms: Policy)
    requires V.SysOk(sys)
    ensures var c, scope := S.SavePolicy(sys, account, seenRevision, terms), AccountPolicy(account);
      && (c.reply.Ok? <==>
            && T.Account(account) in sys.owners && sys.owners[T.Account(account)].managed && SettingsOk(terms)
            && seenRevision == (if scope in sys.policies then sys.policies[scope].revision else 0))
      && (c.reply.Refused? ==> c.sys == sys)
      && (c.reply.Ok? ==>
            && c.sys.policies == sys.policies[scope := terms.(revision := seenRevision + 1,
                 id := if scope in sys.policies then sys.policies[scope].id else sys.nextPolicy)]
            && c.sys == sys.(policies := c.sys.policies, requests := c.sys.requests, nextPolicy := c.sys.nextPolicy)
            && c.sys.nextPolicy == sys.nextPolicy + (if scope in sys.policies then 0 else 1)
            && ClosedUnder(sys, c.sys, scope))
  {
    hide V.RowsOk, V.KeysUnique, ClosedUnder;
    var c := S.SavePolicy(sys, account, seenRevision, terms);
    if c.reply.Ok? { PolicySaveCloses(sys, c.sys, account); }
  }

  lemma PolicySaveCloses(sys: Sys, after: Sys, account: nat)
    requires V.SysOk(sys)
    requires var scope := AccountPolicy(account);
      after.requests == if scope in sys.policies then S.SweepPolicy(sys.requests, sys.policies[scope].id, sys.now) else sys.requests
    ensures ClosedUnder(sys, after, AccountPolicy(account))
  {
    hide V.SysOk;
    forall id | id in sys.requests && !Ended(sys.requests[id].state)
      ensures S.PolicyScopeOf(sys.requests[id].scope) == AccountPolicy(account) <==>
        AccountPolicy(account) in sys.policies && sys.requests[id].terms.policy == sys.policies[AccountPolicy(account)].id
    {
      SameIdSameScope(sys, id, AccountPolicy(account));
    }
  }

  lemma SameIdSameScope(sys: Sys, id: nat, scope: PolicyScope)
    requires V.SysOk(sys) && id in sys.requests && !Ended(sys.requests[id].state)
    ensures S.PolicyScopeOf(sys.requests[id].scope) == scope <==>
      scope in sys.policies && sys.requests[id].terms.policy == sys.policies[scope].id
  {
    hide V.KeysUnique;
    V.RowIsOk(sys, id);
  }

  /** The settings for viewing passwords: one approval or none, for at most an hour; saving them closes exactly the open
   view requests. */
  lemma {:induction false} SettingsSavedExactly(sys: Sys, seenRevision: nat, approval: bool, template: nat, templateRevision: nat, minutes: int)
    requires V.SysOk(sys)
    ensures var c := S.SaveViewSettings(sys, seenRevision, approval, template, templateRevision, minutes);
      && (c.reply.Ok? <==>
            && ViewPolicy in sys.policies && sys.policies[ViewPolicy].revision == seenRevision
            && 1 <= minutes <= 60 && (approval ==> template != 0))
      && (c.reply.Refused? ==> c.sys == sys)
      && (c.reply.Ok? ==>
            && c.sys.policies == sys.policies[ViewPolicy := c.sys.policies[ViewPolicy]]
            && c.sys == sys.(policies := c.sys.policies, requests := c.sys.requests)
            && ViewSettings(sys.policies[ViewPolicy], c.sys.policies[ViewPolicy], approval, template, templateRevision, minutes)
            && ClosedUnder(sys, c.sys, ViewPolicy))
  {
    hide V.SysOk;
  }

  predicate ViewSettings(a: Policy, b: Policy, approval: bool, template: nat, templateRevision: nat, minutes: int) {
    && b.id == a.id && b.revision == a.revision + 1 && b.required == 1 && b.maxDurationMinutes == minutes
    && b.expiryMinutes == a.expiryMinutes && b.permissions == a.permissions && b.allowRequests == approval
    && (approval ==> b.approvalActions == [Retrieve] && b.template == template && b.templateRevision == templateRevision)
    && (!approval ==> b.approvalActions == [] && b.template == 0 && b.templateRevision == 0)
  }

  /** Removing management takes the policy and every binding of the account with it, and closes exactly its open
   connection requests. */
  lemma {:induction false} ManagementRemovedExactly(sys: Sys, account: nat, revisionMatches: bool, executionActive: bool)
    requires V.SysOk(sys)
    ensures var c, owner := S.RemoveManagement(sys, account, revisionMatches, executionActive), T.Account(account);
      && (c.reply.Ok? <==> owner in sys.owners && sys.owners[owner].managed && revisionMatches && !executionActive)
      && (c.reply.Refused? ==> c.sys == sys)
      && (c.reply.Ok? ==>
            && AccountPolicy(account) !in c.sys.policies && c.sys.policies == sys.policies - {AccountPolicy(account)}
            && (forall b :: b in c.sys.bindings <==> b in sys.bindings && b.1 != account)
            && (forall b :: b in c.sys.bindings ==> c.sys.bindings[b] == sys.bindings[b])
            && c.sys.owners == sys.owners[owner := sys.owners[owner].(managed := false, enabled := true)]
            && c.sys == sys.(policies := c.sys.policies, requests := c.sys.requests, bindings := c.sys.bindings, owners := c.sys.owners)
            && ClosedUnder(sys, c.sys, AccountPolicy(account)))
  {
    hide V.SysOk;
    forall id | id in sys.requests && S.PolicyScopeOf(sys.requests[id].scope) == AccountPolicy(account)
      ensures sys.requests[id].scope.target == T.Account(account)
    {
      V.RowIsOk(sys, id);
    }
  }

  /** The settings row is made once, asking for approval if any policy there is asks for it. */
  lemma ViewPolicyEnsured(sys: Sys)
    ensures var c := S.EnsureViewPolicy(sys);
      && c.reply.Ok? && ViewPolicy in c.sys.policies && (ViewPolicy in sys.policies ==> c.sys == sys)
      && (ViewPolicy !in sys.policies ==>
            && c.sys == sys.(policies := sys.policies[ViewPolicy := c.sys.policies[ViewPolicy]], nextPolicy := sys.nextPolicy + 1)
            && var made := c.sys.policies[ViewPolicy];
               && made.id == sys.nextPolicy && made.revision == 1 && made.required == 1 && made.maxDurationMinutes == 5
               && made.expiryMinutes == 24 * 60 && made.template == 0 && made.templateRevision == 0 && made.permissions == NO_PERMISSIONS
               && made.allowRequests == (made.approvalActions == [Retrieve]) && (made.approvalActions == [] || made.approvalActions == [Retrieve])
               && (Retrieve in made.approvalActions <==> exists s :: s in sys.policies && Retrieve in sys.policies[s].approvalActions))
  {
  }

  // ---- The queue ----

  /** A ticket is bound by a status for this very request, once: another ticket is refused. */
  lemma TicketBoundExactly(sys: Sys, id: nat, requestRevision: nat, template: nat, templateRevision: nat, ticket: nat)
    ensures var c := S.BindTicket(sys, id, requestRevision, template, templateRevision, ticket);
      && (c.reply.Ok? <==>
            && id in sys.requests && ticket != 0 && sys.requests[id].terms.requestRevision == requestRevision
            && sys.requests[id].terms.template == template && sys.requests[id].terms.templateRevision == templateRevision
            && (sys.requests[id].ticket == 0 || sys.requests[id].ticket == ticket))
      && c.sys == if c.reply.Ok? then sys.(requests := sys.requests[id := sys.requests[id].(ticket := ticket)]) else sys
  {
  }

  /** A worker gets a row exactly if it is to do, or its last worker has had its minute, and its time has come. */
  lemma ClaimedExactly(sys: Sys, token: nat, id: nat)
    ensures var c := S.ClaimSync(sys, token, id);
      && (c.reply.Ok? <==>
            && token != 0 && token !in sys.workers && id in sys.requests
            && sys.requests[id].sync.state != Done && sys.requests[id].sync.state != GaveUp
            && sys.requests[id].sync.nextAt <= sys.now
            && (sys.requests[id].sync.until.Some? ==> sys.requests[id].sync.until.value < sys.now))
      && (c.reply.Refused? ==> c.sys == sys)
      && (c.reply.Ok? ==>
            && c.reply == Ok(id)
            && c.sys == sys.(
                 requests := sys.requests[id := sys.requests[id].(sync := sys.requests[id].sync.(
                   state := Running, owner := token, until := Some(sys.now + MINUTE)))],
                 workers := sys.workers[token := Worker(id, sys.requests[id].sync.attempts, false)]))
  {
  }

  function TwoTo(n: nat): nat {
    if n == 0 then 1 else 2 * TwoTo(n - 1)
  }

  lemma {:induction false} BackoffDoubles(attempts: nat)
    ensures S.Backoff(attempts) == SECOND * TwoTo(if attempts < 8 then attempts else 8)
  {
    assert TwoTo(0) == 1 && TwoTo(1) == 2 && TwoTo(2) == 4 && TwoTo(3) == 8;
    assert TwoTo(4) == 16 && TwoTo(5) == 32 && TwoTo(6) == 64 && TwoTo(7) == 128 && TwoTo(8) == 256;
  }

  /** What a turn leaves: after a failure the row is due again in two seconds, then four, up to 256, and given up at the
   eighth; after a success it is done, or due again in fifteen seconds. A row that is in other hands by now, or in
   nobody's, is left alone. */
  lemma {:induction false} FinishedExactly(sys: Sys, token: nat, result: S.SyncResult)
    ensures var c := S.FinishSync(sys, token, result);
      && (c.reply.Ok? <==> token in sys.workers && (result.Synced? ==> sys.workers[token].hasRead))
      && (c.reply.Refused? ==> c.sys == sys)
      && (c.reply.Ok? ==>
            var id, failures := sys.workers[token].request, sys.workers[token].attempts + 1;
            if id !in sys.requests || sys.requests[id].sync.owner != token then c.sys == sys
            else c.sys == sys.(requests := sys.requests[id := sys.requests[id].(sync :=
              if result.Synced? then Sync(if result.done then Done else ToDo, 0, sys.now + 15 * SECOND, 0, None)
              else Sync(if failures < 8 then ToDo else GaveUp, failures,
                        sys.now + SECOND * TwoTo(if failures < 8 then failures else 8), 0, None))]))
  {
    if token in sys.workers { BackoffDoubles(sys.workers[token].attempts + 1); }
  }

  /** Only a row that was given up is taken up again by hand, at the revision seen, from the beginning. */
  lemma RetriedExactly(sys: Sys, id: nat, revision: nat)
    ensures var c := S.RetrySync(sys, id, revision);
      && (c.reply.Ok? <==> id in sys.requests && sys.requests[id].revision == revision && sys.requests[id].sync.state == GaveUp)
      && (c.reply.Refused? ==> c.sys == sys)
      && (c.reply.Ok? ==> c.sys == sys.(requests := sys.requests[id := sys.requests[id].(sync := Sync(ToDo, 0, sys.now, 0, None))]))
  {
  }

  /** A worker that gets the row five minutes later, and fails. */
  ghost function FailedTurn(sys: Sys, token: nat, id: nat): Sys {
    R.Step(R.Step(R.Step(sys, R.Tick(5 * MINUTE)), R.ClaimSync(token, id)), R.FinishSync(token, S.Failed))
  }

  ghost function FailedTurns(sys: Sys, tokens: seq<nat>, id: nat): Sys {
    if tokens == [] then sys else FailedTurn(FailedTurns(sys, tokens[..|tokens| - 1], id), tokens[|tokens| - 1], id)
  }

  /** Due at most 256 seconds from now, after so many failures. */
  predicate FailedBefore(sys: Sys, id: nat, failures: nat) {
    && id in sys.requests
    && var sync := sys.requests[id].sync;
       sync.attempts == failures && sync.owner == 0 && sync.until.None? && sync.nextAt <= sys.now + 256 * SECOND
       && sync.state == (if failures < 8 then ToDo else GaveUp)
  }

  lemma OneFailure(sys: Sys, token: nat, id: nat, failures: nat)
    requires FailedBefore(sys, id, failures) && failures < 8 && token != 0 && token !in sys.workers
    ensures FailedBefore(FailedTurn(sys, token, id), id, failures + 1)
    ensures FailedTurn(sys, token, id).workers.Keys == sys.workers.Keys + {token}
  {
    hide R.Step, S.ClaimSync, S.FinishSync, TwoTo;
    var later := sys.(now := sys.now + 5 * MINUTE);
    var claimed := S.ClaimSync(later, token, id).sys;
    StepsOfTurn(sys, token, id);
    ClaimedExactly(later, token, id);
    FinishedExactly(claimed, token, S.Failed);
    DelayBounded(failures + 1);
  }

  lemma StepsOfTurn(sys: Sys, token: nat, id: nat)
    ensures FailedTurn(sys, token, id)
      == S.FinishSync(S.ClaimSync(sys.(now := sys.now + 5 * MINUTE), token, id).sys, token, S.Failed).sys
  {
    hide S.ClaimSync, S.FinishSync;
  }

  lemma DelayBounded(failures: nat)
    ensures 0 < TwoTo(if failures < 8 then failures else 8) <= 256
  {
    assert TwoTo(0) == 1 && TwoTo(1) == 2 && TwoTo(2) == 4 && TwoTo(3) == 8;
    assert TwoTo(4) == 16 && TwoTo(5) == 32 && TwoTo(6) == 64 && TwoTo(7) == 128 && TwoTo(8) == 256;
  }

  /** Seven failures in a row leave the row to do, the eighth gives it up. */
  lemma {:induction false} EightFailuresGiveUp(sys: Sys, tokens: seq<nat>, id: nat)
    requires FailedBefore(sys, id, 0) && |tokens| <= 8
    requires forall i :: 0 <= i < |tokens| ==> tokens[i] != 0 && tokens[i] !in sys.workers
    requires forall i, j :: 0 <= i < j < |tokens| ==> tokens[i] != tokens[j]
    ensures FailedBefore(FailedTurns(sys, tokens, id), id, |tokens|)
    ensures FailedTurns(sys, tokens, id).workers.Keys == sys.workers.Keys + set t | t in tokens
    decreases |tokens|
  {
    hide FailedTurn, FailedBefore;
    if tokens != [] {
      var n := |tokens| - 1;
      EightFailuresGiveUp(sys, tokens[..n], id);
      OneFailure(FailedTurns(sys, tokens[..n], id), tokens[n], id, n);
      assert tokens == tokens[..n] + [tokens[n]];
    }
  }
}
