/** What an application for access comes to: when it is accepted, what is stored of it, and what an access that is ever
 active owes to the policy in force when it was applied for. */
module RequestCreation {
  import opened AuthActions
  import opened Basics
  import T = Tables
  import opened RequestTables
  import S = RequestSpec
  import V = RequestInvariant
  import R = RequestRuns
  import O = RequestOutcomes

  /** A pair of requester and key no request has. */
  predicate NewKey(sys: Sys, input: S.RequestInput) {
    forall id :: id in sys.requests ==> sys.requests[id].requester != input.requester || sys.requests[id].key != input.key
  }

  lemma KeyIsNew(sys: Sys, input: S.RequestInput)
    ensures NewKey(sys, input) <==> !S.KeyTaken(sys, input)
  {
  }

  // ---- Connections ----

  predicate WellFormed(input: S.RequestInput) {
    input.requester > 0 && input.key != 0 && input.target.id != 0 && input.durationMinutes >= 1
  }

  /** The account can be applied for: managed, in use, its authority present, under a saved policy not saved since. */
  predicate AccountOpen(sys: Sys, input: S.RequestInput, seenRevision: nat) {
    && input.target.Account? && input.target in sys.owners
    && sys.owners[input.target].managed && sys.owners[input.target].enabled && sys.owners[input.target].authorityPresent
    && AccountPolicy(input.target.id) in sys.policies
    && sys.policies[AccountPolicy(input.target.id)].revision == seenRevision
    && input.durationMinutes <= sys.policies[AccountPolicy(input.target.id)].maxDurationMinutes
  }

  /** It is bound to the asset, and the binding can be used. */
  predicate BindingOpen(sys: Sys, input: S.RequestInput) {
    && input.asset != 0 && input.account != 0 && input.account == input.target.id && (input.asset, input.account) in sys.bindings
    && var binding := sys.bindings[(input.asset, input.account)];
       binding.assetExists && binding.enabled && binding.matchesAsset
  }

  lemma {:induction false} ApplicationAcceptedExactly(sys: Sys, input: S.RequestInput, seenRevision: nat, source: bool, newId: nat)
    requires V.SysOk(sys)
    ensures var c := S.CreateConnect(sys, input, seenRevision, source, newId);
      && (NewKey(sys, input) ==>
            (c.reply.Ok? <==>
               && WellFormed(input) && AccountOpen(sys, input, seenRevision) && BindingOpen(sys, input) && source
               && newId != 0 && newId !in sys.requests))
      && (c.reply.Refused? ==> c.sys == sys)
  {
    hide V.RowsOk, V.KeysUnique;
    KeyIsNew(sys, input);
  }

  /** A key that was used is answered with its request, if it was asked for the same, and nothing is stored. */
  lemma RepeatAnsweredExactly(sys: Sys, input: S.RequestInput, seenRevision: nat, source: bool, newId: nat, id: nat)
    requires V.SysOk(sys) && id in sys.requests && sys.requests[id].requester == input.requester && sys.requests[id].key == input.key
    ensures var c := S.CreateConnect(sys, input, seenRevision, source, newId);
      && c.sys == sys
      && (WellFormed(input) ==> c.reply == if sys.requests[id].intent == input.intent then Ok(id) else Refused(RevisionChanged))
      && (!WellFormed(input) ==> c.reply.Refused?)
  {
    hide V.RowsOk, V.PoliciesOk;
    R.OnlyRowOfKey(sys, input, id);
  }

  /** A request nobody has decided on, due for the provider at once. */
  predicate Untouched(row: Request, now: int) {
    && row.state == Pending && row.revision == 1 && row.ticket == 0 && row.approvers == []
    && row.receipt == Receipt(0, 0, None) && row.grant == Grant(None, None, None)
    && row.sync == Sync(ToDo, 0, now, 0, None) && S.Claimable(row, now)
  }

  /** The terms are those of this policy, at its present revision. */
  predicate UnderPolicy(terms: Terms, policy: Policy, now: int) {
    && terms.policy == policy.id && terms.policyRevision == policy.revision
    && terms.template == policy.template && terms.templateRevision == policy.templateRevision
    && terms.requestRevision == 1 && terms.createdAt == now && terms.expiresAt == now + policy.expiryMinutes * MINUTE
  }

  predicate StoredAs(row: Request, input: S.RequestInput) {
    row.requester == input.requester && row.key == input.key && row.intent == input.intent && row.scope.target == input.target
  }

  /** What is stored of an accepted application: who asked for what, the binding as it is, and the policy in force; and
   nothing else changes. */
  lemma {:induction false} ApplicationStored(sys: Sys, input: S.RequestInput, seenRevision: nat, source: bool, newId: nat)
    requires V.SysOk(sys) && NewKey(sys, input) && S.CreateConnect(sys, input, seenRevision, source, newId).reply.Ok?
    ensures var c := S.CreateConnect(sys, input, seenRevision, source, newId);
      && c.reply == Ok(newId) && newId !in sys.requests && newId in c.sys.requests
      && c.sys == sys.(requests := sys.requests[newId := c.sys.requests[newId]])
      && ConnectStored(sys, c.sys.requests[newId], input)
  {
    hide V.RowsOk, V.KeysUnique;
    KeyIsNew(sys, input);
  }

  predicate ConnectStored(sys: Sys, row: Request, input: S.RequestInput) {
    && AccountPolicy(input.target.id) in sys.policies && (input.asset, input.account) in sys.bindings && input.target in sys.owners
    && var policy := sys.policies[AccountPolicy(input.target.id)];
       var binding := sys.bindings[(input.asset, input.account)];
       && StoredAs(row, input) && Untouched(row, sys.now) && UnderPolicy(row.terms, policy, sys.now)
       && row.scope.action == Connect && row.scope.asset == input.asset && row.scope.credential == 0
       && row.scope.binding == binding.id && row.scope.bindingRevision == binding.revision
       && row.scope.username == sys.owners[input.target].username
       && row.terms.required == policy.required && row.terms.permissions == policy.permissions
       && row.terms.durationMinutes == input.durationMinutes <= policy.maxDurationMinutes
  }

  // ---- Viewing a password ----

  predicate ViewWellFormed(input: S.RequestInput, seen: Policy) {
    && input.requester > 0 && input.key != 0 && input.target.id != 0 && input.asset == 0 && input.account == 0
    && seen.template != 0 && (input.durationMinutes == 0 || input.durationMinutes == seen.maxDurationMinutes)
  }

  predicate ViewOpen(sys: Sys, input: S.RequestInput, seen: Policy) {
    && ViewPolicy in sys.policies && sys.policies[ViewPolicy].revision == seen.revision && input.target in sys.owners
    && (input.target.Account? && sys.owners[input.target].managed ==> sys.owners[input.target].enabled)
  }

  /** The first of the open requests found that stands in the way of a new one. */
  predicate FirstInTheWay(sys: Sys, input: S.RequestInput, found: seq<nat>, k: nat)
    requires ViewPolicy in sys.policies && input.target in sys.owners && forall id :: id in found ==> id in sys.requests
  {
    && k <= |found|
    && (forall i :: 0 <= i < k ==> !S.StandsInTheWay(sys, sys.requests[found[i]], sys.owners[input.target], sys.policies[ViewPolicy]))
    && (k < |found| ==> S.StandsInTheWay(sys, sys.requests[found[k]], sys.owners[input.target], sys.policies[ViewPolicy]))
  }

  /** An open request that was put aside: never usable again, and due for the provider. */
  predicate PutAside(a: Request, b: Request, now: int) {
    && b == a.(state := Invalidated, revision := a.revision + 1, grant := b.grant, sync := Sync(ToDo, 0, now, 0, None))
    && b.grant.revokedAt.Some? && b.grant.at == a.grant.at && b.grant.until == a.grant.until
  }

  /** The first n found were put aside, every other row is as before. */
  ghost predicate FrontPutAside(before: map<nat, Request>, after: map<nat, Request>, found: seq<nat>, n: nat, now: int)
    requires n <= |found| && forall id :: id in found ==> id in before
  {
    && before.Keys <= after.Keys
    && (forall i :: 0 <= i < n ==> PutAside(before[found[i]], after[found[i]], now))
    && (forall id :: id in before && id !in found[..n] ==> after[id] == before[id])
  }

  predicate NoRepeats(s: seq<nat>) {
    forall i, j :: 0 <= i < j < |s| ==> s[i] != s[j]
  }

  /** The loop over the open requests. */
  lemma {:induction false} SupersedeFront(sys: Sys, found: seq<nat>, facts: OwnerFacts, policy: Policy) returns (k: nat)
    requires (forall id :: id in found ==> id in sys.requests) && NoRepeats(found)
    ensures var (requests, standing) := S.Supersede(sys, found, facts, policy);
      && k <= |found| && requests.Keys == sys.requests.Keys
      && (forall i :: 0 <= i < k ==> !S.StandsInTheWay(sys, sys.requests[found[i]], facts, policy))
      && (k < |found| ==> S.StandsInTheWay(sys, sys.requests[found[k]], facts, policy))
      && standing == (if k < |found| then Some(found[k]) else None)
      && FrontPutAside(sys.requests, requests, found, k, sys.now)
    decreases |found|
  {
    hide S.StandsInTheWay, S.Superseded, PutAside, FrontPutAside;
    NothingPutAside(sys.requests, found, sys.now);
    if found == [] || S.StandsInTheWay(sys, sys.requests[found[0]], facts, policy) {
      k := 0;
    } else {
      var closed := S.Superseded(sys.requests[found[0]], sys.now);
      var next := sys.(requests := sys.requests[found[0] := closed]);
      assert forall id :: id in found[1..] ==> id in found;
      k := SupersedeFront(next, found[1..], facts, policy);
      k := k + 1;
      FrontGrows(sys, next, found, facts, policy, k);
    }
  }

  lemma NothingPutAside(requests: map<nat, Request>, found: seq<nat>, now: int)
    requires forall id :: id in found ==> id in requests
    ensures FrontPutAside(requests, requests, found, 0, now)
  {
  }

  lemma FrontGrows(sys: Sys, next: Sys, found: seq<nat>, facts: OwnerFacts, policy: Policy, k: nat)
    requires (forall id :: id in found ==> id in sys.requests) && NoRepeats(found) && 0 < k <= |found|
    requires next == sys.(requests := sys.requests[found[0] := S.Superseded(sys.requests[found[0]], sys.now)])
    requires (forall id :: id in found[1..] ==> id in next.requests)
    requires FrontPutAside(next.requests, S.Supersede(next, found[1..], facts, policy).0, found[1..], k - 1, sys.now)
    ensures FrontPutAside(sys.requests, S.Supersede(next, found[1..], facts, policy).0, found, k, sys.now)
    ensures forall row :: S.StandsInTheWay(next, row, facts, policy) <==> S.StandsInTheWay(sys, row, facts, policy)
    ensures forall i :: 0 <= i < |found| - 1 ==> next.requests[found[1..][i]] == sys.requests[found[i + 1]]
  {
    hide S.Supersede;
    var after := S.Supersede(next, found[1..], facts, policy).0;
    assert found[0] !in found[1..][..k - 1];
    forall i | 0 <= i < k ensures PutAside(sys.requests[found[i]], after[found[i]], sys.now) {
      if i > 0 { assert found[i] == found[1..][i - 1]; }
    }
    forall id | id in sys.requests && id !in found[..k] ensures after[id] == sys.requests[id] {
      assert found[0] in found[..k];
      assert forall i :: 0 <= i < k - 1 ==> found[1..][i] == found[..k][i + 1];
    }
  }

  /** What the query for open view requests returns: each such request of this requester for this target, once. */
  ghost predicate FoundOpen(sys: Sys, input: S.RequestInput, found: seq<nat>) {
    && NoRepeats(found)
    && forall id :: id in found <==>
         id in sys.requests
         && sys.requests[id].requester == input.requester && sys.requests[id].scope.target == input.target
         && sys.requests[id].scope.action == Retrieve && (sys.requests[id].state == Pending || sys.requests[id].state == Approved)
  }

  lemma FoundOpenViews(sys: Sys, input: S.RequestInput, found: seq<nat>)
    ensures FoundOpen(sys, input, found) <==> S.OpenViews(sys.requests, input, found)
  {
  }

  lemma FoundAreRows(sys: Sys, input: S.RequestInput, found: seq<nat>)
    requires FoundOpen(sys, input, found)
    ensures NoRepeats(found) && forall id :: id in found ==> id in sys.requests
  {
  }

  /** An open request stands in the way of a new one while its scope stands and it can still be decided or used. */
  lemma StandsExactly(sys: Sys, row: Request)
    requires V.SysOk(sys) && row.scope.target in sys.owners && row.scope.action == Retrieve && row.terms.policy != 0 && ViewPolicy in sys.policies
    ensures S.StandsInTheWay(sys, row, sys.owners[row.scope.target], sys.policies[ViewPolicy]) <==>
      && O.ScopeStands(sys, row)
      && ((row.state == Pending && sys.now < row.terms.expiresAt) || S.HasActiveAccess(row, sys.now))
  {
    O.ScopeCurrentExactly(sys, row);
  }

  /** When an application with a new key to view a password is accepted. `found` is what the query returned. */
  lemma {:induction false} ViewAcceptedExactly(sys: Sys, input: S.RequestInput, seen: Policy, found: seq<nat>, newId: nat)
    returns (k: nat)
    requires NewKey(sys, input) && FoundOpen(sys, input, found)
    ensures var c := S.CreateView(sys, input, seen, found, newId);
      && (c.reply.Ok? ==> ViewWellFormed(input, seen) && ViewOpen(sys, input, seen))
      && (c.reply.Refused? ==> c.sys == sys)
      && (ViewWellFormed(input, seen) && ViewOpen(sys, input, seen) ==>
            && FirstInTheWay(sys, input, found, k)
            && (c.reply.Ok? <==> k < |found| || (newId != 0 && newId !in sys.requests))
            && (k < |found| ==> c.reply == Ok(found[k])))
  {
    hide S.Supersede, S.StandsInTheWay, S.OpenViews, FoundOpen;
    FoundOpenViews(sys, input, found);
    FoundAreRows(sys, input, found);
    KeyIsNew(sys, input);
    k := 0;
    if ViewPolicy in sys.policies && input.target in sys.owners {
      k := SupersedeFront(sys, found, sys.owners[input.target], sys.policies[ViewPolicy]);
    }
  }

  predicate ViewStored(sys: Sys, row: Request, input: S.RequestInput) {
    && ViewPolicy in sys.policies && input.target in sys.owners
    && var policy, facts := sys.policies[ViewPolicy], sys.owners[input.target];
       && StoredAs(row, input) && Untouched(row, sys.now) && UnderPolicy(row.terms, policy, sys.now)
       && row.scope == Scope(input.target, Retrieve, 0, 0, 0, facts.credential, facts.username)
       && row.terms.required == 1 && row.terms.permissions == NO_PERMISSIONS
       && row.terms.durationMinutes == policy.maxDurationMinutes
  }

  /** What it does: the open requests found are put aside up to the first in the way, which is the answer; where there is
   none, a new request is stored under the settings in force. */
  lemma {:induction false} ViewApplicationStored(sys: Sys, input: S.RequestInput, seen: Policy, found: seq<nat>, newId: nat)
    returns (k: nat)
    requires NewKey(sys, input) && FoundOpen(sys, input, found) && S.CreateView(sys, input, seen, found, newId).reply.Ok?
    ensures ViewPolicy in sys.policies && input.target in sys.owners && FirstInTheWay(sys, input, found, k)
    ensures var c := S.CreateView(sys, input, seen, found, newId);
      && c.sys == sys.(requests := c.sys.requests)
      && FrontPutAside(sys.requests, c.sys.requests, found, k, sys.now)
      && c.reply == Ok(if k < |found| then found[k] else newId)
      && c.sys.requests.Keys == sys.requests.Keys + (if k < |found| then {} else {newId})
      && (k == |found| ==> newId !in sys.requests && ViewStored(sys, c.sys.requests[newId], input))
  {
    hide S.Supersede, S.StandsInTheWay, S.OpenViews, FoundOpen;
    FoundOpenViews(sys, input, found);
    FoundAreRows(sys, input, found);
    KeyIsNew(sys, input);
    k := SupersedeFront(sys, found, sys.owners[input.target], sys.policies[ViewPolicy]);
    AnswerPutsAside(sys, input, seen, found, newId, k);
  }

  lemma AnswerPutsAside(sys: Sys, input: S.RequestInput, seen: Policy, found: seq<nat>, newId: nat, k: nat)
    requires NewKey(sys, input) && FoundOpen(sys, input, found) && S.CreateView(sys, input, seen, found, newId).reply.Ok?
    requires k <= |found| && FrontPutAside(sys.requests, S.Supersede(sys, found, sys.owners[input.target], sys.policies[ViewPolicy]).0, found, k, sys.now)
    ensures var c := S.CreateView(sys, input, seen, found, newId);
      FrontPutAside(sys.requests, c.sys.requests, found, k, sys.now)
  {
    hide S.Supersede, S.StandsInTheWay, PutAside, S.OpenViews, FoundOpen;
    FoundOpenViews(sys, input, found);
    FoundAreRows(sys, input, found);
    KeyIsNew(sys, input);
    var c := S.CreateView(sys, input, seen, found, newId);
    var requests := S.Supersede(sys, found, sys.owners[input.target], sys.policies[ViewPolicy]).0;
    assert forall id :: id in sys.requests ==> c.sys.requests[id] == requests[id];
  }

  /** A used key is answered with its request while that is for the same and its scope is what it was. */
  lemma ViewRepeatAnsweredExactly(sys: Sys, input: S.RequestInput, seen: Policy, found: seq<nat>, newId: nat, id: nat)
    requires V.SysOk(sys) && id in sys.requests && sys.requests[id].requester == input.requester && sys.requests[id].key == input.key
    ensures var c := S.CreateView(sys, input, seen, found, newId);
      && c.sys == sys && (c.reply.Ok? ==> c.reply == Ok(id))
      && (c.reply.Ok? <==>
            && ViewWellFormed(input, seen) && ViewOpen(sys, input, seen)
            && sys.requests[id].intent == input.intent && sys.requests[id].scope.target == input.target
            && S.ScopeCurrent(sys, sys.requests[id], sys.owners[input.target], sys.policies[ViewPolicy]))
  {
    hide V.RowsOk, V.PoliciesOk, S.ScopeCurrent, S.Supersede;
    R.OnlyRowOfKey(sys, input, id);
  }

  // ---- The policy an access was given under ----

  predicate Creates(e: R.Event, id: nat) {
    (e.CreateConnect? || e.CreateView?) && e.newId == id
  }

  /** What was stored of this application at this moment, whichever it is. */
  ghost predicate StoredBy(sys: Sys, e: R.Event, row: Request) {
    || (e.CreateConnect? && ConnectStored(sys, row, e.input))
    || (e.CreateView? && ViewStored(sys, row, e.input))
  }

  /** Only an application makes a request. */
  lemma {:induction false} OnlyApplicationsCreate(sys: Sys, e: R.Event, id: nat)
    requires V.SysOk(sys) && id !in sys.requests && id in R.Step(sys, e).requests
    ensures Creates(e, id) && StoredBy(sys, e, R.Step(sys, e).requests[id])
  {
    hide V.SysOk, R.Step, S.SavePolicy, S.SaveViewSettings, S.EnsureViewPolicy, S.RemoveManagement, S.SetBinding;
    if e.CreateConnect? {
      ConnectCreates(sys, e, id);
    } else if e.CreateView? {
      ViewCreates(sys, e, id);
    } else {
      OthersCreateNothing(sys, e);
    }
  }

  lemma OthersCreateNothing(sys: Sys, e: R.Event)
    requires !e.CreateConnect? && !e.CreateView?
    ensures R.Step(sys, e).requests.Keys <= sys.requests.Keys
  {
    hide S.Settle, S.DecisionComplete, S.Swept, S.PolicyInputOk;
  }

  lemma ConnectCreates(sys: Sys, e: R.Event, id: nat)
    requires V.SysOk(sys) && e.CreateConnect? && id !in sys.requests && id in R.Step(sys, e).requests
    ensures Creates(e, id) && ConnectStored(sys, R.Step(sys, e).requests[id], e.input)
  {
    hide V.SysOk, S.CreateConnect, ConnectStored;
    if NewKey(sys, e.input) && S.CreateConnect(sys, e.input, e.seenRevision, e.sourceAllowed, e.newId).reply.Ok? {
      ApplicationStored(sys, e.input, e.seenRevision, e.sourceAllowed, e.newId);
    } else {
      ApplicationAcceptedExactly(sys, e.input, e.seenRevision, e.sourceAllowed, e.newId);
      if !NewKey(sys, e.input) {
        var used :| used in sys.requests && sys.requests[used].requester == e.input.requester && sys.requests[used].key == e.input.key;
        RepeatAnsweredExactly(sys, e.input, e.seenRevision, e.sourceAllowed, e.newId, used);
      }
    }
  }

  lemma ViewChangesNothingElse(sys: Sys, input: S.RequestInput, seen: Policy, found: seq<nat>, newId: nat)
    ensures var c := S.CreateView(sys, input, seen, found, newId);
      c.sys != sys ==> c.reply.Ok? && NewKey(sys, input) && FoundOpen(sys, input, found)
  {
    hide S.Supersede, S.ScopeCurrent;
    FoundOpenViews(sys, input, found);
    KeyIsNew(sys, input);
  }

  lemma ViewCreates(sys: Sys, e: R.Event, id: nat)
    requires V.SysOk(sys) && e.CreateView? && id !in sys.requests && id in R.Step(sys, e).requests
    ensures Creates(e, id) && ViewStored(sys, R.Step(sys, e).requests[id], e.input)
  {
    hide V.SysOk, S.CreateView, ViewStored, FrontPutAside, S.StandsInTheWay;
    ViewChangesNothingElse(sys, e.input, e.seen, e.found, e.newId);
    var k := ViewApplicationStored(sys, e.input, e.seen, e.found, e.newId);
  }

  /** Every request of a run was applied for at some point of it, and what was stored then is what it still says. */
  lemma {:induction false} AppliedForOnce(sys: Sys, events: seq<R.Event>, id: nat) returns (k: nat)
    requires V.SysOk(sys) && id !in sys.requests && id in R.Run(sys, events).requests
    ensures k < |events| && Creates(events[k], id) && id !in R.Run(sys, events[..k]).requests
    ensures id in R.Run(sys, events[..k + 1]).requests && V.RowLater(R.Run(sys, events[..k + 1]).requests[id], R.Run(sys, events).requests[id])
    ensures StoredBy(R.Run(sys, events[..k]), events[k], R.Run(sys, events[..k + 1]).requests[id])
    decreases |events|
  {
    hide V.SysOk, R.Step, StoredBy, V.RowLater;
    var n := |events| - 1;
    var before := R.Run(sys, events[..n]);
    R.RunKeeps(sys, events[..n]);
    if id in before.requests {
      k := AppliedForOnce(sys, events[..n], id);
      assert events[..n][..k] == events[..k] && events[..n][..k + 1] == events[..k + 1];
      R.StepKeeps(before, events[n]);
      RowLaterTwice(R.Run(sys, events[..k + 1]).requests[id], before.requests[id], R.Run(sys, events).requests[id]);
    } else {
      k := n;
      OnlyApplicationsCreate(before, events[n], id);
      assert events[..n + 1] == events;
      SameRowLater(R.Run(sys, events).requests[id]);
    }
  }

  lemma RowLaterTwice(a: Request, b: Request, c: Request)
    requires V.RowLater(a, b) && V.RowLater(b, c)
    ensures V.RowLater(a, c)
  {
  }

  lemma SameRowLater(a: Request)
    ensures V.RowLater(a, a)
  {
  }

  /** Whatever happens in between: an access that is active meets the policy that was in force when it was applied for.
   As many distinct people other than the requester approved it as that policy asked for, before its expiry, for no
   longer than it allows and with no permission it does not give. */
  lemma {:induction false} ActiveAccessMeetsItsPolicy(sys: Sys, events: seq<R.Event>, id: nat, now: int) returns (k: nat)
    requires V.SysOk(sys) && id !in sys.requests && id in R.Run(sys, events).requests
    ensures k < |events| && Creates(events[k], id)
    ensures var row, origin := R.Run(sys, events).requests[id], R.Run(sys, events[..k]);
      && S.PolicyScopeOf(row.scope) in origin.policies
      && var policy := origin.policies[S.PolicyScopeOf(row.scope)];
         && row.terms.policy == policy.id && row.terms.policyRevision == policy.revision
         && row.terms.permissions == (if row.scope.action == Connect then policy.permissions else NO_PERMISSIONS)
         && (S.HasActiveAccess(row, now) ==>
               && |row.approvers| >= (if row.scope.action == Connect then policy.required else 1)
               && (forall i, j :: 0 <= i < j < |row.approvers| ==> row.approvers[i] != row.approvers[j])
               && (forall uid :: uid in row.approvers ==> uid > 0 && uid != row.requester)
               && row.grant.at.value < origin.now + policy.expiryMinutes * MINUTE
               && now < row.grant.at.value + policy.maxDurationMinutes * MINUTE)
  {
    hide V.SysOk, R.Step, R.Run, S.HasActiveAccess;
    k := AppliedForOnce(sys, events, id);
    R.ActiveAccessIsBacked(sys, events, id, now);
    StoredTerms(R.Run(sys, events[..k]), events[k], R.Run(sys, events[..k + 1]).requests[id]);
  }

  lemma StoredTerms(sys: Sys, e: R.Event, row: Request)
    requires StoredBy(sys, e, row)
    ensures S.PolicyScopeOf(row.scope) in sys.policies
    ensures var policy := sys.policies[S.PolicyScopeOf(row.scope)];
      && UnderPolicy(row.terms, policy, sys.now)
      && row.terms.permissions == (if row.scope.action == Connect then policy.permissions else NO_PERMISSIONS)
      && row.terms.required == (if row.scope.action == Connect then policy.required else 1)
      && row.terms.durationMinutes <= policy.maxDurationMinutes
  {
  }
}
