/** Arbitrary interleavings of everything that touches access requests: applicants, operators, the provider's
 decisions in any order and any number of times, workers that stall or die, and the clock. */
module RequestRuns {
  import opened Basics
  import T = Tables
  import opened RequestTables
  import opened RequestSpec
  import S = RequestSpec
  import opened RequestInvariant

  datatype Event =
    | CreateConnect(input: RequestInput, seenRevision: nat, sourceAllowed: bool, newId: nat)
    | CreateView(input: RequestInput, seen: Policy, found: seq<nat>, newId: nat)
    | Deliver(decision: Decision)
    | Expire(id: nat)
    | Cancel(id: nat, revision: nat)
    | SavePolicy(account: nat, seenRevision: nat, terms: Policy)
    | SaveViewSettings(seenRevision: nat, approval: bool, template: nat, templateRevision: nat, validMinutes: int)
    | EnsureViewPolicy
    | RemoveManagement(account: nat, revisionMatches: bool, executionActive: bool)
    | BindTicket(id: nat, requestRevision: nat, template: nat, templateRevision: nat, ticket: nat)
    | ClaimSync(token: nat, id: nat)
    | ReadSync(token: nat)
    | FinishSync(token: nat, result: SyncResult)
    | RetrySync(id: nat, revision: nat)
    | SetOwner(owner: T.Owner, facts: OwnerFacts)
    | DropOwner(owner: T.Owner)
    | SetBinding(asset: nat, account: nat, binding: BindingFacts)
    | DropBinding(asset: nat, account: nat)
    | Tick(elapsed: nat)

  ghost function Perform(sys: Sys, e: Event): Commit {
    match e
    case CreateConnect(input, seenRevision, sourceAllowed, newId) => S.CreateConnect(sys, input, seenRevision, sourceAllowed, newId)
    case CreateView(input, seen, found, newId) => S.CreateView(sys, input, seen, found, newId)
    case Deliver(decision) => Decide(sys, decision)
    case Expire(id) => S.Expire(sys, id)
    case Cancel(id, revision) => S.Cancel(sys, id, revision)
    case SavePolicy(account, seenRevision, terms) => S.SavePolicy(sys, account, seenRevision, terms)
    case SaveViewSettings(seenRevision, approval, template, templateRevision, validMinutes) =>
      S.SaveViewSettings(sys, seenRevision, approval, template, templateRevision, validMinutes)
    case EnsureViewPolicy => S.EnsureViewPolicy(sys)
    case RemoveManagement(account, revisionMatches, executionActive) =>
      S.RemoveManagement(sys, account, revisionMatches, executionActive)
    case BindTicket(id, requestRevision, template, templateRevision, ticket) =>
      S.BindTicket(sys, id, requestRevision, template, templateRevision, ticket)
    case ClaimSync(token, id) => S.ClaimSync(sys, token, id)
    case ReadSync(token) => S.ReadSync(sys, token)
    case FinishSync(token, result) => S.FinishSync(sys, token, result)
    case RetrySync(id, revision) => S.RetrySync(sys, id, revision)
    case SetOwner(owner, facts) => Commit(sys.(owners := sys.owners[owner := facts]), Ok(0))
    case DropOwner(owner) => Commit(sys.(owners := sys.owners - {owner}), Ok(0))
    case SetBinding(asset, account, binding) => S.SetBinding(sys, asset, account, binding)
    case DropBinding(asset, account) => Commit(sys.(bindings := sys.bindings - {(asset, account)}), Ok(0))
    case Tick(elapsed) => Commit(sys.(now := sys.now + elapsed), Ok(0))
  }

  ghost function Step(sys: Sys, e: Event): Sys {
    Perform(sys, e).sys
  }

  ghost function Run(sys: Sys, events: seq<Event>): Sys {
    if events == [] then sys else Step(Run(sys, events[..|events| - 1]), events[|events| - 1])
  }

  lemma StepKeeps(sys: Sys, e: Event)
    requires SysOk(sys)
    ensures SysOk(Step(sys, e)) && RowsLater(sys.requests, Step(sys, e).requests)
  {
    hide SysOk, S.SetBinding, S.SavePolicy, S.SaveViewSettings, S.EnsureViewPolicy, S.RemoveManagement;
    match e
    case CreateConnect(input, seenRevision, sourceAllowed, newId) => CreateConnectKeeps(sys, input, seenRevision, sourceAllowed, newId);
    case CreateView(input, seen, found, newId) => CreateViewKeeps(sys, input, seen, found, newId);
    case Deliver(decision) => DecideKeeps(sys, decision);
    case Expire(id) => ExpireKeeps(sys, id);
    case Cancel(id, revision) => CancelKeeps(sys, id, revision);
    case SavePolicy(account, seenRevision, terms) => SavePolicyKeeps(sys, account, seenRevision, terms);
    case SaveViewSettings(seenRevision, approval, template, templateRevision, validMinutes) =>
      SaveViewSettingsKeeps(sys, seenRevision, approval, template, templateRevision, validMinutes);
    case EnsureViewPolicy => EnsureViewPolicyKeeps(sys);
    case RemoveManagement(account, revisionMatches, executionActive) => RemoveManagementKeeps(sys, account, revisionMatches, executionActive);
    case BindTicket(id, requestRevision, template, templateRevision, ticket) =>
      BindTicketKeeps(sys, id, requestRevision, template, templateRevision, ticket);
    case ClaimSync(token, id) => ClaimSyncKeeps(sys, token, id);
    case ReadSync(token) => ReadSyncKeeps(sys, token);
    case FinishSync(token, result) => SyncKeeps(sys, token, 0, 0, result);
    case RetrySync(id, revision) => SyncKeeps(sys, 0, id, revision, Failed);
    case SetOwner(_, _) => OutsideKeeps(sys, Step(sys, e));
    case DropOwner(_) => OutsideKeeps(sys, Step(sys, e));
    case SetBinding(asset, account, binding) => SetBindingKeeps(sys, asset, account, binding);
    case DropBinding(_, _) => OutsideKeeps(sys, Step(sys, e));
    case Tick(_) => OutsideKeeps(sys, Step(sys, e));
  }

  /** The invariants hold after every run, and no run takes a request back: an ended request stays ended, a grant is
   given at most once and its times never change, and the provider's revision only grows. */
  lemma {:induction false} RunKeeps(sys: Sys, events: seq<Event>)
    requires SysOk(sys)
    ensures SysOk(Run(sys, events)) && RowsLater(sys.requests, Run(sys, events).requests)
  {
    hide SysOk, Step;
    if events != [] {
      hide RowsLater;
      var before := Run(sys, events[..|events| - 1]);
      RunKeeps(sys, events[..|events| - 1]);
      StepKeeps(before, events[|events| - 1]);
      LaterTransitive(sys.requests, before.requests, Run(sys, events).requests);
    }
  }

  lemma {:induction false} RunConcat(sys: Sys, a: seq<Event>, b: seq<Event>)
    ensures Run(sys, a + b) == Run(Run(sys, a), b)
  {
    hide Step;
    if b == [] {
      assert a + b == a;
    } else {
      assert (a + b)[..|a + b| - 1] == a + b[..|b| - 1];
      RunConcat(sys, a, b[..|b| - 1]);
    }
  }

  /** Between any two points of a run every row has only moved forward. */
  lemma NothingComesBack(sys: Sys, earlier: seq<Event>, later: seq<Event>, id: nat)
    requires SysOk(sys) && id in Run(sys, earlier).requests
    ensures var a, after := Run(sys, earlier).requests[id], Run(sys, earlier + later);
      && id in after.requests
      && (Ended(a.state) ==> after.requests[id].state == a.state && after.requests[id].grant == a.grant)
      && (a.grant.at.Some? ==> after.requests[id].grant.at == a.grant.at && after.requests[id].grant.until == a.grant.until)
      && (after.requests[id].state == Pending ==> a.state == Pending)
      && a.receipt.revision <= after.requests[id].receipt.revision
  {
    RunConcat(sys, earlier, later);
    RunKeeps(sys, earlier);
    RunKeeps(Run(sys, earlier), later);
    hide SysOk, Step;
    assert RowLater(Run(sys, earlier).requests[id], Run(sys, earlier + later).requests[id]);
  }

  /** An application accepted once is answered with the same request at any later point, and changes nothing then. */
  lemma ApplicationReplays(sys: Sys, input: RequestInput, seen: nat, source: bool, newId: nat, later: seq<Event>,
                           seen2: nat, source2: bool, newId2: nat)
    requires SysOk(sys) && S.CreateConnect(sys, input, seen, source, newId).reply.Ok?
    ensures var first := S.CreateConnect(sys, input, seen, source, newId);
      S.CreateConnect(Run(first.sys, later), input, seen2, source2, newId2) == Commit(Run(first.sys, later), first.reply)
  {
    var first := S.CreateConnect(sys, input, seen, source, newId);
    var id := first.reply.id;
    AcceptedHasKey(sys, input, seen, source, newId);
    CreateConnectKeeps(sys, input, seen, source, newId);
    hide SysOk, Step, BindingRefusal, NewRequest;
    RunKeeps(first.sys, later);
    var after := Run(first.sys, later);
    assert RowLater(first.sys.requests[id], after.requests[id]);
    OnlyRowOfKey(after, input, id);
  }

  lemma AcceptedHasKey(sys: Sys, input: RequestInput, seen: nat, source: bool, newId: nat)
    requires S.CreateConnect(sys, input, seen, source, newId).reply.Ok?
    ensures var first := S.CreateConnect(sys, input, seen, source, newId);
      && InputComplete(input) && input.requester > 0 && input.durationMinutes >= 1
      && first.reply.id in first.sys.requests && SameKey(first.sys.requests[first.reply.id], input)
      && first.sys.requests[first.reply.id].intent == input.intent
  {
  }

  lemma OnlyRowOfKey(sys: Sys, input: RequestInput, id: nat)
    requires SysOk(sys) && id in sys.requests && SameKey(sys.requests[id], input)
    ensures KeyTaken(sys, input) && RowOfKey(sys, input) == id
  {
    assert KeysUnique(sys);
  }

  // ---- Grants ----

  /** Approved exactly while a grant is set and not revoked, and then by enough distinct approvers other than the
   requester, deciding before the request expired, for no longer than was asked. */
  lemma {:induction false} ActiveAccessIsBacked(sys: Sys, events: seq<Event>, id: nat, now: int)
    requires SysOk(sys) && id in Run(sys, events).requests
    ensures var row := Run(sys, events).requests[id];
      && (row.state == Approved <==> row.grant.at.Some? && row.grant.revokedAt.None?)
      && (HasActiveAccess(row, now) ==>
            && |row.approvers| >= row.terms.required
            && (forall i, j :: 0 <= i < j < |row.approvers| ==> row.approvers[i] != row.approvers[j])
            && (forall uid :: uid in row.approvers ==> uid > 0 && uid != row.requester)
            && row.grant.at.value < row.terms.expiresAt
            && row.grant.at.value <= now < row.grant.at.value + row.terms.durationMinutes * MINUTE)
  {
    RunKeeps(sys, events);
    RowIsOk(Run(sys, events), id);
    var row := Run(sys, events).requests[id];
    if HasActiveAccess(row, now) {
      SameSizeMeansDistinct(row.approvers, row.requester);
    }
  }

  /** The test `len(actors) == len(uids)`: it passes exactly when no entry is invalid, excluded or repeated. */
  lemma SameSizeMeansDistinct(uids: seq<int>, excluded: int)
    ensures |UidSet(uids, excluded)| == |uids| <==>
      && (forall uid :: uid in uids ==> uid > 0 && uid != excluded)
      && (forall i, j :: 0 <= i < j < |uids| ==> uids[i] != uids[j])
  {
    CountTest(uids, UidSet(uids, excluded));
  }

  /** A pending request becomes approved exactly on a well-formed newer approval of its ticket, given in time by enough
   approvers, while the grant would still be running and the scope is still what was asked for. */
  lemma ApprovedExactly(sys: Sys, e: Decision)
    requires SysOk(sys) && e.request in sys.requests && sys.requests[e.request].state == Pending
    ensures var row := sys.requests[e.request];
      Decide(sys, e).sys.requests[e.request].state == Approved <==>
        && DecisionComplete(e, sys.now) && e.verdict == Some(Approved) && SameTicket(row, e)
        && row.receipt.revision < e.providerRevision && row.receipt.event != e.event
        && row.scope.target in sys.owners && (row.scope.action == Retrieve ==> ViewPolicy in sys.policies)
        && EnoughApprovers(row, e.approvers)
        && row.terms.createdAt - MINUTE <= e.decidedAt.value < row.terms.expiresAt
        && sys.now < e.decidedAt.value + row.terms.durationMinutes * MINUTE
        && ScopeCurrent(sys, row, sys.owners[row.scope.target], PolicyOf(sys, PolicyScopeOf(row.scope)))
  {
    hide SysOk;
    RowIsOk(sys, e.request);
  }

  /** ActivatePAMRequestAccess never finds a grant already there. */
  lemma ActivationNeverFails(sys: Sys, e: Decision)
    requires SysOk(sys)
    ensures Decide(sys, e).reply != Refused(GrantExists)
  {
    DecideKeeps(sys, e);
  }

  // ---- The policy fence ----

  /** After any run every open request was made under the policy now in force for its target. */
  lemma {:induction false} PolicyFence(sys: Sys, events: seq<Event>, id: nat)
    requires SysOk(sys)
    ensures var after := Run(sys, events);
      id in after.requests && !Ended(after.requests[id].state) ==>
        var row := after.requests[id];
        && PolicyScopeOf(row.scope) in after.policies
        && after.policies[PolicyScopeOf(row.scope)].id == row.terms.policy
        && after.policies[PolicyScopeOf(row.scope)].revision == row.terms.policyRevision
  {
    RunKeeps(sys, events);
  }

  // ---- Decisions out of order, repeated and stale ----

  /** A delivery that is accepted: newer than anything the row has seen, and not refused. */
  predicate Accepts(sys: Sys, e: Decision) {
    Decide(sys, e).reply.Ok? && e.request in sys.requests && sys.requests[e.request].receipt.revision < e.providerRevision
  }

  lemma DecideIsOrdered(sys: Sys, e: Decision)
    ensures !Accepts(sys, e) ==> Decide(sys, e).sys == sys
    ensures Accepts(sys, e) ==>
      && e.request in Decide(sys, e).sys.requests
      && Decide(sys, e).sys.requests[e.request].receipt == Receipt(e.providerRevision, e.event, Some(e))
      && Decide(sys, e).sys.requests == sys.requests[e.request := Decide(sys, e).sys.requests[e.request]]
      && Decide(sys, e).sys == sys.(requests := Decide(sys, e).sys.requests)
  {
    hide ScopeCurrent, EnoughApprovers;
  }

  /** The events of a run without the deliveries that were not accepted. */
  ghost function Effective(sys: Sys, events: seq<Event>): seq<Event> {
    if events == [] then []
    else
      var before, last := events[..|events| - 1], events[|events| - 1];
      if Refuses(Run(sys, before), last) then Effective(sys, before)
      else Effective(sys, before) + [last]
  }

  /** A run is what its accepted deliveries make it, and those carry strictly increasing provider revisions. */
  lemma {:induction false} OnlyAcceptedDecisionsCount(sys: Sys, events: seq<Event>)
    requires SysOk(sys)
    ensures Run(sys, Effective(sys, events)) == Run(sys, events)
    ensures forall i, j :: 0 <= i < j < |Effective(sys, events)| ==> InOrder(Effective(sys, events)[i], Effective(sys, events)[j])
    ensures forall i :: 0 <= i < |Effective(sys, events)| ==> Recorded(Run(sys, events), Effective(sys, events)[i])
  {
    hide SysOk, Step, Refuses, Recorded, InOrder, RowsLater;
    if events != [] {
      var before, last := events[..|events| - 1], events[|events| - 1];
      var state := Run(sys, before);
      OnlyAcceptedDecisionsCount(sys, before);
      RunKeeps(sys, before);
      StepKeeps(state, last);
      LastEvent(state, last);
      var kept := Effective(sys, before);
      forall i | 0 <= i < |kept|
        ensures Recorded(Step(state, last), kept[i])
      {
        RecordedStays(state, Step(state, last), kept[i]);
      }
      assert (kept + [last])[..|kept|] == kept;
    }
  }

  predicate InOrder(a: Event, b: Event) {
    a.Deliver? && b.Deliver? && a.decision.request == b.decision.request ==>
      a.decision.providerRevision < b.decision.providerRevision
  }

  /** The row of a delivered decision has seen that revision. */
  predicate Recorded(sys: Sys, e: Event) {
    e.Deliver? ==>
      e.decision.request in sys.requests && e.decision.providerRevision <= sys.requests[e.decision.request].receipt.revision
  }

  lemma RecordedStays(sys: Sys, after: Sys, e: Event)
    requires Recorded(sys, e) && RowsLater(sys.requests, after.requests)
    ensures Recorded(after, e)
  {
    if e.Deliver? {
      assert RowLater(sys.requests[e.decision.request], after.requests[e.decision.request]);
    }
  }

  predicate Refuses(sys: Sys, e: Event) {
    e.Deliver? && !Accepts(sys, e.decision)
  }

  lemma LastEvent(sys: Sys, e: Event)
    ensures Refuses(sys, e) ==> Step(sys, e) == sys
    ensures !Refuses(sys, e) ==> Recorded(Step(sys, e), e) && forall x :: Recorded(sys, x) ==> InOrder(x, e)
  {
    hide Decide;
    if e.Deliver? {
      DecideIsOrdered(sys, e.decision);
    } else {
      hide Step;
    }
  }

  /** Delivering again what was accepted at any earlier point changes nothing, ever. */
  lemma RedeliveryChangesNothing(sys: Sys, events: seq<Event>, k: nat, later: Sys)
    requires SysOk(sys) && k < |events| && events[k].Deliver? && Accepts(Run(sys, events[..k]), events[k].decision)
    requires later == Run(sys, events)
    ensures Decide(later, events[k].decision).sys == later
  {
    hide SysOk, Step, Accepts;
    var at := Run(sys, events[..k]);
    RunKeeps(sys, events[..k]);
    StepKeeps(at, events[k]);
    LastEvent(at, events[k]);
    RunKeeps(Step(at, events[k]), events[k + 1..]);
    assert events[..k + 1][..k] == events[..k];
    assert Run(sys, events[..k + 1]) == Step(at, events[k]);
    assert events == events[..k + 1] + events[k + 1..];
    RunConcat(sys, events[..k + 1], events[k + 1..]);
    RecordedStays(Step(at, events[k]), later, events[k]);
    StaleIsRefused(later, events[k].decision);
  }

  lemma StaleIsRefused(sys: Sys, e: Decision)
    requires Recorded(sys, Deliver(e))
    ensures Decide(sys, e).sys == sys
  {
    hide Decide;
    DecideIsOrdered(sys, e);
  }

  // ---- No synchronisation is lost ----

  lemma ViewKeepsQueue(sys: Sys, input: RequestInput, seen: Policy, found: seq<nat>, newId: nat)
    requires SysOk(sys)
    ensures SyncsKept(sys.requests, S.CreateView(sys, input, seen, found, newId).sys.requests)
  {
    var c := S.CreateView(sys, input, seen, found, newId);
    if c.sys != sys {
      SupersedeKeeps(sys, found, sys.owners[input.target], sys.policies[ViewPolicy]);
    }
  }

  lemma DecideKeepsQueue(sys: Sys, e: Decision)
    ensures SyncsKept(sys.requests, Decide(sys, e).sys.requests)
  {
    hide ScopeCurrent, EnoughApprovers;
  }

  predicate WorkerEvent(e: Event) {
    e.ClaimSync? || e.FinishSync?
  }

  lemma SweepsKeepQueue(sys: Sys, e: Event)
    requires e.SavePolicy? || e.SaveViewSettings? || e.RemoveManagement?
    ensures SyncsKept(sys.requests, Step(sys, e).requests)
  {
  }

  lemma OthersKeepQueue(sys: Sys, e: Event)
    requires SysOk(sys) && !WorkerEvent(e)
    ensures SyncsKept(sys.requests, Step(sys, e).requests)
  {
    hide SysOk, Supersede, ScopeCurrent, SweepPolicy, SweepViews, SweepRemoval, S.Decide, S.CreateView;
    if e.Deliver? {
      DecideKeepsQueue(sys, e.decision);
    } else if e.CreateView? {
      ViewKeepsQueue(sys, e.input, e.seen, e.found, e.newId);
    } else if e.SavePolicy? || e.SaveViewSettings? || e.RemoveManagement? {
      SweepsKeepQueue(sys, e);
    }
  }

  lemma WorkerQueue(sys: Sys, e: Event, id: nat)
    requires WorkerEvent(e) && 0 !in sys.workers && id in sys.requests && id in Step(sys, e).requests
    ensures QueueStep(sys, e, sys.requests[id].sync, Step(sys, e).requests[id].sync, id)
  {
  }

  predicate QueueStep(sys: Sys, e: Event, a: Sync, b: Sync, id: nat) {
    && (b.owner != 0 && b.owner != a.owner ==> e == ClaimSync(b.owner, id) && b.owner !in sys.workers)
    && (b.state == Done && a.state != Done ==>
          a.owner != 0 && e == FinishSync(a.owner, Synced(true)) && a.owner in sys.workers && sys.workers[a.owner].hasRead)
  }

  /** Only a fresh claim puts a row in a worker's hands, and only that worker's last update can call it done. */
  lemma {:induction false} StepQueue(sys: Sys, e: Event, id: nat)
    requires SysOk(sys) && id in sys.requests && id in Step(sys, e).requests
    ensures QueueStep(sys, e, sys.requests[id].sync, Step(sys, e).requests[id].sync, id)
  {
    assert 0 !in sys.workers;
    hide SysOk, Step;
    if WorkerEvent(e) {
      WorkerQueue(sys, e, id);
    } else {
      OthersKeepQueue(sys, e);
    }
  }

  lemma StepWorkers(sys: Sys, e: Event, token: nat)
    requires token in Step(sys, e).workers && Step(sys, e).workers[token].hasRead
    ensures (token in sys.workers && sys.workers[token].hasRead) || e == ReadSync(token)
  {
  }

  /** A worker that has read its row did so after its claim. */
  lemma {:induction false} ReadAfter(sys: Sys, events: seq<Event>, token: nat) returns (r: nat)
    requires token in Run(sys, events).workers && Run(sys, events).workers[token].hasRead
    requires token in sys.workers ==> !sys.workers[token].hasRead
    ensures r < |events| && events[r] == ReadSync(token)
  {
    hide Step;
    var before, last := events[..|events| - 1], events[|events| - 1];
    StepWorkers(Run(sys, before), last, token);
    if last == ReadSync(token) {
      r := |events| - 1;
    } else {
      r := ReadAfter(sys, before, token);
    }
  }

  /** Where the claim was made that put the row into the hands of its present worker. */
  lemma {:induction false} ClaimedAt(sys: Sys, events: seq<Event>, id: nat) returns (c: nat)
    requires SysOk(sys) && id in sys.requests && sys.requests[id].sync.owner == 0
    requires id in Run(sys, events).requests && Run(sys, events).requests[id].sync.owner != 0
    ensures var token := Run(sys, events).requests[id].sync.owner;
      c < |events| && events[c] == ClaimSync(token, id) && token !in Run(sys, events[..c]).workers
  {
    hide Step, SysOk;
    var before, last := events[..|events| - 1], events[|events| - 1];
    RunKeeps(sys, before);
    StepQueue(Run(sys, before), last, id);
    var token := Run(sys, events).requests[id].sync.owner;
    if Run(sys, before).requests[id].sync.owner == token {
      c := ClaimedAt(sys, before, id);
      assert before[..c] == events[..c];
    } else {
      c := |events| - 1;
    }
  }

  /** From a row that is in nobody's hands and not done, done is reached only through a worker that claimed the row,
   then read it, then finished, all within the run. */
  lemma {:induction false} DoneMeansRead(sys: Sys, events: seq<Event>, id: nat) returns (c: nat, r: nat, f: nat, token: nat)
    requires SysOk(sys) && id in sys.requests && sys.requests[id].sync.owner == 0 && sys.requests[id].sync.state != Done
    requires id in Run(sys, events).requests && Run(sys, events).requests[id].sync.state == Done
    ensures c < r < f < |events|
    ensures events[c] == ClaimSync(token, id) && events[r] == ReadSync(token) && events[f] == FinishSync(token, Synced(true))
  {
    hide Step, SysOk;
    var before, last := events[..|events| - 1], events[|events| - 1];
    RunKeeps(sys, before);
    var state := Run(sys, before);
    StepQueue(state, last, id);
    if state.requests[id].sync.state == Done {
      c, r, f, token := DoneMeansRead(sys, before, id);
    } else {
      f, token := |events| - 1, state.requests[id].sync.owner;
      c := ClaimedAt(sys, before, id);
      r := ReadSinceClaim(sys, before, id, c, token);
    }
  }

  lemma ReadSinceClaim(sys: Sys, events: seq<Event>, id: nat, c: nat, token: nat) returns (r: nat)
    requires c < |events| && events[c] == ClaimSync(token, id) && token !in Run(sys, events[..c]).workers
    requires token in Run(sys, events).workers && Run(sys, events).workers[token].hasRead
    ensures c < r < |events| && events[r] == ReadSync(token)
  {
    var claimed := Run(sys, events[..c + 1]);
    assert events[..c + 1][..c] == events[..c];
    assert claimed == Step(Run(sys, events[..c]), events[c]);
    ClaimHasNotRead(Run(sys, events[..c]), token, id);
    hide Step;
    assert events == events[..c + 1] + events[c + 1..];
    RunConcat(sys, events[..c + 1], events[c + 1..]);
    r := ReadAfter(claimed, events[c + 1..], token);
    r := r + c + 1;
  }

  lemma ClaimHasNotRead(sys: Sys, token: nat, id: nat)
    requires token !in sys.workers
    ensures var w := Step(sys, Event.ClaimSync(token, id)).workers; token in w ==> !w[token].hasRead
  {
  }

  /** An open request closed by an operator, a policy or a settings change, a removal or a newer request. */
  predicate LocalClose(e: Event) {
    e.Cancel? || e.SavePolicy? || e.SaveViewSettings? || e.RemoveManagement? || e.CreateView?
  }

  ghost predicate Closes(sys: Sys, e: Event, id: nat) {
    && LocalClose(e) && id in sys.requests && id in Step(sys, e).requests
    && !Ended(sys.requests[id].state) && Ended(Step(sys, e).requests[id].state)
  }

  lemma {:induction false} SupersedeTakesBack(sys: Sys, found: seq<nat>, facts: OwnerFacts, policy: Policy, id: nat)
    requires forall i :: i in found ==> i in sys.requests
    requires id in sys.requests
    ensures var after := Supersede(sys, found, facts, policy).0;
      id in after && (after[id] == sys.requests[id] || TakenBack(after[id]))
    decreases |found|
  {
    if found != [] && !StandsInTheWay(sys, sys.requests[found[0]], facts, policy) {
      var next := sys.(requests := sys.requests[found[0] := Superseded(sys.requests[found[0]], sys.now)]);
      SupersedeTakesBack(next, found[1..], facts, policy, id);
    }
  }

  /** To be synchronised again and in nobody's hands. */
  predicate TakenBack(row: Request) {
    row.sync.state == ToDo && row.sync.owner == 0 && row.sync.until.None?
  }

  lemma CloseTakesBack(sys: Sys, e: Event, id: nat)
    requires Closes(sys, e, id)
    ensures TakenBack(Step(sys, e).requests[id])
  {
    hide Supersede, ScopeCurrent, S.Decide, KeyTaken;
    if e.CreateView? {
      ViewTakesBack(sys, e, id);
    }
  }

  lemma ViewTakesBack(sys: Sys, e: Event, id: nat)
    requires e.CreateView? && Closes(sys, e, id)
    ensures TakenBack(Step(sys, e).requests[id])
  {
    hide Supersede, ScopeCurrent, StandsInTheWay, NewRequest;
    SupersedeTakesBack(sys, e.found, sys.owners[e.input.target], sys.policies[ViewPolicy], id);
  }

  /** After a local close the row is reported synchronised only by a worker that claimed and read it after that close:
   a worker caught in between can no longer write. */
  lemma NoLostSynchronisation(sys: Sys, events: seq<Event>, i: nat, id: nat) returns (c: nat, r: nat, f: nat, token: nat)
    requires SysOk(sys) && i < |events| && Closes(Run(sys, events[..i]), events[i], id)
    requires id in Run(sys, events).requests && Run(sys, events).requests[id].sync.state == Done
    ensures i < c < r < f < |events|
    ensures events[c] == ClaimSync(token, id) && events[r] == ReadSync(token) && events[f] == FinishSync(token, Synced(true))
  {
    hide SysOk, Step, RowsLater;
    var at := Run(sys, events[..i]);
    RunKeeps(sys, events[..i]);
    StepKeeps(at, events[i]);
    CloseTakesBack(at, events[i], id);
    assert events[..i + 1][..i] == events[..i];
    var closed := Run(sys, events[..i + 1]);
    assert closed == Step(at, events[i]);
    assert events == events[..i + 1] + events[i + 1..];
    RunConcat(sys, events[..i + 1], events[i + 1..]);
    c, r, f, token := DoneMeansRead(closed, events[i + 1..], id);
    c, r, f := c + i + 1, r + i + 1, f + i + 1;
  }
}
