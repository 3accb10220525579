/** Four ways in which a password change strands for good, and what its account loses with it. */
module StrandedExecutions {
  import opened Basics
  import opened Tables
  import C = CredentialSpec
  import E = ExecutionSpec
  import T = TargetSpec
  import V = VaultInvariant
  import R = VaultRuns
  import opened TargetInvariant
  import opened PasswordProtocol
  import opened ProtocolInvariant
  import opened HolderPositions
  import opened DeadEnds
  import opened Endings
  import N = NoLockOutTheorem

  /** Prepared, never claimed, nobody cleared for it, and no longer workable. */
  ghost predicate Abandoned(w: World, id: nat) {
    && V.VaultOk(w.db) && TargetsHeld(w.db) && id in w.db.executions
    && w.db.executions[id].state == Prepared && w.db.executions[id].leaseUntil.None?
    && !Workable(w.db, w.db.executions[id])
    && (forall t :: t in w.cleared ==> w.cleared[t] != Clearance(id, Change))
  }

  lemma AbandonedParts(w: World, id: nat)
    requires Abandoned(w, id)
    ensures V.VaultOk(w.db) && id in w.db.executions && w.db.executions[id].activeAccount == Some(w.db.executions[id].account)
    ensures TargetHeld(w.db, w.db.executions[id])
  {
    assert V.RowConsistent(w.db.executions[id]);
  }

  /** Whoever saves an active row holds its lease or claims it. */
  lemma UnleasedRowStays(db: Db, call: R.Call, id: nat)
    requires V.VaultOk(db) && id in db.executions && db.executions[id].leaseUntil.None? && !Terminal(db.executions[id].state)
    requires call.Claim? && call.id == id ==> !R.Commits(db, call)
    ensures var after := R.Perform(db, call).db; id in after.executions && after.executions[id] == db.executions[id]
  {
    hide V.VaultOk, R.Perform, R.Commits;
    if R.WritesOneRow(call) && call.id == id {
      R.CommittedCallsTransition(db, call);
    } else {
      OtherRowStays(db, call, id);
    }
  }

  lemma NewClearances(w: World, e: Event)
    ensures forall t :: t in Next(w, e).cleared && !(t in w.cleared && w.cleared[t] == Next(w, e).cleared[t]) ==>
      MayWork(w.db, Next(w, e).cleared[t].execution, Next(w, e).cleared[t].mode)
  {
    hide R.Perform, R.Commits, MayWork, NextCall, SecretsReadable;
  }

  /** No event claims an abandoned row. */
  lemma ClaimNeedsClearance(w: World, e: Event, id: nat)
    requires Abandoned(w, id)
    ensures N.CallOf(w, e).Some? && N.CallOf(w, e).value.Claim? ==> N.CallOf(w, e).value.id != id
  {
    hide V.VaultOk, TargetsHeld, Workable;
  }

  lemma NextStaysAbandoned(w: World, e: Event, id: nat)
    requires Abandoned(w, id)
    ensures Abandoned(Next(w, e), id) && Next(w, e).db.executions[id] == w.db.executions[id]
  {
    hide Next, V.VaultOk, TargetsHeld, TargetHeld, Workable, N.CallOf, R.Perform, R.Commits, MayWork;
    AbandonedParts(w, id);
    N.NextKeepsVault(w, e);
    NextKeepsTargets(w, e);
    N.EventPerforms(w, e);
    NewClearances(w, e);
    if N.CallOf(w, e).Some? {
      var call := N.CallOf(w, e).value;
      ClaimNeedsClearance(w, e, id);
      UnleasedRowStays(w.db, call, id);
      CallLeavesUnworkable(w.db, call, id);
    }
    NotCleared(w, id);
  }

  /** Whatever happens, even if every reply lies: the execution stays prepared. */
  lemma {:induction false} NeverLeft(w: World, events: seq<Event>, id: nat)
    requires Abandoned(w, id)
    ensures Abandoned(Run(w, events), id) && Run(w, events).db.executions[id] == w.db.executions[id]
    decreases |events|
  {
    hide Abandoned, Next;
    if events != [] {
      var n := |events| - 1;
      NeverLeft(w, events[..n], id);
      NextStaysAbandoned(Run(w, events[..n]), events[n], id);
    }
  }

  // ---- What an account loses while an execution holds it ----

  /** No new credential, no release from management, no other password change. */
  ghost predicate AccountIsHeld(db: Db, account: nat) {
    && (forall revision :: !R.Commits(db, R.RemoveManagement(account, revision)))
    && (forall edit: C.Edit, version :: edit.secret.Some? ==> !R.Commits(db, R.UpdateCredential(Account(account), edit, version)))
    && (forall call: R.Call :: call.Prepare? && call.input.account == account ==> R.Perform(db, call).db == db)
  }

  lemma ActiveExecutionHolds(db: Db, id: nat)
    requires V.VaultOk(db) && id in db.executions && db.executions[id].activeAccount.Some?
    ensures AccountIsHeld(db, db.executions[id].account)
  {
    hide V.VaultOk;
    RowHeld(db, id);
    RowOfActive(db, id);
    var account := db.executions[id].account;
    forall call: R.Call | call.Prepare? && call.input.account == account ensures R.Perform(db, call).db == db {}
  }

  // ---- Revised between preparation and claim ----

  /** What every history keeps, without any assumption about the outside. */
  ghost predicate StoreReached(w: World) {
    V.VaultOk(w.db) && TargetsHeld(w.db) && ClearedKnown(w)
  }

  lemma {:induction false} RunKeepsStore(w: World, events: seq<Event>)
    requires StoreReached(w)
    ensures StoreReached(Run(w, events))
    decreases |events|
  {
    hide Next, V.VaultOk, TargetsHeld, ClearedKnown;
    if events != [] {
      var n := |events| - 1;
      RunKeepsStore(w, events[..n]);
      N.NextKeepsVault(Run(w, events[..n]), events[n]);
      NextKeepsTargets(Run(w, events[..n]), events[n]);
      NextKeepsCleared(Run(w, events[..n]), events[n]);
    }
  }

  /** The account is disabled and enabled again, with the right revisions. */
  function DisableAndEnable(account: nat, revision: nat): seq<Event> {
    [Outside(R.SetEnabled(account, revision, false, true)), Outside(R.SetEnabled(account, revision + 1, true, true))]
  }

  lemma TwoEvents(w: World, a: Event, b: Event)
    ensures Run(w, [a, b]) == Next(Next(w, a), b)
  {
    hide Next, Run;
    assert [] + [a] == [a] && [a] + [b] == [a, b];
    EmptyRun(w);
    OneMore(w, [], a);
    OneMore(w, [a], b);
  }

  lemma DisabledAndEnabled(db: Db, account: nat, revision: nat)
    requires Exists(db, Account(account)) && db.owners[Account(account)].managed && db.owners[Account(account)].enabled
    requires revision != 0 && db.owners[Account(account)].revision == revision
    ensures var once := R.Perform(db, R.SetEnabled(account, revision, false, true)).db;
      R.Perform(once, R.SetEnabled(account, revision + 1, true, true)).db
        == db.(owners := db.owners[Account(account) := db.owners[Account(account)].(revision := revision + 2)])
  {
    var once := R.Perform(db, R.SetEnabled(account, revision, false, true)).db;
    var twice := R.Perform(once, R.SetEnabled(account, revision + 1, true, true)).db;
    assert twice.owners == db.owners[Account(account) := db.owners[Account(account)].(revision := revision + 2)];
  }

  /** The freshly prepared execution, once its account was disabled and enabled. */
  lemma RevisedIsAbandoned(w: World, call: R.Call)
    requires StoreReached(w) && call.Prepare? && R.Perform(w.db, call).db != w.db
    ensures var u := Run(Next(w, Outside(call)), DisableAndEnable(call.input.account, call.input.accountRevision));
      && Abandoned(u, call.newId) && u.db.executions[call.newId].account == call.input.account
      && Exists(u.db, Account(call.input.account)) && u.db.owners[Account(call.input.account)].enabled
      && u.db.bindings == w.db.bindings && u.db.assets == w.db.assets
  {
    hide V.VaultOk, TargetsHeld, Next, Run, R.Perform, Workable;
    var account, revision, id := call.input.account, call.input.accountRevision, call.newId;
    var prepared := Next(w, Outside(call));
    PreparedRow(w, call);
    var a, b := Outside(R.SetEnabled(account, revision, false, true)), Outside(R.SetEnabled(account, revision + 1, true, true));
    TwoEvents(prepared, a, b);
    SwitchEvent(prepared, account, revision, false);
    SwitchEvent(Next(prepared, a), account, revision + 1, true);
    DisabledAndEnabled(prepared.db, account, revision);
    var u := Next(Next(prepared, a), b);
    RunKeepsStore(prepared, [a, b]) by { StoreOfNext(w, Outside(call)); }
    RevisedIsUnworkable(prepared.db, u.db, id);
  }

  lemma SwitchEvent(w: World, account: nat, revision: nat, enabled: bool)
    ensures var e := Outside(R.SetEnabled(account, revision, enabled, true));
      Next(w, e) == w.(db := R.Perform(w.db, R.SetEnabled(account, revision, enabled, true)).db)
  {
    hide R.Perform;
  }

  lemma StoreOfNext(w: World, e: Event)
    requires StoreReached(w)
    ensures StoreReached(Next(w, e))
  {
    hide Next, V.VaultOk, TargetsHeld, ClearedKnown;
    N.NextKeepsVault(w, e);
    NextKeepsTargets(w, e);
    NextKeepsCleared(w, e);
  }

  lemma PreparedRow(w: World, call: R.Call)
    requires ClearedKnown(w) && call.Prepare? && R.Perform(w.db, call).db != w.db
    ensures var u := Next(w, Outside(call));
      && call.newId in u.db.executions && u.db.bindings == w.db.bindings && u.db.assets == w.db.assets && u.cleared == w.cleared
      && (forall t :: t in u.cleared ==> u.cleared[t].execution != call.newId)
      && var row := u.db.executions[call.newId];
         && row.state == Prepared && row.leaseUntil.None? && row.account == call.input.account && row.accountRevision == call.input.accountRevision
         && Exists(u.db, Account(row.account)) && row.accountRevision != 0
         && var owner := u.db.owners[Account(row.account)]; owner.managed && owner.enabled && owner.revision == row.accountRevision
  {
  }

  lemma RevisedIsUnworkable(db: Db, after: Db, id: nat)
    requires id in db.executions && after.executions == db.executions && db.executions[id].state == Prepared
    requires Account(db.executions[id].account) in after.owners
    requires after.owners[Account(db.executions[id].account)].revision != db.executions[id].accountRevision
    ensures !Workable(after, after.executions[id])
  {
  }

  /** The first stranding: an account disabled and enabled again between preparation and claim. Its owner, binding and
   asset are all as they should be; yet whatever anybody does from then on, with no assumption about the outside, the
   execution stays prepared, and its account can neither get a new credential nor leave management nor change its
   password. */
  lemma {:induction false} RevisedBeforeClaim(w: World, history: seq<Event>, call: R.Call, later: seq<Event>)
    requires Initial(w) && call.Prepare? && R.Perform(Run(w, history).db, call).db != Run(w, history).db
    ensures var prepared := Next(Run(w, history), Outside(call));
      var revised := Run(prepared, DisableAndEnable(call.input.account, call.input.accountRevision));
      var end := Run(revised, later);
      && Exists(revised.db, Account(call.input.account)) && revised.db.owners[Account(call.input.account)].enabled
      && revised.db.bindings == prepared.db.bindings && revised.db.assets == prepared.db.assets
      && call.newId in end.db.executions && end.db.executions[call.newId].state == Prepared
      && AccountIsHeld(end.db, call.input.account)
  {
    hide Next, Run, V.VaultOk, TargetsHeld, Abandoned, AccountIsHeld, R.Perform;
    InitialStore(w);
    RunKeepsStore(w, history);
    RevisedIsAbandoned(Run(w, history), call);
    PreparedRow(Run(w, history), call);
    var revised := Run(Next(Run(w, history), Outside(call)), DisableAndEnable(call.input.account, call.input.accountRevision));
    NeverLeft(revised, later, call.newId);
    StillHeld(Run(revised, later), call.newId);
  }

  lemma InitialStore(w: World)
    requires Initial(w)
    ensures StoreReached(w)
  {
  }

  lemma StillHeld(w: World, id: nat)
    requires Abandoned(w, id)
    ensures id in w.db.executions && w.db.executions[id].state == Prepared && AccountIsHeld(w.db, w.db.executions[id].account)
  {
    hide AccountIsHeld;
    AbandonedParts(w, id);
    ActiveExecutionHolds(w.db, id);
  }

  // ---- The asset deleted, or another one attached ----

  /** A change of bindings or assets that leaves an execution unworkable strands it, unless somebody who was let through
   before can still finish. */
  lemma {:induction false} ChangeStrands(w: World, history: seq<Event>, id: nat, change: T.Change)
    requires Initial(w) && AssumedThroughout(w, history) && id in Run(w, history).db.executions
    requires !Terminal(Run(w, history).db.executions[id].state) && !UnderWay(Run(w, history), id)
    requires !Workable(T.Apply(Run(w, history).db, change).db, Run(w, history).db.executions[id])
    ensures !CanEnd(Next(Run(w, history), Outside(R.Retarget(change))), id)
  {
    hide Next, Run, AssumedThroughout, CanEnd, Reached, Assumed, UnderWay, Workable, T.Apply;
    InitialIsReached(w);
    RunKeepsReached(w, history);
    var now := Run(w, history);
    ChangeHappens(now, change);
    NextKeepsReached(now, Outside(R.Retarget(change)));
    StrandedHere(now, Next(now, Outside(R.Retarget(change))), id);
    StuckCannotEnd(Next(now, Outside(R.Retarget(change))), id);
  }

  lemma ChangeHappens(w: World, change: T.Change)
    ensures Assumed(w, Outside(R.Retarget(change)))
    ensures Next(w, Outside(R.Retarget(change))) == w.(db := T.Apply(w.db, change).db)
  {
    hide T.Apply;
  }

  lemma StrandedHere(w: World, u: World, id: nat)
    requires Reached(u) && id in w.db.executions && u == w.(db := u.db) && u.db.executions == w.db.executions && u.db.now == w.db.now
    requires !Terminal(w.db.executions[id].state) && !UnderWay(w, id) && !Workable(u.db, w.db.executions[id])
    ensures Stuck(u, id)
  {
    hide Reached, CanComeTrue, Workable;
    SameComes(w, u, id);
    forall t ensures !Carries(u, id, t) && (u.db.executions[id].state == Prepared ==> !ClearedToStart(u, id, t)) {
      assert !Carries(w, id, t) && (w.db.executions[id].state == Prepared ==> !ClearedToStart(w, id, t));
    }
  }

  lemma SameComes(w: World, u: World, id: nat)
    requires u.executors == w.executors && u.flights == w.flights
    ensures forall mode :: CanComeTrue(u, id, mode) <==> CanComeTrue(w, id, mode)
  {
    hide AppliedFor, RemoteStopped;
    SameApplied(w, u, id);
    SameStopped(w, u, id);
  }

  /** The second stranding: the asset of an execution deleted while nobody who was let through can still finish. */
  lemma {:induction false} DeletedAssetStrands(w: World, history: seq<Event>, id: nat, asset: nat)
    requires Initial(w) && AssumedThroughout(w, history) && id in Run(w, history).db.executions
    requires var now := Run(w, history);
      && !Terminal(now.db.executions[id].state) && !UnderWay(now, id)
      && now.db.executions[id].binding in now.db.bindings && now.db.bindings[now.db.executions[id].binding].asset == asset
    ensures !CanEnd(Next(Run(w, history), Outside(R.Retarget(T.DeleteAsset(asset)))), id)
  {
    hide Next, Run, AssumedThroughout, CanEnd, UnderWay, Initial;
    ChangeStrands(w, history, id, T.DeleteAsset(asset));
  }

  /** The third: the account attached to a second asset in the meantime. */
  lemma {:induction false} SecondAssetStrands(w: World, history: seq<Event>, id: nat, other: nat, newBinding: nat)
    requires Initial(w) && AssumedThroughout(w, history) && id in Run(w, history).db.executions
    requires var now := Run(w, history);
      && !Terminal(now.db.executions[id].state) && !UnderWay(now, id)
      && now.db.executions[id].binding in now.db.bindings && now.db.bindings[now.db.executions[id].binding].asset != other
      && T.AttachBinding(now.db, now.db.executions[id].account, other, newBinding, true).reply.Ok?
    ensures var now := Run(w, history);
      !CanEnd(Next(now, Outside(R.Retarget(T.Attach(now.db.executions[id].account, other, newBinding, true)))), id)
  {
    hide Next, Run, AssumedThroughout, CanEnd, UnderWay, Initial;
    var now := Run(w, history);
    var change := T.Attach(now.db.executions[id].account, other, newBinding, true);
    var after := T.Apply(now.db, change).db;
    assert newBinding in after.bindings && after.bindings[newBinding].account == now.db.executions[id].account
      && after.bindings[newBinding].asset == other;
    ChangeStrands(w, history, id, change);
  }

  // ---- The account deleted ----

  /** What holds a deletion up is the asset, never the execution: with one asset bound, it is accepted exactly once that
   is deleted, whatever the state of the row and whoever holds its lease. */
  lemma DeletionWaitsForAsset(db: Db, id: nat, allowed: bool)
    requires TargetsHeld(db) && id in db.executions && db.executions[id].activeAccount.Some?
    ensures var row := db.executions[id];
      var deletion := T.DeleteOwner(db, Account(row.account), allowed);
      && row.binding in db.bindings
      && (deletion.reply.Ok? ==> !T.AssetLives(db, db.bindings[row.binding].asset) && !Workable(db, row))
      && (T.OnlyAsset(db, row.account, db.bindings[row.binding].asset) ==>
            (deletion.reply.Ok? <==>
               allowed && Exists(db, Account(row.account)) && !T.AssetLives(db, db.bindings[row.binding].asset)))
  {
    assert TargetHeld(db, db.executions[id]);
  }

  /** The deletion of the account of this execution. */
  ghost function Deletion(w: World, id: nat): Event
    requires id in w.db.executions
  {
    Outside(R.DeleteOwner(Account(w.db.executions[id].account), true))
  }

  lemma DeletionGoes(w: World, id: nat)
    requires V.VaultOk(w.db) && id in w.db.executions && !Terminal(w.db.executions[id].state)
    requires T.DeleteOwner(w.db, Account(w.db.executions[id].account), true).reply.Ok?
    ensures Assumed(w, Deletion(w, id)) && Orphaned(Next(w, Deletion(w, id)), id)
  {
    hide V.VaultOk;
    N.NextKeepsVault(w, Deletion(w, id));
  }

  /** The fourth stranding: the account deleted, which an active execution does not prevent. Whatever anybody does from
   then on, the holder of the lease included and with no assumption about the outside, the execution never ends. */
  lemma {:induction false} DeletedAccountStrands(w: World, history: seq<Event>, id: nat, later: seq<Event>)
    requires Initial(w) && id in Run(w, history).db.executions && !Terminal(Run(w, history).db.executions[id].state)
    requires T.DeleteOwner(Run(w, history).db, Account(Run(w, history).db.executions[id].account), true).reply.Ok?
    ensures var end := Run(Next(Run(w, history), Deletion(Run(w, history), id)), later);
      && id in end.db.executions && !Terminal(end.db.executions[id].state)
      && !Exists(end.db, Account(end.db.executions[id].account))
  {
    hide Next, Run, V.VaultOk, Orphaned, T.DeleteOwner, TargetsHeld, ClearedKnown;
    InitialStore(w);
    RunKeepsStore(w, history);
    var now := Run(w, history);
    DeletionGoes(now, id);
    OrphanedForGood(Next(now, Deletion(now, id)), later, id);
    OrphanedHasNoAccount(Run(Next(now, Deletion(now, id)), later), id);
  }

  lemma OrphanedHasNoAccount(w: World, id: nat)
    requires Orphaned(w, id)
    ensures id in w.db.executions && !Terminal(w.db.executions[id].state)
    ensures !Exists(w.db, Account(w.db.executions[id].account))
  {
  }

  /** It even cuts off a holder that could have ended the execution a moment before. */
  lemma {:induction false} DeletionCutsOff(w: World, history: seq<Event>, id: nat, t: nat)
    requires Initial(w) && AssumedThroughout(w, history) && id in Run(w, history).db.executions
    requires !Terminal(Run(w, history).db.executions[id].state) && Carries(Run(w, history), id, t)
    requires T.DeleteOwner(Run(w, history).db, Account(Run(w, history).db.executions[id].account), true).reply.Ok?
    ensures CanEnd(Run(w, history), id) && !CanEnd(Next(Run(w, history), Deletion(Run(w, history), id)), id)
  {
    hide Next, Run, V.VaultOk, Orphaned, Reached, Carries, CanEnd, AssumedThroughout, Assumed, TargetsHeld, ClearedKnown;
    InitialIsReached(w);
    RunKeepsReached(w, history);
    var now := Run(w, history);
    CarrierEnds(now, id, t);
    VaultOfReached(now);
    DeletionGoes(now, id);
    NextKeepsReached(now, Deletion(now, id));
    StuckIsEither(Next(now, Deletion(now, id)), id);
    StuckCannotEnd(Next(now, Deletion(now, id)), id);
  }
}
