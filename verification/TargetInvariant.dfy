/** The account, binding and asset an active execution works on: what of them stays, and what cannot come back. */
module TargetInvariant {
  import opened Basics
  import opened Tables
  import C = CredentialSpec
  import E = ExecutionSpec
  import T = TargetSpec
  import V = VaultInvariant
  import R = VaultRuns

  /** Neither the account nor the binding was revised since the preparation. */
  predicate Unrevised(db: Db, row: Execution) {
    && Account(row.account) in db.owners && db.owners[Account(row.account)].revision == row.accountRevision
    && row.binding in db.bindings && db.bindings[row.binding].revision == row.bindingRevision
  }

  /** Somebody can still be let through to work on it, at once or after account, binding and asset are put right again:
   the asset exists, the account is bound to no other, and nothing was revised unless recovery can go by the stored
   scope instead. */
  predicate Workable(db: Db, row: Execution) {
    && row.binding in db.bindings && T.AssetLives(db, db.bindings[row.binding].asset)
    && T.OnlyAsset(db, row.account, db.bindings[row.binding].asset)
    && (row.state == Prepared || row.scope.None? ==> Unrevised(db, row))
  }

  /** While it is active an execution's binding stays, revisions only grow, and one that is still the stored one means
   the row is as the preparation found it. */
  ghost predicate TargetHeld(db: Db, row: Execution) {
    && Account(row.account) in db.owners && OwnerHeld(db.owners[Account(row.account)], row)
    && row.binding in db.bindings && BindingHeld(db.bindings[row.binding], row)
    && db.bindings[row.binding].asset in db.assets
  }

  predicate OwnerHeld(owner: OwnerRow, row: Execution) {
    0 < row.accountRevision <= owner.revision && (owner.revision == row.accountRevision ==> owner.enabled)
  }

  predicate BindingHeld(binding: Binding, row: Execution) {
    && binding.account == row.account && 0 < row.bindingRevision <= binding.revision
    && (row.scope.Some? ==> row.scope.value.asset == binding.asset)
    && (binding.revision == row.bindingRevision ==> binding.enabled && (row.scope.Some? ==> row.scope.value == T.ScopeOf(binding)))
  }

  ghost predicate TargetsHeld(db: Db) {
    forall id :: id in db.executions && db.executions[id].activeAccount.Some? ==> TargetHeld(db, db.executions[id])
  }

  // ---- What every call leaves of these rows ----

  predicate OwnerLater(a: OwnerRow, b: OwnerRow) {
    a.revision <= b.revision && (a.revision == b.revision ==> b.enabled == a.enabled) && (a.deleted ==> b.deleted)
  }

  predicate BindingLater(a: Binding, b: Binding) {
    b.account == a.account && b.asset == a.asset && a.revision <= b.revision && (a.revision == b.revision ==> b == a)
  }

  ghost predicate OwnersLater(db: Db, after: Db) {
    forall o :: o in db.owners ==> o in after.owners && OwnerLater(db.owners[o], after.owners[o])
  }

  ghost predicate AssetsLater(db: Db, after: Db) {
    forall a :: a in db.assets ==> a in after.assets && (db.assets[a].deleted ==> after.assets[a].deleted)
  }

  ghost predicate BindingsLater(db: Db, after: Db, account: nat) {
    forall b :: b in db.bindings && db.bindings[b].account == account ==>
      b in after.bindings && BindingLater(db.bindings[b], after.bindings[b])
  }

  lemma ChangeMovesTargets(db: Db, change: T.Change, account: nat)
    ensures var after := T.Apply(db, change).db; AssetsLater(db, after) && BindingsLater(db, after, account)
  {
  }

  lemma PersistMovesOwners(db: Db, owner: Owner, auth: AuthType, secret: Material, previous: nat, newVersion: nat)
    requires 0 !in db.versions
    ensures var after := C.Persist(db, owner, auth, secret, previous, newVersion).db;
      after.owners.Keys == db.owners.Keys && OwnersLater(db, after) && after.bindings == db.bindings && after.assets == db.assets
  {
    if newVersion != 0 { C.PublishIsCompareAndSwap(C.Stage(db, owner, 0, secret, newVersion), owner, auth, previous, newVersion); }
  }

  lemma PublishMovesOwners(db: Db, id: nat, owner: nat)
    requires 0 !in db.versions
    ensures var after := E.Publish(db, id, owner).db;
      OwnersLater(db, after) && after.bindings == db.bindings && after.assets == db.assets
  {
    hide C.PublishVersion;
    if id in db.executions && Account(db.executions[id].account) in db.owners {
      var row := db.executions[id];
      C.PublishIsCompareAndSwap(db, Account(row.account), db.owners[Account(row.account)].auth, row.previous, row.candidate);
    }
  }

  predicate Writer(call: R.Call) {
    call.CreateOwner? || call.UpdateCredential? || call.Adopt?
  }

  ghost predicate OnlyOwnersLater(db: Db, after: Db) {
    OwnersLater(db, after) && after.bindings == db.bindings && after.assets == db.assets
  }

  lemma CreateMovesOwners(db: Db, who: Owner, auth: AuthType, secret: Material, newVersion: nat)
    requires 0 !in db.versions
    ensures OnlyOwnersLater(db, C.CreateOwner(db, who, auth, secret, newVersion).db)
  {
    hide C.Persist;
    if who !in db.owners {
      var added := db.(owners := db.owners[who := OwnerRow(auth, None, 0, 0, false, true, 1, false)]);
      PersistMovesOwners(added, who, auth, secret, 0, newVersion);
      assert OwnersLater(db, added);
    }
  }

  lemma UpdateMovesOwners(db: Db, who: Owner, edit: C.Edit, newVersion: nat)
    requires 0 !in db.versions
    ensures OnlyOwnersLater(db, C.UpdateCredential(db, who, edit, newVersion).db)
  {
    hide C.Persist;
    if who in db.owners && edit.secret.Some? {
      PersistMovesOwners(db, who, C.EditedAuth(db.owners[who], edit), edit.secret.value, db.owners[who].reference, newVersion);
    }
  }

  lemma AdoptMovesOwners(db: Db, account: nat, newVersion: nat)
    requires 0 !in db.versions
    ensures OnlyOwnersLater(db, C.Adopt(db, account, newVersion).db)
  {
    hide C.Persist, C.Resolve;
    var owner := Account(account);
    if owner in db.owners && C.Resolve(db, owner).Some? {
      PersistMovesOwners(db, owner, db.owners[owner].auth, C.Resolve(db, owner).value, 0, newVersion);
    }
  }

  lemma WriterMovesOwners(db: Db, call: R.Call)
    requires 0 !in db.versions && Writer(call)
    ensures OnlyOwnersLater(db, R.Perform(db, call).db)
  {
    hide C.CreateOwner, C.UpdateCredential, C.Adopt, OnlyOwnersLater;
    match call
    case CreateOwner(who, auth, secret, newVersion) => CreateMovesOwners(db, who, auth, secret, newVersion);
    case UpdateCredential(who, edit, newVersion) => UpdateMovesOwners(db, who, edit, newVersion);
    case Adopt(account, newVersion) => AdoptMovesOwners(db, account, newVersion);
  }

  predicate SameTargets(db: Db, after: Db) {
    after.owners == db.owners && after.bindings == db.bindings && after.assets == db.assets
  }

  lemma StepLeavesTargets(db: Db, id: nat, owner: nat, flag: bool)
    ensures SameTargets(db, E.Claim(db, id, owner, flag).db)
    ensures SameTargets(db, E.BeforeChange(db, id, owner).db)
  {
    hide E.BindingRefusal, E.HoldsLease, E.LeaseRefusal, C.Readable;
    if E.LeaseRefusal(db, id, owner).None? { LeasedExists(db, id, owner); }
  }

  lemma LeasedExists(db: Db, id: nat, owner: nat)
    requires E.LeaseRefusal(db, id, owner).None?
    ensures id in db.executions && Account(db.executions[id].account) in db.owners
  {
  }

  lemma ResultLeavesTargets(db: Db, id: nat, owner: nat, flag: bool)
    ensures SameTargets(db, E.ChangeResult(db, id, owner, flag).db)
    ensures SameTargets(db, E.CandidateResult(db, id, owner, flag).db)
  {
    hide E.HoldsLease, E.LeaseRefusal;
    if E.LeaseRefusal(db, id, owner).None? { LeasedExists(db, id, owner); }
  }

  lemma EndLeavesTargets(db: Db, id: nat, owner: nat, code: string, sent: bool)
    ensures SameTargets(db, E.FinishUnchanged(db, id, owner, code, sent).db)
    ensures SameTargets(db, E.PreserveOriginal(db, id, owner).db)
  {
    hide E.HoldsLease, C.Readable;
  }

  lemma SavesLeaveTargets(db: Db, call: R.Call)
    requires R.WritesOneRow(call) && !call.Publish?
    ensures SameTargets(db, R.Perform(db, call).db)
  {
    hide E.Claim, E.BeforeChange, E.ChangeResult, E.CandidateResult, E.FinishUnchanged, E.PreserveOriginal, SameTargets;
    match call
    case Claim(id, owner, reconcile) => StepLeavesTargets(db, id, owner, reconcile);
    case BeforeChange(id, owner) => StepLeavesTargets(db, id, owner, false);
    case ChangeResult(id, owner, changed) => ResultLeavesTargets(db, id, owner, changed);
    case CandidateResult(id, owner, verified) => ResultLeavesTargets(db, id, owner, verified);
    case FinishUnsent(id, owner, code) => EndLeavesTargets(db, id, owner, code, false);
    case RejectChange(id, owner, code) => EndLeavesTargets(db, id, owner, code, true);
    case PreserveOriginal(id, owner) => EndLeavesTargets(db, id, owner, "", false);
  }

  lemma PrepareLeavesTargets(db: Db, call: R.Call)
    requires call.Prepare? || call.Tick?
    ensures SameTargets(db, R.Perform(db, call).db)
  {
    hide E.BindingRefusal, E.InputComplete, HasActiveExecution, E.KeyTaken;
  }

  lemma SameIsLater(db: Db, after: Db, account: nat)
    requires SameTargets(db, after)
    ensures OwnersLater(db, after) && AssetsLater(db, after) && BindingsLater(db, after, account)
  {
  }

  lemma SetEnabledMovesTargets(db: Db, changed: nat, revision: nat, enabled: bool, assetPresent: bool, account: nat)
    ensures var after := C.SetEnabled(db, changed, revision, enabled, assetPresent).db;
      OwnersLater(db, after) && AssetsLater(db, after) && BindingsLater(db, after, account)
  {
  }

  lemma RemoveManagementMovesTargets(db: Db, removed: nat, revision: nat, account: nat)
    requires HasActiveExecution(db, account)
    ensures var after := C.RemoveManagement(db, removed, revision).db;
      OwnersLater(db, after) && AssetsLater(db, after) && BindingsLater(db, after, account)
  {
  }

  lemma DeletionMovesTargets(db: Db, who: Owner, allowed: bool, account: nat)
    ensures var after := T.DeleteOwner(db, who, allowed).db;
      OwnersLater(db, after) && AssetsLater(db, after) && BindingsLater(db, after, account)
  {
  }

  lemma ManagementMovesTargets(db: Db, call: R.Call, account: nat)
    requires HasActiveExecution(db, account) && (call.RemoveManagement? || call.SetEnabled? || call.DeleteOwner?)
    ensures var after := R.Perform(db, call).db;
      OwnersLater(db, after) && AssetsLater(db, after) && BindingsLater(db, after, account)
  {
    hide C.RemoveManagement, C.SetEnabled, T.DeleteOwner, OwnersLater, AssetsLater, BindingsLater, HasActiveExecution;
    if call.RemoveManagement? {
      RemoveManagementMovesTargets(db, call.account, call.revision, account);
    } else if call.DeleteOwner? {
      DeletionMovesTargets(db, call.who, call.allowed, account);
    } else {
      SetEnabledMovesTargets(db, call.account, call.revision, call.enabled, call.assetPresent, account);
    }
  }

  /** Whatever anybody calls: revisions of owners and bindings grow, deleted assets stay deleted, and no binding of an
   account with an active execution disappears. */
  lemma CallMovesTargets(db: Db, call: R.Call, account: nat)
    requires V.VaultOk(db) && HasActiveExecution(db, account)
    ensures var after := R.Perform(db, call).db;
      OwnersLater(db, after) && AssetsLater(db, after) && BindingsLater(db, after, account)
  {
    hide V.VaultOk, R.Perform, HasActiveExecution;
    IdsOf(db);
    if Writer(call) {
      WriterMovesOwners(db, call);
    } else if call.Publish? {
      assert R.Perform(db, call) == E.Publish(db, call.id, call.owner) by { PerformsPublish(db, call); }
      PublishMovesOwners(db, call.id, call.owner);
    } else if call.Retarget? {
      RetargetMovesTargets(db, call, account);
    } else if call.RemoveManagement? || call.SetEnabled? || call.DeleteOwner? {
      ManagementMovesTargets(db, call, account);
    } else {
      if call.Prepare? || call.Tick? {
        PrepareLeavesTargets(db, call);
      } else {
        SavesLeaveTargets(db, call);
      }
      SameIsLater(db, R.Perform(db, call).db, account);
    }
  }

  lemma IdsOf(db: Db)
    requires V.VaultOk(db)
    ensures 0 !in db.versions
  {
  }

  lemma PerformsPublish(db: Db, call: R.Call)
    requires call.Publish?
    ensures R.Perform(db, call) == E.Publish(db, call.id, call.owner)
  {
  }

  lemma RetargetMovesTargets(db: Db, call: R.Call, account: nat)
    requires call.Retarget?
    ensures var after := R.Perform(db, call).db;
      OwnersLater(db, after) && AssetsLater(db, after) && BindingsLater(db, after, account)
  {
    hide T.Apply;
    ChangeMovesTargets(db, call.change, account);
  }

  // ---- The invariant ----

  lemma HeldForward(db: Db, after: Db, row: Execution)
    requires TargetHeld(db, row)
    requires OwnersLater(db, after) && AssetsLater(db, after) && BindingsLater(db, after, row.account)
    ensures TargetHeld(after, row)
  {
  }

  lemma PreparedIsHeld(db: Db, call: R.Call)
    requires call.Prepare? && R.Perform(db, call).db != db
    ensures var after := R.Perform(db, call).db; call.newId in after.executions && TargetHeld(after, after.executions[call.newId])
  {
  }

  lemma SameTarget(db: Db, a: Execution, b: Execution)
    requires R.RowLater(a, b) && TargetHeld(db, a)
    ensures TargetHeld(db, b)
  {
  }

  lemma RowOfActive(db: Db, id: nat)
    requires V.VaultOk(db) && id in db.executions && db.executions[id].activeAccount.Some?
    ensures HasActiveExecution(db, db.executions[id].account)
  {
    assert V.RowConsistent(db.executions[id]);
  }

  lemma StillActiveWasActive(db: Db, call: R.Call, id: nat)
    requires V.VaultOk(db) && id in db.executions
    ensures var after := R.Perform(db, call).db;
      && id in after.executions && R.RowLater(db.executions[id], after.executions[id])
      && (after.executions[id].activeAccount.Some? ==> db.executions[id].activeAccount.Some?)
  {
    hide R.Perform;
    R.CallMovesRowsForward(db, call);
    assert V.RowConsistent(db.executions[id]);
  }

  lemma CallKeepsTargets(db: Db, call: R.Call)
    requires V.VaultOk(db) && TargetsHeld(db)
    ensures TargetsHeld(R.Perform(db, call).db)
  {
    hide V.VaultOk, R.Perform, TargetHeld, R.RowLater;
    var after := R.Perform(db, call).db;
    forall id | id in after.executions && after.executions[id].activeAccount.Some?
      ensures TargetHeld(after, after.executions[id])
    {
      if id in db.executions {
        StillActiveWasActive(db, call, id);
        RowOfActive(db, id);
        CallMovesTargets(db, call, db.executions[id].account);
        HeldForward(db, after, db.executions[id]);
        SameTarget(after, db.executions[id], after.executions[id]);
      } else {
        OnlyPrepareAdds(db, call, id);
        PreparedIsHeld(db, call);
      }
    }
  }

  lemma OnlyPrepareAdds(db: Db, call: R.Call, id: nat)
    requires V.VaultOk(db) && id !in db.executions && id in R.Perform(db, call).db.executions
    ensures call.Prepare? && id == call.newId && R.Perform(db, call).db != db
  {
    hide V.VaultOk, R.Perform;
    if call.Prepare? {
      R.PrepareAddsUnsentRow(db, call);
    } else if R.WritesOneRow(call) {
      R.RowsAreConsistent(db);
      R.CallSavesOneRow(db, call);
    } else {
      R.OtherCallsSaveNoRow(db, call);
    }
  }

  // ---- What is lost is lost ----

  /** No call by anybody makes a lost target workable again, as long as the execution is where it was. */
  lemma LostForGood(db: Db, after: Db, row: Execution, later: Execution)
    requires TargetHeld(db, row) && !Workable(db, row)
    requires OwnersLater(db, after) && AssetsLater(db, after) && BindingsLater(db, after, row.account)
    requires R.RowLater(row, later) && (later.state == Prepared <==> row.state == Prepared)
    ensures !Workable(after, later)
  {
  }

  /** Nobody is let through to an execution that is not workable. */
  lemma WorkNeedsTarget(db: Db, row: Execution)
    requires T.MayWork(db, row, row.state != Prepared)
    ensures Workable(db, row)
  {
  }
}
