/** When each transaction on vault and executions is accepted, and what it leaves: on the tables before and after it. */
module ExecutionOutcomes {
  import opened Basics
  import opened Tables
  import C = CredentialSpec
  import E = ExecutionSpec
  import T = TargetSpec
  import V = VaultInvariant
  import R = VaultRuns
  import VaultResolution

  /** Nothing of this account is under way. */
  predicate Free(db: Db, account: nat) {
    forall id :: id in db.executions ==> db.executions[id].activeAccount != Some(account)
  }

  /** The binding is in use, at this revision, and where its asset is. */
  predicate BoundAsSeen(db: Db, binding: nat, revision: nat, account: nat) {
    && binding in db.bindings && db.bindings[binding].enabled && db.bindings[binding].account == account
    && db.bindings[binding].revision == revision
    && db.bindings[binding].asset in db.assets && !db.assets[db.bindings[binding].asset].deleted
    && db.bindings[binding].route == db.assets[db.bindings[binding].asset].route
  }

  // ---- Preparation ----

  predicate NewKey(db: Db, input: E.PrepareInput) {
    forall id :: id in db.executions ==> db.executions[id].creator != input.creator || db.executions[id].key != input.key
  }

  lemma KeyIsNew(db: Db, input: E.PrepareInput)
    ensures NewKey(db, input) <==> !E.KeyTaken(db, input)
  {
  }

  predicate InputGiven(input: E.PrepareInput, candidate: Material) {
    && input.account != 0 && input.creator != 0 && input.key != 0 && input.binding != 0
    && input.accountRevision != 0 && input.bindingRevision != 0
    && (input.action == RotateSecret || input.action == RecoverSecret) && candidate.Password? && candidate.text != 0
  }

  /** The account as the caller saw it: managed, in use, at this revision and with this password version. */
  predicate AccountAsSeen(db: Db, input: E.PrepareInput) {
    && Account(input.account) in db.owners
    && var owner := db.owners[Account(input.account)];
       && !owner.deleted && owner.managed && owner.enabled && owner.auth == PasswordAuth
       && owner.revision == input.accountRevision && owner.reference == input.previous && input.previous != 0
  }

  /** A preparation under a new key is accepted exactly if account and binding are as seen and the account is free. */
  lemma {:induction false} PreparedExactly(db: Db, input: E.PrepareInput, candidate: Material, id: nat, version: nat)
    requires NewKey(db, input)
    ensures var c := E.Prepare(db, input, candidate, id, version);
      && (c.reply.Ok? <==>
            && InputGiven(input, candidate) && AccountAsSeen(db, input) && Free(db, input.account)
            && BoundAsSeen(db, input.binding, input.bindingRevision, input.account)
            && id != 0 && id !in db.executions && id !in db.audits && version != 0 && version !in db.versions)
      && (c.reply.Refused? ==> c.db == db)
  {
    KeyIsNew(db, input);
    IsFree(db, input.account);
    hide HasActiveExecution, Free, E.KeyTaken;
  }

  lemma IsFree(db: Db, account: nat)
    ensures Free(db, account) <==> !HasActiveExecution(db, account)
  {
  }

  /** What is stored: the candidate as a pending version, an execution that pins account, binding, scope and previous
   version as they are, and its audit row; nothing else changes. */
  lemma {:induction false} PreparationStored(db: Db, input: E.PrepareInput, candidate: Material, id: nat, version: nat)
    requires NewKey(db, input) && E.Prepare(db, input, candidate, id, version).reply.Ok?
    ensures var c, owner := E.Prepare(db, input, candidate, id, version), Account(input.account);
      && c.reply == Ok(id) && owner in db.owners && input.binding in db.bindings && id in c.db.executions
      && c.db == db.(versions := db.versions[version := Version(owner, candidate, Pending, id)],
                     executions := db.executions[id := c.db.executions[id]], audits := db.audits[id := AuditPending])
      && PreparedRow(c.db.executions[id], input, db.owners[owner], db.bindings[input.binding], version)
  {
    KeyIsNew(db, input);
    IsFree(db, input.account);
    hide HasActiveExecution, Free, E.KeyTaken;
  }

  predicate PreparedRow(row: Execution, input: E.PrepareInput, owner: OwnerRow, binding: Binding, version: nat) {
    && row.account == input.account && row.activeAccount == Some(input.account)
    && row.creator == input.creator && row.key == input.key && row.intent == input.intent && row.action == input.action
    && row.accountRevision == owner.revision && row.binding == input.binding && row.bindingRevision == binding.revision
    && row.scope == (if input.scoped then Some(Scope(binding.asset, binding.route.host, binding.route.gateway, binding.config)) else None)
    && row.previous == owner.reference && row.candidate == version
    && row.state == Prepared && row.revision == 1 && row.leaseOwner == 0 && row.leaseUntil.None? && row.errorCode == ""
    && row.sendStartedAt.None? && row.verifiedAt.None? && row.finishedAt.None?
  }

  /** Under a used key it answers with that execution if it is the same request of a managed account. */
  lemma RepeatedPreparation(db: Db, input: E.PrepareInput, candidate: Material, id: nat, version: nat, used: nat)
    requires V.VaultOk(db) && used in db.executions && db.executions[used].creator == input.creator && db.executions[used].key == input.key
    ensures var c, row := E.Prepare(db, input, candidate, id, version), db.executions[used];
      && c.db == db && (c.reply.Ok? ==> c.reply == Ok(used))
      && (c.reply.Ok? <==>
            && InputGiven(input, candidate) && Exists(db, Account(input.account)) && db.owners[Account(input.account)].managed
            && row.intent == input.intent && row.account == input.account && row.action == input.action)
  {
    assert E.RowOfKey(db, input) == used by { assert V.KeysUnique(db); }
    hide V.VaultOk;
  }

  // ---- The calls of an executor ----

  /** A claim is accepted exactly on an active row whose lease is out, a prepared one for the change itself, any other for
   recovery; that becomes uncertain. */
  lemma ClaimedExactly(db: Db, id: nat, owner: nat, reconcile: bool)
    requires V.VaultOk(db)
    ensures var c := E.Claim(db, id, owner, reconcile);
      && (c.reply.Ok? <==>
            && owner != 0 && id in db.executions && db.executions[id].activeAccount.Some?
            && (db.executions[id].leaseUntil.Some? ==> db.executions[id].leaseUntil.value <= db.now)
            && (db.executions[id].state == Prepared <==> !reconcile))
      && (c.reply.Refused? ==> c.db == db)
      && (c.reply.Ok? ==> c.db == db.(executions := db.executions[id := db.executions[id].(
            state := if reconcile then Unknown else Prepared, leaseOwner := owner, leaseUntil := Some(db.now + 2 * MINUTE),
            revision := db.executions[id].revision + 1)]))
  {
    if id in db.executions { assert V.RowConsistent(db.executions[id]); }
    assert 0 !in db.executions;
    hide V.VaultOk;
  }

  /** Everything else needs the account and a live lease in the caller's name. */
  predicate HasLease(db: Db, id: nat, owner: nat) {
    && owner != 0 && id in db.executions && db.executions[id].leaseOwner == owner && db.executions[id].activeAccount.Some?
    && db.executions[id].leaseUntil.Some? && db.now < db.executions[id].leaseUntil.value
    && Account(db.executions[id].account) in db.owners && !db.owners[Account(db.executions[id].account)].deleted
  }

  lemma LeaseHolds(db: Db, id: nat, owner: nat)
    requires V.VaultOk(db)
    ensures E.LeaseRefusal(db, id, owner).None? <==> HasLease(db, id, owner)
    ensures HasLease(db, id, owner) ==> V.Held(db, db.executions[id]) && id in db.audits && V.RowConsistent(db.executions[id])
  {
    if id in db.executions && db.executions[id].activeAccount.Some? { assert V.Held(db, db.executions[id]); }
  }

  lemma {:induction false} BegunExactly(db: Db, id: nat, owner: nat)
    requires V.VaultOk(db)
    ensures var c := E.BeforeChange(db, id, owner);
      && (c.reply.Ok? <==>
            && HasLease(db, id, owner) && db.executions[id].state == Prepared
            && db.owners[Account(db.executions[id].account)].enabled
            && db.owners[Account(db.executions[id].account)].revision == db.executions[id].accountRevision
            && BoundAsSeen(db, db.executions[id].binding, db.executions[id].bindingRevision, db.executions[id].account))
      && (c.reply.Refused? ==> c.db == db)
      && (c.reply.Ok? ==> c.db == db.(executions := db.executions[id := db.executions[id].(
            state := Changing, sendStartedAt := Some(db.now), revision := db.executions[id].revision + 1)]))
  {
    LeaseHolds(db, id, owner);
    hide V.VaultOk, E.LeaseRefusal;
  }

  lemma {:induction false} ChangeRecordedExactly(db: Db, id: nat, owner: nat, changed: bool)
    requires V.VaultOk(db)
    ensures var c := E.ChangeResult(db, id, owner, changed);
      && (c.reply.Ok? <==> HasLease(db, id, owner) && db.executions[id].state == Changing)
      && (c.reply.Refused? ==> c.db == db)
      && (c.reply.Ok? ==> c.db == db.(executions := db.executions[id := db.executions[id].(
            state := if changed then Verifying else Unknown, errorCode := if changed then "" else "result_unknown",
            revision := db.executions[id].revision + 1)]))
  {
    LeaseHolds(db, id, owner);
    hide V.VaultOk, E.LeaseRefusal;
  }

  lemma {:induction false} CandidateRecordedExactly(db: Db, id: nat, owner: nat, verified: bool)
    requires V.VaultOk(db)
    ensures var c := E.CandidateResult(db, id, owner, verified);
      && (c.reply.Ok? <==> HasLease(db, id, owner) && (db.executions[id].state == Verifying || db.executions[id].state == Unknown))
      && (c.reply.Refused? ==> c.db == db)
      && (c.reply.Ok? ==> c.db == db.(executions := db.executions[id := db.executions[id].(
            state := if verified then Verified else Unknown,
            errorCode := if verified then "" else "candidate_not_verified",
            verifiedAt := if verified then Some(db.now) else db.executions[id].verifiedAt,
            revision := db.executions[id].revision + 1)]))
  {
    LeaseHolds(db, id, owner);
    hide V.VaultOk, E.LeaseRefusal;
  }

  /** A closed row: its reason and time, no lease, and the account free again. */
  predicate ClosedAs(a: Execution, b: Execution, state: ExecutionState, code: string, now: int) {
    b == a.(state := state, errorCode := code, finishedAt := Some(now), activeAccount := None, leaseOwner := 0, leaseUntil := None,
            revision := a.revision + 1)
  }

  /** An unsent or rejected change is closed with its code, the account as it was. */
  lemma {:induction false} FinishedExactly(db: Db, id: nat, owner: nat, code: string, sent: bool)
    requires V.VaultOk(db)
    ensures var c := E.FinishUnchanged(db, id, owner, code, sent);
      && (c.reply.Ok? <==>
            && 1 <= |code| <= 64 && HasLease(db, id, owner)
            && (db.executions[id].state == Changing || (!sent && db.executions[id].state == Prepared)))
      && (c.reply.Refused? ==> c.db == db)
      && (c.reply.Ok? ==>
            && id in c.db.executions && ClosedAs(db.executions[id], c.db.executions[id], Failed, code, db.now)
            && c.db == db.(executions := db.executions[id := c.db.executions[id]], audits := db.audits[id := AuditFailed(code)]))
  {
    LeaseHolds(db, id, owner);
    hide V.VaultOk, E.LeaseRefusal;
  }

  /** Keeping the original retains the candidate and closes the row; the account keeps its password. */
  lemma {:induction false} PreservedExactly(db: Db, id: nat, owner: nat)
    requires V.VaultOk(db)
    ensures var c := E.PreserveOriginal(db, id, owner);
      && (c.reply.Ok? <==> HasLease(db, id, owner) && db.executions[id].state == Unknown)
      && (c.reply.Refused? ==> c.db == db)
      && (c.reply.Ok? ==>
            && var row := db.executions[id];
            && row.candidate in db.versions && id in c.db.executions
            && ClosedAs(row, c.db.executions[id], Failed, "original_verified", db.now)
            && c.db == db.(executions := db.executions[id := c.db.executions[id]], audits := db.audits[id := AuditFailed("original_verified")],
                           versions := db.versions[row.candidate := db.versions[row.candidate].(state := Retained)]))
  {
    LeaseHolds(db, id, owner);
    hide V.VaultOk, E.LeaseRefusal;
  }

  /** Publication: the candidate is the account's active version from now on, the previous one retained, the row completed;
   one that is completed already is answered again. */
  lemma {:induction false} PublishedExactly(db: Db, id: nat, owner: nat)
    requires V.VaultOk(db)
    ensures var c := E.Publish(db, id, owner);
      && (c.reply.Ok? <==>
            id in db.executions && (db.executions[id].state == Completed
              || (HasLease(db, id, owner) && db.executions[id].state == Verified)))
      && (c.reply.Refused? || db.executions[id].state == Completed ==> c.db == db)
      && (c.reply.Ok? && db.executions[id].state != Completed ==> PublishEffect(db, c.db, id))
  {
    hide V.VaultOk, E.Publish, PublishEffect;
    R.PublishSucceedsExactly(db, id, owner);
    PublishRefused(db, id, owner);
    if E.Publish(db, id, owner).reply.Ok? && db.executions[id].state != Completed { PublishChanges(db, id, owner); }
  }

  lemma PublishRefused(db: Db, id: nat, owner: nat)
    ensures var c := E.Publish(db, id, owner);
      c.reply.Refused? || (id in db.executions && db.executions[id].state == Completed) ==> c.db == db
  {
    hide C.PublishVersion, E.LeaseRefusal;
  }

  lemma PublishChanges(db: Db, id: nat, owner: nat)
    requires V.VaultOk(db) && E.Publish(db, id, owner).reply.Ok? && id in db.executions && db.executions[id].state != Completed
    ensures PublishEffect(db, E.Publish(db, id, owner).db, id)
  {
    hide C.PublishVersion, V.VaultOk;
    var row := db.executions[id];
    SwapOf(db, id);
    C.PublishIsCompareAndSwap(db, Account(row.account), db.owners[Account(row.account)].auth, row.previous, row.candidate);
    hide C.Readable, V.Held, E.LeaseRefusal;
  }

  lemma SwapOf(db: Db, id: nat)
    requires V.VaultOk(db) && id in db.executions
    ensures 0 !in db.versions && (db.executions[id].activeAccount.Some? ==> Account(db.executions[id].account) in db.owners)
  {
    assert db.executions[id].activeAccount.Some? ==> V.Held(db, db.executions[id]);
  }

  ghost predicate PublishEffect(db: Db, after: Db, id: nat)
    requires id in db.executions
  {
    var row := db.executions[id];
    var account := Account(row.account);
    && account in db.owners && id in after.executions && ClosedAs(row, after.executions[id], Completed, "", db.now)
    && after == db.(executions := db.executions[id := after.executions[id]], audits := db.audits[id := AuditSucceeded(row.candidate)],
                    versions := after.versions, owners := after.owners)
    && after.owners == db.owners[account := db.owners[account].(reference := row.candidate, legacy := None,
                                                               credentialRevision := db.owners[account].credentialRevision + 1)]
    && after.versions.Keys == db.versions.Keys
    && (forall v :: v in db.versions ==> after.versions[v] == db.versions[v].(state :=
         if v == row.candidate then Active else if v == row.previous then Retained else db.versions[v].state))
  }

  // ---- Credentials and management ----

  /** A secret of the kind the owner logs in with, under a version id never used. */
  predicate Storable(db: Db, auth: AuthType, secret: Material, version: nat) {
    && ((auth == PasswordAuth && secret.Password?) || (auth == PublicKeyAuth && secret.PrivateKey?))
    && version != 0 && version !in db.versions
  }

  lemma {:induction false} CreatedExactly(db: Db, owner: Owner, auth: AuthType, secret: Material, version: nat)
    requires V.VaultOk(db)
    ensures var c := C.CreateOwner(db, owner, auth, secret, version);
      && (c.reply.Ok? <==> owner.id != 0 && owner !in db.owners && Storable(db, auth, secret, version))
      && (c.reply.Refused? ==> c.db == db)
      && (c.reply.Ok? ==>
            && owner in c.db.owners && c.db.owners == db.owners[owner := c.db.owners[owner]]
            && var row := c.db.owners[owner];
               row.auth == auth && row.reference == version && row.legacy.None? && !row.managed && row.enabled && !row.deleted)
  {
    hide V.VaultOk, C.Persist;
    ZeroIsNoVersion(db);
    if owner !in db.owners {
      var added := db.(owners := db.owners[owner := OwnerRow(auth, None, 0, 0, false, true, 1, false)]);
      StoredExactly(added, owner, auth, secret, 0, version);
    }
  }

  lemma ZeroIsNoVersion(db: Db)
    requires V.VaultOk(db)
    ensures 0 !in db.versions
  {
  }

  /** A credential is stored exactly if it fits and the reference is still the one it was to replace. */
  lemma {:induction false} StoredExactly(db: Db, owner: Owner, auth: AuthType, secret: Material, previous: nat, version: nat)
    requires 0 !in db.versions
    ensures var c := C.Persist(db, owner, auth, secret, previous, version);
      && (c.reply.Ok? <==>
            && Storable(db, auth, secret, version) && owner.id > 0 && Exists(db, owner) && db.owners[owner].reference == previous
            && (previous != 0 ==> C.Readable(db, owner, previous, Active)))
      && (c.reply.Refused? ==> c.db == db)
      && (c.reply.Ok? ==> c.db.owners == db.owners[owner := db.owners[owner].(reference := version, legacy := None,
            credentialRevision := db.owners[owner].credentialRevision + 1)])
  {
    hide C.PublishVersion;
    if Storable(db, auth, secret, version) {
      C.PublishIsCompareAndSwap(C.Stage(db, owner, 0, secret, version), owner, auth, previous, version);
    }
  }

  /** An edit. Of a managed account the name and the type stay, and its password while an execution is active. */
  lemma {:induction false} EditedExactly(db: Db, owner: Owner, edit: C.Edit, version: nat)
    requires V.VaultOk(db)
    ensures var c := C.UpdateCredential(db, owner, edit, version);
      var managed := owner.Account? && owner in db.owners && db.owners[owner].managed;
      && (c.reply.Ok? <==>
            && Exists(db, owner)
            && (managed ==> !edit.renames)
            && (managed || edit.secret.None? ==> edit.auth.None? || edit.auth.value == db.owners[owner].auth)
            && (managed && edit.secret.Some? ==> Free(db, owner.id))
            && (edit.secret.Some? ==> Storable(db, if edit.auth.Some? then edit.auth.value else db.owners[owner].auth, edit.secret.value, version)))
      && (c.reply.Refused? || edit.secret.None? ==> c.db == db)
      && (c.reply.Ok? && edit.secret.Some? ==>
            c.db.owners == db.owners[owner := db.owners[owner].(reference := version, legacy := None,
              auth := if edit.auth.Some? then edit.auth.value else db.owners[owner].auth,
              credentialRevision := db.owners[owner].credentialRevision + 1)])
  {
    hide V.VaultOk, C.Persist, Free, HasActiveExecution, Storable;
    IsFree(db, owner.id);
    if owner in db.owners { OwnerOk(db, owner); }
    if edit.secret.Some? && owner in db.owners {
      var auth := C.EditedAuth(db.owners[owner], edit);
      assert auth == if edit.auth.Some? then edit.auth.value else db.owners[owner].auth;
      StoredExactly(db, owner, auth, edit.secret.value, db.owners[owner].reference, version);
    }
  }

  lemma OwnerOk(db: Db, owner: Owner)
    requires V.VaultOk(db) && owner in db.owners
    ensures 0 !in db.versions && owner.id > 0
    ensures db.owners[owner].reference != 0 ==> C.Readable(db, owner, db.owners[owner].reference, Active)
  {
  }

  /** Enabling and disabling at the revision seen; only enabling needs the authority asset, and nothing needs idleness. */
  lemma SwitchedExactly(db: Db, account: nat, revision: nat, enabled: bool, assetPresent: bool)
    ensures var c, owner := C.SetEnabled(db, account, revision, enabled, assetPresent), Account(account);
      && (c.reply.Ok? <==>
            && revision != 0 && Exists(db, owner) && db.owners[owner].managed && db.owners[owner].revision == revision
            && (enabled && !db.owners[owner].enabled ==> assetPresent))
      && (c.reply.Refused? || db.owners[owner].enabled == enabled ==> c.db == db)
      && (c.reply.Ok? && db.owners[owner].enabled != enabled ==>
            c.db == db.(owners := db.owners[owner := db.owners[owner].(enabled := enabled, revision := revision + 1)]))
  {
  }

  /** Management is removed at the revision seen from an account nothing of which is under way, with its bindings. */
  lemma {:induction false} RemovedExactly(db: Db, account: nat, revision: nat)
    ensures var c, owner := C.RemoveManagement(db, account, revision), Account(account);
      && (c.reply.Ok? <==>
            revision != 0 && Exists(db, owner) && db.owners[owner].managed && db.owners[owner].revision == revision && Free(db, account))
      && (c.reply.Refused? ==> c.db == db)
      && (c.reply.Ok? ==>
            && c.db == db.(owners := db.owners[owner := db.owners[owner].(managed := false, enabled := true, revision := revision + 1)],
                           bindings := c.db.bindings)
            && (forall b :: b in c.db.bindings <==> b in db.bindings && db.bindings[b].account != account)
            && (forall b :: b in c.db.bindings ==> c.db.bindings[b] == db.bindings[b]))
  {
    IsFree(db, account);
    hide HasActiveExecution, Free;
  }

  /** Adoption of an account that is not managed yet: its version stays, or the secret it has becomes the first one. */
  lemma {:induction false} AdoptedExactly(db: Db, account: nat, version: nat)
    requires V.VaultOk(db)
    ensures var c, owner := C.Adopt(db, account, version), Account(account);
      && (c.reply.Ok? <==>
            && account != 0 && Exists(db, owner) && !db.owners[owner].managed
            && (db.owners[owner].reference == 0 ==>
                  C.Resolve(db, owner).Some? && Storable(db, db.owners[owner].auth, C.Resolve(db, owner).value, version)))
      && (c.reply.Refused? ==> c.db == db)
      && (c.reply.Ok? ==>
            && owner in c.db.owners && c.db.owners[owner].managed && c.db.owners[owner].enabled
            && c.db.owners[owner].revision == db.owners[owner].revision + 1 && c.db.owners[owner].reference != 0
            && c.db.owners == db.owners[owner := c.db.owners[owner]] && C.Resolve(c.db, owner) == C.Resolve(db, owner))
  {
    var owner := Account(account);
    if owner in db.owners {
      OwnerOk(db, owner);
      if db.owners[owner].reference == 0 && C.Resolve(db, owner).Some? {
        StoredExactly(db, owner, db.owners[owner].auth, C.Resolve(db, owner).value, 0, version);
      }
    }
    VaultResolution.AdoptResolves(db, account, version);
    hide V.VaultOk, C.Persist, C.Resolve, Storable;
  }

  // ---- Bindings ----

  predicate AccountInUse(db: Db, account: nat) {
    Exists(db, Account(account)) && db.owners[Account(account)].managed && db.owners[Account(account)].enabled
  }

  /** A review follows the asset, and keeps the configuration exactly if the asset had not moved. */
  lemma {:induction false} ReviewedExactly(db: Db, binding: nat, revision: nat, enabled: bool, fits: bool)
    ensures var c := T.ReviewBinding(db, binding, revision, enabled, fits);
      && (c.reply.Ok? <==>
            && revision != 0 && binding in db.bindings && db.bindings[binding].revision == revision && fits
            && AccountInUse(db, db.bindings[binding].account)
            && db.bindings[binding].asset in db.assets && !db.assets[db.bindings[binding].asset].deleted)
      && (c.reply.Refused? ==> c.db == db)
      && (c.reply.Ok? ==>
            && var b := db.bindings[binding];
            && var route := db.assets[b.asset].route;
            && c.db == db.(bindings := db.bindings[binding := b.(route := route, config := if route == b.route then b.config else 0,
                                                                 enabled := enabled, revision := revision + 1)]))
  {
  }

  /** A configuration is saved for a usable target at the revision seen. */
  lemma {:induction false} ConfiguredExactly(db: Db, binding: nat, revision: nat, config: nat, allowed: bool)
    ensures var c := T.SavePasswordConfig(db, binding, revision, config, allowed);
      && (c.reply.Ok? <==>
            && revision != 0 && allowed && binding in db.bindings && AccountInUse(db, db.bindings[binding].account)
            && BoundAsSeen(db, binding, revision, db.bindings[binding].account))
      && (c.reply.Refused? ==> c.db == db)
      && (c.reply.Ok? ==>
            c.db == db.(bindings := db.bindings[binding := db.bindings[binding].(config := config, revision := revision + 1)]))
  {
  }

  /** An account in use is attached to an asset it is not bound to yet. */
  lemma {:induction false} AttachedExactly(db: Db, account: nat, asset: nat, newBinding: nat, fits: bool)
    ensures var c := T.AttachBinding(db, account, asset, newBinding, fits);
      && (c.reply.Ok? <==>
            && asset in db.assets && !db.assets[asset].deleted && AccountInUse(db, account) && fits
            && newBinding != 0 && newBinding !in db.bindings
            && (forall b :: b in db.bindings ==> db.bindings[b].account != account || db.bindings[b].asset != asset))
      && (c.reply.Refused? ==> c.db == db)
      && (c.reply.Ok? ==> c.db == db.(bindings := db.bindings[newBinding := Binding(account, asset, db.assets[asset].route, 0, true, 1)]))
  {
  }

  /** Whether a password operation may load its target, and whether an execution matches it. */
  lemma {:induction false} MayWorkExactly(db: Db, row: Execution, recovery: bool)
    ensures T.MayWork(db, row, recovery) <==>
      && AccountInUse(db, row.account) && row.binding in db.bindings
      && BoundAsSeen(db, row.binding, db.bindings[row.binding].revision, row.account)
      && (forall b :: b in db.bindings && db.bindings[b].account == row.account ==> db.bindings[b].asset == db.bindings[row.binding].asset)
      && (if recovery && row.scope.Some? then
            var b := db.bindings[row.binding]; row.scope == Some(Scope(b.asset, b.route.host, b.route.gateway, b.config))
          else db.bindings[row.binding].revision == row.bindingRevision && db.owners[Account(row.account)].revision == row.accountRevision)
  {
  }

  /** Creating, moving and deleting an asset; an id is never used again. */
  lemma AssetsChangedExactly(db: Db, asset: nat, route: Route)
    ensures var added, moved, gone := T.AddAsset(db, asset, route), T.MoveAsset(db, asset, route), T.MarkDeleted(db, asset);
      var lives := asset in db.assets && !db.assets[asset].deleted;
      && (added.reply.Ok? <==> asset != 0 && asset !in db.assets) && (moved.reply.Ok? <==> lives) && (gone.reply.Ok? <==> lives)
      && added.db == (if asset != 0 && asset !in db.assets then db.(assets := db.assets[asset := Asset(route, false)]) else db)
      && moved.db == (if lives then db.(assets := db.assets[asset := Asset(route, false)]) else db)
      && gone.db == (if lives then db.(assets := db.assets[asset := Asset(db.assets[asset].route, true)]) else db)
  {
  }

  /** An account is deleted exactly if permitted and bound to no asset that exists, a gateway if no such asset is reached
   through it; the row is marked and nothing else changes. */
  lemma {:induction false} DeletedExactly(db: Db, owner: Owner, allowed: bool)
    ensures var c := T.DeleteOwner(db, owner, allowed);
      && (c.reply.Ok? <==>
            && Exists(db, owner) && allowed
            && (owner.Account? ==> forall b :: b in db.bindings && db.bindings[b].account == owner.id ==>
                  db.bindings[b].asset in db.assets ==> db.assets[db.bindings[b].asset].deleted)
            && (owner.Gateway? ==> forall a :: a in db.assets && db.assets[a].route.gateway == owner.id ==> db.assets[a].deleted))
      && (c.reply.Refused? ==> c.db == db)
      && (c.reply.Ok? ==> c.db == db.(owners := db.owners[owner := db.owners[owner].(deleted := true)]))
  {
  }
}
