/** What every transaction keeps, whoever calls it and in whatever order. */
module VaultInvariant {
  import opened Basics
  import opened Tables
  import opened CredentialSpec
  import opened ExecutionSpec

  /** An owner's reference names a readable active version of the right kind. */
  ghost predicate ReferencesAreActive(db: Db) {
    forall o :: o in db.owners && db.owners[o].reference != 0 ==>
      && Readable(db, o, db.owners[o].reference, Active)
      && KindMatches(db.owners[o].auth, db.versions[db.owners[o].reference].secret)
  }

  /** And nothing else is active: at most one active version per owner, none when the reference is empty. */
  ghost predicate ActiveIsReferenced(db: Db) {
    forall v :: v in db.versions && db.versions[v].state == Active ==>
      db.versions[v].owner in db.owners && db.owners[db.versions[v].owner].reference == v
  }

  ghost predicate OwnersWellFormed(db: Db) {
    forall o :: o in db.owners ==>
      && o.id > 0
      && (db.owners[o].managed ==> o.Account? && db.owners[o].reference != 0)
      && (db.owners[o].reference != 0 ==> db.owners[o].legacy.None?)
  }

  ghost predicate IdsNonzero(db: Db) {
    0 !in db.versions && 0 !in db.executions
  }

  /** The row's own columns agree with its state. */
  predicate RowConsistent(row: Execution) {
    && (row.activeAccount == if Terminal(row.state) then None else Some(row.account))
    && (Terminal(row.state) ==> row.leaseOwner == 0)
    && (row.leaseOwner == 0 <==> row.leaseUntil.None?)
    && (row.state == Prepared ==> row.sendStartedAt.None?)
    && (row.state != Prepared && row.state != Failed ==> row.sendStartedAt.Some?)
    && (row.state == Verified ==> row.verifiedAt.Some?)
    && (row.state == Changing || row.state == Verifying || row.state == Verified ==> row.leaseOwner != 0)
  }

  ghost predicate RowsConsistent(db: Db) {
    forall id :: id in db.executions ==> RowConsistent(db.executions[id])
  }

  predicate AuditMatches(row: Execution, audit: Audit) {
    match row.state
    case Completed => audit == AuditSucceeded(row.candidate)
    case Failed => audit == AuditFailed(row.errorCode)
    case _ => audit == AuditPending
  }

  ghost predicate Audited(db: Db) {
    forall id :: id in db.executions ==> id in db.audits && AuditMatches(db.executions[id], db.audits[id])
  }

  /** While an execution is active its account, previous version and candidate stay as Prepare found them. */
  ghost predicate Held(db: Db, row: Execution) {
    var owner := Account(row.account);
    && owner in db.owners
    && db.owners[owner].managed
    && db.owners[owner].auth == PasswordAuth
    && db.owners[owner].reference == row.previous
    && row.previous != 0
    && row.previous != row.candidate
    && Readable(db, owner, row.candidate, Pending)
    && db.versions[row.candidate].secret.Password?
  }

  ghost predicate ActiveRowsHeld(db: Db) {
    forall id :: id in db.executions && db.executions[id].activeAccount.Some? ==> Held(db, db.executions[id])
  }

  /** The two unique indexes of the execution table. */
  ghost predicate OneActivePerAccount(db: Db) {
    forall i, j ::
      (i in db.executions && j in db.executions && db.executions[i].activeAccount.Some?
       && db.executions[i].activeAccount == db.executions[j].activeAccount) ==> i == j
  }

  ghost predicate KeysUnique(db: Db) {
    forall i, j ::
      (i in db.executions && j in db.executions && db.executions[i].creator == db.executions[j].creator
       && db.executions[i].key == db.executions[j].key) ==> i == j
  }

  ghost predicate CredentialsOk(db: Db) {
    ReferencesAreActive(db) && ActiveIsReferenced(db) && OwnersWellFormed(db) && IdsNonzero(db)
  }

  ghost predicate ExecutionsOk(db: Db) {
    RowsConsistent(db) && Audited(db) && ActiveRowsHeld(db) && OneActivePerAccount(db) && KeysUnique(db)
  }

  ghost predicate VaultOk(db: Db) {
    CredentialsOk(db) && ExecutionsOk(db)
  }

  /** No active execution of this account: the premise of every competing writer. */
  ghost predicate Idle(db: Db, owner: Owner) {
    forall id :: id in db.executions && db.executions[id].activeAccount.Some? ==> Account(db.executions[id].account) != owner
  }

  /** Every owner but this one has an active reference of its kind. */
  ghost predicate OthersActive(db: Db, owner: Owner) {
    forall o :: o in db.owners && o != owner && db.owners[o].reference != 0 ==>
      && Readable(db, o, db.owners[o].reference, Active)
      && KindMatches(db.owners[o].auth, db.versions[db.owners[o].reference].secret)
  }

  function WithAuth(db: Db, owner: Owner, auth: AuthType): Db
    requires owner in db.owners
  {
    db.(owners := db.owners[owner := db.owners[owner].(auth := auth)])
  }

  lemma PublishKeepsCredentials(db: Db, owner: Owner, auth: AuthType, previous: nat, candidate: nat)
    requires ActiveIsReferenced(db) && OwnersWellFormed(db) && IdsNonzero(db) && OthersActive(db, owner)
    requires owner in db.owners
    ensures var c := PublishVersion(db, owner, auth, previous, candidate);
      c.reply.Ok? ==> owner in c.db.owners && CredentialsOk(WithAuth(c.db, owner, auth))
  {
    var c := PublishVersion(db, owner, auth, previous, candidate);
    PublishIsCompareAndSwap(db, owner, auth, previous, candidate);
    if c.reply.Ok? {
      var after := WithAuth(c.db, owner, auth);
      forall o | o in after.owners && after.owners[o].reference != 0
        ensures Readable(after, o, after.owners[o].reference, Active)
        ensures KindMatches(after.owners[o].auth, after.versions[after.owners[o].reference].secret)
      {
        if o != owner { assert db.owners[o] == after.owners[o]; }
      }
      forall v | v in after.versions && after.versions[v].state == Active
        ensures after.versions[v].owner in after.owners && after.owners[after.versions[v].owner].reference == v
      {
        if v != candidate { assert db.versions[v].state == Active; }
      }
    }
  }

  /** Only owners and versions of an idle owner changed. */
  ghost predicate OnlyOwnerChanged(db: Db, after: Db, owner: Owner) {
    && after.executions == db.executions && after.audits == db.audits
    && (forall o :: o in db.owners && o != owner ==> o in after.owners && after.owners[o] == db.owners[o])
    && (forall v :: v in db.versions && db.versions[v].owner != owner ==> v in after.versions && after.versions[v] == db.versions[v])
  }

  lemma IdleOwnerFrame(db: Db, after: Db, owner: Owner)
    requires ExecutionsOk(db) && Idle(db, owner) && OnlyOwnerChanged(db, after, owner)
    ensures ExecutionsOk(after)
  {
    forall id | id in after.executions && after.executions[id].activeAccount.Some?
      ensures Held(after, after.executions[id])
    {
      assert Held(db, db.executions[id]);
    }
  }

  lemma PublishFrame(db: Db, owner: Owner, auth: AuthType, previous: nat, candidate: nat)
    requires owner in db.owners
    ensures var c := PublishVersion(db, owner, auth, previous, candidate);
      c.reply.Ok? ==> owner in c.db.owners && OnlyOwnerChanged(db, WithAuth(c.db, owner, auth), owner)
  {
    if 0 !in db.versions { PublishIsCompareAndSwap(db, owner, auth, previous, candidate); }
  }

  lemma StageKeeps(db: Db, owner: Owner, operation: nat, secret: Material, newVersion: nat)
    requires ActiveIsReferenced(db) && OwnersWellFormed(db) && IdsNonzero(db) && OthersActive(db, owner)
    requires newVersion != 0 && newVersion !in db.versions
    ensures var staged := Stage(db, owner, operation, secret, newVersion);
      ActiveIsReferenced(staged) && OwnersWellFormed(staged) && IdsNonzero(staged) && OthersActive(staged, owner)
  {
  }

  lemma PersistKeeps(db: Db, owner: Owner, auth: AuthType, secret: Material, previous: nat, newVersion: nat)
    requires ActiveIsReferenced(db) && OwnersWellFormed(db) && IdsNonzero(db) && OthersActive(db, owner)
    requires ExecutionsOk(db) && Idle(db, owner)
    requires owner in db.owners
    ensures var c := Persist(db, owner, auth, secret, previous, newVersion);
      c.reply.Ok? ==> owner in c.db.owners && VaultOk(WithAuth(c.db, owner, auth))
  {
    var c := Persist(db, owner, auth, secret, previous, newVersion);
    if c.reply.Ok? {
      var staged := Stage(db, owner, 0, secret, newVersion);
      StageKeeps(db, owner, 0, secret, newVersion);
      PublishKeepsCredentials(staged, owner, auth, previous, newVersion);
      PublishFrame(staged, owner, auth, previous, newVersion);
      IdleOwnerFrame(db, WithAuth(c.db, owner, auth), owner);
    }
  }

  lemma UnknownIsIdle(db: Db, owner: Owner)
    requires ExecutionsOk(db) && owner !in db.owners
    ensures Idle(db, owner)
  {
    forall id | id in db.executions && db.executions[id].activeAccount.Some?
      ensures Account(db.executions[id].account) != owner
    {
      assert Held(db, db.executions[id]);
    }
  }

  lemma CreateOwnerKeeps(db: Db, owner: Owner, auth: AuthType, secret: Material, newVersion: nat)
    requires VaultOk(db)
    ensures VaultOk(CreateOwner(db, owner, auth, secret, newVersion).db)
  {
    var after := CreateOwner(db, owner, auth, secret, newVersion);
    if after.reply.Ok? {
      var added := db.(owners := db.owners[owner := OwnerRow(auth, None, 0, 0, false, true, 1, false)]);
      UnknownIsIdle(db, owner);
      IdleOwnerFrame(db, added, owner);
      AddedKeeps(db, added, owner);
      PersistKeeps(added, owner, auth, secret, 0, newVersion);
      PersistKeepsAuth(added, owner, auth, secret, 0, newVersion);
    }
  }

  lemma AddedKeeps(db: Db, added: Db, owner: Owner)
    requires CredentialsOk(db) && owner !in db.owners && owner.id > 0
    requires exists auth :: added == db.(owners := db.owners[owner := OwnerRow(auth, None, 0, 0, false, true, 1, false)])
    ensures ActiveIsReferenced(added) && OwnersWellFormed(added) && IdsNonzero(added) && OthersActive(added, owner)
  {
  }

  /** When the request's type is the stored one, the save that follows changes nothing. */
  lemma PersistKeepsAuth(db: Db, owner: Owner, auth: AuthType, secret: Material, previous: nat, newVersion: nat)
    requires owner in db.owners && db.owners[owner].auth == auth && 0 !in db.versions
    ensures var c := Persist(db, owner, auth, secret, previous, newVersion);
      c.reply.Ok? ==> owner in c.db.owners && WithAuth(c.db, owner, auth) == c.db
  {
    var staged := Stage(db, owner, 0, secret, newVersion);
    if newVersion != 0 {
      PublishIsCompareAndSwap(staged, owner, auth, previous, newVersion);
      var c := Persist(db, owner, auth, secret, previous, newVersion);
      if c.reply.Ok? {
        assert c.db.owners[owner].auth == auth;
        assert c.db.owners == c.db.owners[owner := c.db.owners[owner].(auth := auth)];
      }
    }
  }

  lemma {:induction false} UpdateCredentialKeeps(db: Db, owner: Owner, edit: Edit, newVersion: nat)
    requires VaultOk(db)
    ensures VaultOk(UpdateCredential(db, owner, edit, newVersion).db)
  {
    if edit.secret.Some? && UpdateCredential(db, owner, edit, newVersion).reply.Ok? {
      UnmanagedOrFreeIsIdle(db, owner);
      PersistKeeps(db, owner, EditedAuth(db.owners[owner], edit), edit.secret.value, db.owners[owner].reference, newVersion);
    }
  }

  lemma UnmanagedOrFreeIsIdle(db: Db, owner: Owner)
    requires ExecutionsOk(db) && owner in db.owners
    requires !owner.Account? || !db.owners[owner].managed || !HasActiveExecution(db, owner.id)
    ensures Idle(db, owner)
  {
    forall id | id in db.executions && db.executions[id].activeAccount.Some?
      ensures Account(db.executions[id].account) != owner
    {
      assert Held(db, db.executions[id]) && RowConsistent(db.executions[id]);
    }
  }

  lemma AdoptKeeps(db: Db, account: nat, newVersion: nat)
    requires VaultOk(db)
    ensures VaultOk(Adopt(db, account, newVersion).db)
  {
    var owner := Account(account);
    if Adopt(db, account, newVersion).reply.Ok? {
      UnmanagedOrFreeIsIdle(db, owner);
      if db.owners[owner].reference == 0 {
        MigrateKeeps(db, owner, Resolve(db, owner).value, newVersion);
      } else {
        EnableKeeps(db, owner);
      }
    }
  }

  /** The first version an adopted account gets out of its legacy columns. */
  lemma MigrateKeeps(db: Db, owner: Owner, secret: Material, newVersion: nat)
    requires VaultOk(db) && owner in db.owners && owner.Account? && Idle(db, owner)
    ensures var c := Persist(db, owner, db.owners[owner].auth, secret, 0, newVersion);
      c.reply.Ok? ==> VaultOk(UnderManagement(c.db, owner))
  {
    var auth := db.owners[owner].auth;
    var c := Persist(db, owner, auth, secret, 0, newVersion);
    PersistKeeps(db, owner, auth, secret, 0, newVersion);
    PersistKeepsAuth(db, owner, auth, secret, 0, newVersion);
    PersistEffect(db, owner, auth, secret, 0, newVersion);
    if c.reply.Ok? {
      assert VaultOk(c.db);
      EnableKeeps(c.db, owner);
    }
  }

  lemma PersistEffect(db: Db, owner: Owner, auth: AuthType, secret: Material, previous: nat, newVersion: nat)
    requires 0 !in db.versions
    ensures var c := Persist(db, owner, auth, secret, previous, newVersion);
      c.reply.Ok? ==> c.db.executions == db.executions && owner in c.db.owners && c.db.owners[owner].reference == newVersion && newVersion != 0
  {
    if newVersion != 0 {
      PublishIsCompareAndSwap(Stage(db, owner, 0, secret, newVersion), owner, auth, previous, newVersion);
    }
  }

  lemma EnableKeeps(db: Db, owner: Owner)
    requires VaultOk(db) && owner in db.owners && owner.Account? && db.owners[owner].reference != 0 && Idle(db, owner)
    ensures VaultOk(UnderManagement(db, owner))
  {
    IdleOwnerFrame(db, UnderManagement(db, owner), owner);
  }

  lemma RemoveManagementKeeps(db: Db, account: nat, revision: nat)
    requires VaultOk(db)
    ensures VaultOk(RemoveManagement(db, account, revision).db)
  {
    var after := RemoveManagement(db, account, revision);
    if after.reply.Ok? {
      UnmanagedOrFreeIsIdle(db, Account(account));
      IdleOwnerFrame(db, after.db, Account(account));
    }
  }

  lemma SetEnabledKeeps(db: Db, account: nat, revision: nat, enabled: bool, assetPresent: bool)
    requires VaultOk(db)
    ensures VaultOk(SetEnabled(db, account, revision, enabled, assetPresent).db)
  {
    var after := SetEnabled(db, account, revision, enabled, assetPresent).db;
    forall id | id in after.executions && after.executions[id].activeAccount.Some?
      ensures Held(after, after.executions[id])
    {
      assert Held(db, db.executions[id]);
    }
  }

  /** One execution row, its audit and nothing else in those two tables. */
  ghost predicate RowReplaced(db: Db, after: Db, id: nat) {
    && id in db.executions && id in after.executions && id in after.audits
    && after.executions == db.executions[id := after.executions[id]]
    && after.audits == db.audits[id := after.audits[id]]
    && var a, b := db.executions[id], after.executions[id];
       && a.account == b.account && a.creator == b.creator && a.key == b.key
       && (b.activeAccount.Some? ==> a.activeAccount.Some?)
       && RowConsistent(b)
       && AuditMatches(b, after.audits[id])
  }

  lemma ReplaceKeeps(db: Db, after: Db, id: nat)
    requires ExecutionsOk(db) && RowReplaced(db, after, id)
    requires ActiveRowsHeld(after)
    ensures ExecutionsOk(after)
  {
    assert KeysUnique(after);
    assert OneActivePerAccount(after) by {
      assert RowConsistent(db.executions[id]);
      assert after.executions[id].activeAccount.Some? ==> after.executions[id].activeAccount == db.executions[id].activeAccount;
    }
  }

  /** Rows stay held while owners and the versions they name are untouched. */
  lemma HeldFrame(db: Db, after: Db, row: Execution)
    requires Held(db, row)
    requires Account(row.account) in after.owners
    requires after.owners[Account(row.account)] == db.owners[Account(row.account)]
    requires row.candidate in after.versions && after.versions[row.candidate] == db.versions[row.candidate]
    ensures Held(after, row)
  {
  }

  lemma {:induction false} PrepareKeeps(db: Db, input: PrepareInput, candidate: Material, newId: nat, newVersion: nat)
    requires VaultOk(db)
    ensures VaultOk(Prepare(db, input, candidate, newId, newVersion).db)
  {
    hide CredentialsOk, KeysUnique, OneActivePerAccount, RowsConsistent, Audited, ActiveRowsHeld, Prepare;
    PrepareKeepsCredentials(db, input, candidate, newId, newVersion);
    PrepareKeepsRows(db, input, candidate, newId, newVersion);
    PrepareKeepsHeld(db, input, candidate, newId, newVersion);
    PrepareKeepsKeys(db, input, candidate, newId, newVersion);
  }

  lemma PrepareKeepsRows(db: Db, input: PrepareInput, candidate: Material, newId: nat, newVersion: nat)
    requires RowsConsistent(db) && Audited(db)
    ensures var after := Prepare(db, input, candidate, newId, newVersion).db; RowsConsistent(after) && Audited(after)
  {
  }

  lemma PrepareKeepsHeld(db: Db, input: PrepareInput, candidate: Material, newId: nat, newVersion: nat)
    requires CredentialsOk(db) && ActiveRowsHeld(db) && OneActivePerAccount(db)
    ensures var after := Prepare(db, input, candidate, newId, newVersion).db; ActiveRowsHeld(after) && OneActivePerAccount(after)
  {
    var after := Prepare(db, input, candidate, newId, newVersion).db;
    if after != db {
      forall id | id in after.executions && after.executions[id].activeAccount.Some?
        ensures Held(after, after.executions[id])
      {
        if id != newId { HeldFrame(db, after, db.executions[id]); }
      }
      assert !HasActiveExecution(db, input.account);
    }
  }

  lemma PrepareKeepsKeys(db: Db, input: PrepareInput, candidate: Material, newId: nat, newVersion: nat)
    requires KeysUnique(db)
    ensures KeysUnique(Prepare(db, input, candidate, newId, newVersion).db)
  {
    if Prepare(db, input, candidate, newId, newVersion).db != db {
      assert !KeyTaken(db, input);
      forall id | id in db.executions ensures !SameKey(db.executions[id], input) {}
    }
  }

  lemma PrepareKeepsCredentials(db: Db, input: PrepareInput, candidate: Material, newId: nat, newVersion: nat)
    requires CredentialsOk(db)
    ensures CredentialsOk(Prepare(db, input, candidate, newId, newVersion).db)
  {
  }

  /** A step inside the execution: credentials and every row but one untouched. */
  lemma SaveKeeps(db: Db, after: Db, id: nat)
    requires VaultOk(db) && RowReplaced(db, after, id)
    requires after.owners == db.owners && after.versions == db.versions
    requires db.executions[id].previous == after.executions[id].previous && db.executions[id].candidate == after.executions[id].candidate
    ensures VaultOk(after)
  {
    forall i | i in after.executions && after.executions[i].activeAccount.Some?
      ensures Held(after, after.executions[i])
    {
      assert Held(db, db.executions[i]);
    }
    ReplaceKeeps(db, after, id);
  }

  lemma ClaimKeeps(db: Db, id: nat, owner: nat, reconcile: bool)
    requires VaultOk(db)
    ensures VaultOk(Claim(db, id, owner, reconcile).db)
  {
    var c := Claim(db, id, owner, reconcile);
    if c.reply.Ok? { SaveKeeps(db, c.db, id); }
  }

  lemma BeforeChangeKeeps(db: Db, id: nat, owner: nat)
    requires VaultOk(db)
    ensures VaultOk(BeforeChange(db, id, owner).db)
  {
    var c := BeforeChange(db, id, owner);
    if c.reply.Ok? { SaveKeeps(db, c.db, id); }
  }

  lemma ChangeResultKeeps(db: Db, id: nat, owner: nat, changed: bool)
    requires VaultOk(db)
    ensures VaultOk(ChangeResult(db, id, owner, changed).db)
  {
    var c := ChangeResult(db, id, owner, changed);
    if c.reply.Ok? { SaveKeeps(db, c.db, id); }
  }

  lemma CandidateResultKeeps(db: Db, id: nat, owner: nat, verified: bool)
    requires VaultOk(db)
    ensures VaultOk(CandidateResult(db, id, owner, verified).db)
  {
    var c := CandidateResult(db, id, owner, verified);
    if c.reply.Ok? { SaveKeeps(db, c.db, id); }
  }

  lemma FinishUnchangedKeeps(db: Db, id: nat, owner: nat, code: string, sent: bool)
    requires VaultOk(db)
    ensures VaultOk(FinishUnchanged(db, id, owner, code, sent).db)
  {
    var c := FinishUnchanged(db, id, owner, code, sent);
    if c.reply.Ok? { SaveKeeps(db, c.db, id); }
  }

  /** No other active execution works on this row's account. */
  lemma OthersElsewhere(db: Db, id: nat, i: nat)
    requires ExecutionsOk(db) && id in db.executions && i in db.executions && i != id
    requires db.executions[id].activeAccount.Some? && db.executions[i].activeAccount.Some?
    ensures db.executions[i].account != db.executions[id].account
  {
    assert RowConsistent(db.executions[id]) && RowConsistent(db.executions[i]);
  }

  lemma SwapKeepsAuth(db: Db, owner: Owner, previous: nat, candidate: nat)
    requires owner in db.owners && PublishVersion(db, owner, db.owners[owner].auth, previous, candidate).reply.Ok?
    ensures var swap := PublishVersion(db, owner, db.owners[owner].auth, previous, candidate).db;
      owner in swap.owners && WithAuth(swap, owner, db.owners[owner].auth) == swap
  {
    hide Activate;
    var row := db.owners[owner];
    var after := row.(reference := candidate, credentialRevision := row.credentialRevision + 1, legacy := None);
    ActivateLeavesOwners(db.(owners := db.owners[owner := after]), owner, previous, candidate);
    assert db.owners[owner := after][owner := after.(auth := row.auth)] == db.owners[owner := after];
  }

  lemma ActivateLeavesOwners(db: Db, owner: Owner, previous: nat, candidate: nat)
    ensures Activate(db, owner, previous, candidate).db.owners == db.owners
  {
  }

  lemma {:induction false} PublishKeeps(db: Db, id: nat, owner: nat)
    requires VaultOk(db)
    ensures VaultOk(Publish(db, id, owner).db)
  {
    hide PublishVersion;
    var c := Publish(db, id, owner);
    if c.reply.Ok? && db.executions[id].state != Completed {
      var row := db.executions[id];
      var account := Account(row.account);
      var auth := db.owners[account].auth;
      PublishKeepsCredentials(db, account, auth, row.previous, row.candidate);
      PublishFrame(db, account, auth, row.previous, row.candidate);
      var swap := PublishVersion(db, account, auth, row.previous, row.candidate).db;
      SwapKeepsAuth(db, account, row.previous, row.candidate);
      forall i | i in c.db.executions && c.db.executions[i].activeAccount.Some?
        ensures Held(c.db, c.db.executions[i])
      {
        OthersElsewhere(db, id, i);
        HeldFrame(db, c.db, db.executions[i]);
      }
      ReplaceKeeps(db, c.db, id);
    }
  }

  lemma {:induction false} PreserveOriginalKeeps(db: Db, id: nat, owner: nat)
    requires VaultOk(db)
    ensures VaultOk(PreserveOriginal(db, id, owner).db)
  {
    var c := PreserveOriginal(db, id, owner);
    if c.reply.Ok? {
      PreserveOriginalHolds(db, id, owner);
      PreserveOriginalReplaces(db, id, owner);
      ReplaceKeeps(db, c.db, id);
    }
  }

  lemma PreserveOriginalReplaces(db: Db, id: nat, owner: nat)
    requires RowsConsistent(db) && Audited(db) && PreserveOriginal(db, id, owner).reply.Ok?
    ensures RowReplaced(db, PreserveOriginal(db, id, owner).db, id)
  {
  }

  lemma PreserveOriginalHolds(db: Db, id: nat, owner: nat)
    requires VaultOk(db) && PreserveOriginal(db, id, owner).reply.Ok?
    ensures ActiveRowsHeld(PreserveOriginal(db, id, owner).db)
  {
    var c := PreserveOriginal(db, id, owner);
    forall i | i in c.db.executions && c.db.executions[i].activeAccount.Some?
      ensures Held(c.db, c.db.executions[i])
    {
      OthersElsewhere(db, id, i);
      HeldFrame(db, c.db, db.executions[i]);
    }
  }
}
