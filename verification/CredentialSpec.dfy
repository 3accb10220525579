/** Credential versions: staging, the compare-and-swap that publishes one, and the writers outside an execution. */
module CredentialSpec {
  import opened Basics
  import opened Tables

  function Rank(s: VersionState): nat {
    match s case Pending => 0 case Active => 1 case Retained => 2
  }

  /** A version keeps its owner, secret and origin; its state moves pending -> active -> retained, or skips active. */
  predicate VersionLater(a: Version, b: Version) {
    b == a.(state := b.state) && Rank(a.state) <= Rank(b.state)
  }

  ghost predicate VersionsLater(before: Db, after: Db) {
    forall v :: v in before.versions ==> v in after.versions && VersionLater(before.versions[v], after.versions[v])
  }

  /** What no credential writer touches. */
  ghost predicate LeavesExecutions(before: Db, after: Db) {
    after.executions == before.executions && after.audits == before.audits && after.now == before.now
  }

  function Stage(db: Db, owner: Owner, operation: nat, secret: Material, newVersion: nat): Db {
    db.(versions := db.versions[newVersion := Version(owner, secret, Pending, operation)])
  }

  /** The read used by ReadActive and ReadCandidate: the version must be in the wanted state for this owner. */
  predicate Readable(db: Db, owner: Owner, version: nat, state: VersionState) {
    && owner.id > 0
    && version != 0
    && version in db.versions
    && db.versions[version].owner == owner
    && db.versions[version].state == state
  }

  function SetVersionState(db: Db, version: nat, state: VersionState): Db
    requires version in db.versions
  {
    db.(versions := db.versions[version := db.versions[version].(state := state)])
  }

  /** Activate: candidate pending -> active and previous active -> retained, or nothing at all. */
  function Activate(db: Db, owner: Owner, previous: nat, candidate: nat): (c: Commit)
    ensures LeavesExecutions(db, c.db) && VersionsLater(db, c.db)
  {
    if candidate == 0 || previous == candidate || owner.id == 0 then Rollback(db, CredentialState)
    else if !Readable(db, owner, candidate, Pending) then Rollback(db, CredentialState)
    else
      var activated := SetVersionState(db, candidate, Active);
      if previous == 0 then Commit(activated, Ok(candidate))
      else if !Readable(activated, owner, previous, Active) then Rollback(db, CredentialState)
      else Commit(SetVersionState(activated, previous, Retained), Ok(candidate))
  }

  /** Publish: swap the owner's reference only if it still is `previous`. */
  function PublishVersion(db: Db, owner: Owner, auth: AuthType, previous: nat, candidate: nat): (c: Commit)
    ensures LeavesExecutions(db, c.db) && VersionsLater(db, c.db)
  {
    if owner.id == 0 then Rollback(db, CredentialState)
    else if !Readable(db, owner, candidate, Pending) || !KindMatches(auth, db.versions[candidate].secret) then
      Rollback(db, CredentialState)
    else if !Exists(db, owner) || db.owners[owner].reference != previous then Rollback(db, CredentialState)
    else
      var row := db.owners[owner];
      var swapped := db.(owners := db.owners[owner := row.(reference := candidate,
                                                           credentialRevision := row.credentialRevision + 1,
                                                           legacy := None)]);
      var commit := Activate(swapped, owner, previous, candidate);
      if commit.reply.Ok? then commit else Rollback(db, CredentialState)
  }

  /** The versions after a swap: candidate active, previous retained, every other one as it was. */
  function Swapped(versions: map<nat, Version>, previous: nat, candidate: nat): map<nat, Version> {
    map v | v in versions ::
      if v == candidate then versions[v].(state := Active)
      else if v == previous then versions[v].(state := Retained)
      else versions[v]
  }

  /** The compare-and-swap: Publish succeeds exactly when the reference is the one compared with, both versions
   are this owner's in the expected states and the kind fits; then it changes those three things and no other. */
  lemma PublishIsCompareAndSwap(db: Db, owner: Owner, auth: AuthType, previous: nat, candidate: nat)
    requires 0 !in db.versions
    ensures var c := PublishVersion(db, owner, auth, previous, candidate);
      && (c.reply.Ok? <==>
           && Exists(db, owner) && db.owners[owner].reference == previous
           && Readable(db, owner, candidate, Pending) && KindMatches(auth, db.versions[candidate].secret)
           && (previous != 0 ==> Readable(db, owner, previous, Active)))
      && (c.reply.Refused? ==> c.db == db)
      && (c.reply.Ok? ==>
           && c.db == db.(owners := c.db.owners, versions := Swapped(db.versions, previous, candidate))
           && c.db.owners == db.owners[owner := db.owners[owner].(reference := candidate,
                credentialRevision := db.owners[owner].credentialRevision + 1, legacy := None)])
  {
    SwapsIf(db, owner, auth, previous, candidate);
    hide PublishVersion;
    if PublishVersion(db, owner, auth, previous, candidate).reply.Ok? { SwapEffect(db, owner, auth, previous, candidate); }
  }

  lemma SwapsIf(db: Db, owner: Owner, auth: AuthType, previous: nat, candidate: nat)
    requires 0 !in db.versions
    ensures var c := PublishVersion(db, owner, auth, previous, candidate);
      && (c.reply.Ok? <==>
           && Exists(db, owner) && db.owners[owner].reference == previous
           && Readable(db, owner, candidate, Pending) && KindMatches(auth, db.versions[candidate].secret)
           && (previous != 0 ==> Readable(db, owner, previous, Active)))
      && (c.reply.Refused? ==> c.db == db)
  {
  }

  lemma SwapEffect(db: Db, owner: Owner, auth: AuthType, previous: nat, candidate: nat)
    requires 0 !in db.versions && PublishVersion(db, owner, auth, previous, candidate).reply.Ok?
    ensures var after := PublishVersion(db, owner, auth, previous, candidate).db;
      && owner in db.owners
      && after == db.(owners := after.owners, versions := Swapped(db.versions, previous, candidate))
      && after.owners == db.owners[owner := db.owners[owner].(reference := candidate,
           credentialRevision := db.owners[owner].credentialRevision + 1, legacy := None)]
  {
    hide Activate, Readable, KindMatches;
    var swapped := db.(owners := db.owners[owner := db.owners[owner].(reference := candidate,
                                                                      credentialRevision := db.owners[owner].credentialRevision + 1,
                                                                      legacy := None)]);
    ActivateEffect(swapped, owner, previous, candidate);
  }

  lemma ActivateEffect(db: Db, owner: Owner, previous: nat, candidate: nat)
    requires 0 !in db.versions
    ensures var c := Activate(db, owner, previous, candidate);
      c.reply.Ok? ==> c.db == db.(versions := Swapped(db.versions, previous, candidate))
  {
    var c := Activate(db, owner, previous, candidate);
    if c.reply.Ok? { assert c.db.versions == Swapped(db.versions, previous, candidate); }
  }

  /** ResolveInTransaction: the active version, or the legacy columns of an owner without one. */
  function Resolve(db: Db, owner: Owner): Option<Material> {
    if owner !in db.owners || owner.id == 0 then None
    else
      var row := db.owners[owner];
      if row.reference != 0 then
        if Readable(db, owner, row.reference, Active) && KindMatches(row.auth, db.versions[row.reference].secret)
        then Some(db.versions[row.reference].secret) else None
      else if row.legacy.Some? && KindMatches(row.auth, row.legacy.value) then row.legacy
      else None
  }

  /** persistCredential: stage and publish in one transaction, for the owner as the request describes it. */
  function Persist(db: Db, owner: Owner, auth: AuthType, secret: Material, previous: nat, newVersion: nat): (c: Commit)
    ensures LeavesExecutions(db, c.db) && VersionsLater(db, c.db)
  {
    if !KindMatches(auth, secret) then Rollback(db, CredentialInput)
    else if newVersion == 0 || newVersion in db.versions then Rollback(db, CredentialState)
    else
      var commit := PublishVersion(Stage(db, owner, 0, secret, newVersion), owner, auth, previous, newVersion);
      if commit.reply.Ok? then commit else Rollback(db, commit.reply.error)
  }

  /** doCreate followed by CreateStoredCredential: a new unmanaged row and its first version. */
  function CreateOwner(db: Db, owner: Owner, auth: AuthType, secret: Material, newVersion: nat): (c: Commit)
    ensures LeavesExecutions(db, c.db) && VersionsLater(db, c.db)
  {
    if owner.id == 0 || owner in db.owners then Rollback(db, StateChanged)
    else
      var row := OwnerRow(auth, None, 0, 0, false, true, 1, false);
      var commit := Persist(db.(owners := db.owners[owner := row]), owner, auth, secret, 0, newVersion);
      if commit.reply.Ok? then commit else Rollback(db, commit.reply.error)
  }

  /** The fields of an edit request: which are present, and the type they ask for. */
  datatype Edit = Edit(renames: bool, auth: Option<AuthType>, secret: Option<Material>)

  function EditedAuth(row: OwnerRow, edit: Edit): AuthType {
    if edit.auth.Some? then edit.auth.value else row.auth
  }

  /** UpdateStoredCredential and the save of account_type that follows it in the same transaction. */
  function UpdateCredential(db: Db, owner: Owner, edit: Edit, newVersion: nat): (c: Commit)
    ensures LeavesExecutions(db, c.db) && VersionsLater(db, c.db)
  {
    if !Exists(db, owner) then Rollback(db, NotFound)
    else
      var row := db.owners[owner];
      var auth := EditedAuth(row, edit);
      if owner.Account? && row.managed && (edit.renames || auth != row.auth) then Rollback(db, CredentialInput)
      else if edit.secret.None? then
        if auth != row.auth then Rollback(db, CredentialInput) else Commit(db, Ok(row.reference))
      else if owner.Account? && row.managed && HasActiveExecution(db, owner.id) then Rollback(db, CredentialInput)
      else
        var commit := Persist(db, owner, auth, edit.secret.value, row.reference, newVersion);
        if commit.reply.Refused? then Rollback(db, commit.reply.error)
        else Commit(commit.db.(owners := commit.db.owners[owner := commit.db.owners[owner].(auth := auth)]), commit.reply)
  }

  /** Adopt: enable password management, moving legacy storage into a first version when there is none. */
  function Adopt(db: Db, account: nat, newVersion: nat): (c: Commit)
    ensures LeavesExecutions(db, c.db) && VersionsLater(db, c.db)
  {
    var owner := Account(account);
    if account == 0 || !Exists(db, owner) then Rollback(db, NotFound)
    else if db.owners[owner].managed then Rollback(db, RevisionChanged)
    else
      var row := db.owners[owner];
      var stored :=
        if row.reference != 0 then Commit(db, Ok(row.reference))
        else if Resolve(db, owner).None? then Rollback(db, CredentialState)
        else Persist(db, owner, row.auth, Resolve(db, owner).value, 0, newVersion);
      if stored.reply.Refused? then Rollback(db, stored.reply.error)
      else Commit(UnderManagement(stored.db, owner), stored.reply)
  }

  function UnderManagement(db: Db, owner: Owner): Db {
    if owner !in db.owners then db
    else
      var row := db.owners[owner];
      db.(owners := db.owners[owner := row.(managed := true, enabled := true, revision := row.revision + 1)])
  }

  /** RemoveManagement: refused while an execution is active. Its effect on requests is in the Requests module. */
  function RemoveManagement(db: Db, account: nat, revision: nat): (c: Commit)
    ensures LeavesExecutions(db, c.db) && VersionsLater(db, c.db)
  {
    var owner := Account(account);
    if revision == 0 || !Exists(db, owner) || !db.owners[owner].managed then Rollback(db, NotFound)
    else if db.owners[owner].revision != revision then Rollback(db, RevisionChanged)
    else if HasActiveExecution(db, account) then Rollback(db, StateChanged)
    else
      var row := db.owners[owner];
      var kept := map b | b in db.bindings && db.bindings[b].account != account :: db.bindings[b];
      Commit(db.(owners := db.owners[owner := row.(managed := false, enabled := true, revision := row.revision + 1)],
                 bindings := kept),
             Ok(account))
  }

  /** SetEnabled. `assetPresent` is the check that the authority asset still exists. */
  function SetEnabled(db: Db, account: nat, revision: nat, enabled: bool, assetPresent: bool): (c: Commit)
    ensures LeavesExecutions(db, c.db) && VersionsLater(db, c.db)
  {
    var owner := Account(account);
    if revision == 0 || !Exists(db, owner) || !db.owners[owner].managed then Rollback(db, NotFound)
    else if db.owners[owner].revision != revision then Rollback(db, RevisionChanged)
    else if db.owners[owner].enabled == enabled then Commit(db, Ok(account))
    else if enabled && !assetPresent then Rollback(db, CredentialInput)
    else
      var row := db.owners[owner];
      Commit(db.(owners := db.owners[owner := row.(enabled := enabled, revision := row.revision + 1)]), Ok(account))
  }
}
