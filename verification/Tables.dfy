/** The rows the password-change protocol works on, and the store as one value.
 Identifiers are natural numbers; 0 is the empty string of the original columns. */
module Tables {
  import opened Basics

  /** A secret is opaque apart from its kind and whether it is empty (text 0). */
  datatype Material = Password(text: nat) | PrivateKey(text: nat)

  datatype AuthType = PasswordAuth | PublicKeyAuth | OtherAuth

  /** credentialTypeMatches */
  predicate KindMatches(auth: AuthType, secret: Material) {
    || (auth == PasswordAuth && secret.Password?)
    || (auth == PublicKeyAuth && secret.PrivateKey?)
  }

  datatype Owner = Account(id: nat) | Gateway(id: nat)

  datatype VersionState = Pending | Active | Retained

  datatype Version = Version(owner: Owner, secret: Material, state: VersionState, operation: nat)

  /** An account or gateway row. `legacy` is what its pre-migration columns decode to, if anything. Deleting an owner marks
   its row, and no query finds it any more. */
  datatype OwnerRow = OwnerRow(
    auth: AuthType,
    legacy: Option<Material>,
    reference: nat,
    credentialRevision: nat,
    managed: bool,
    enabled: bool,
    revision: nat,
    deleted: bool)

  /** Where an asset is reached: the columns BindingMatchesAsset compares. */
  datatype Route = Route(host: nat, gateway: nat, protocols: nat)

  /** Deleting an asset marks its row. */
  datatype Asset = Asset(route: Route, deleted: bool)

  /** `config` is the password configuration without its executor account; 0 is none. */
  datatype Binding = Binding(account: nat, asset: nat, route: Route, config: nat, enabled: bool, revision: nat)

  /** What scopeHash digests. The account's native key is fixed while it is managed and left out. */
  datatype Scope = Scope(asset: nat, host: nat, gateway: nat, config: nat)

  datatype ExecutionState = Prepared | Changing | Verifying | Unknown | Verified | Completed | Failed

  predicate Terminal(s: ExecutionState) {
    s == Completed || s == Failed
  }

  datatype Action = RotateSecret | RecoverSecret | OtherAction

  datatype Execution = Execution(
    account: nat,
    activeAccount: Option<nat>,
    creator: nat,
    key: nat,
    intent: nat,
    action: Action,
    accountRevision: nat,
    binding: nat,
    bindingRevision: nat,
    scope: Option<Scope>,
    previous: nat,
    candidate: nat,
    state: ExecutionState,
    revision: nat,
    leaseOwner: nat,
    leaseUntil: Option<int>,
    errorCode: string,
    sendStartedAt: Option<int>,
    verifiedAt: Option<int>,
    finishedAt: Option<int>)

  datatype Audit = AuditPending | AuditSucceeded(version: nat) | AuditFailed(code: string)

  datatype Db = Db(
    owners: map<Owner, OwnerRow>,
    versions: map<nat, Version>,
    bindings: map<nat, Binding>,
    assets: map<nat, Asset>,
    executions: map<nat, Execution>,
    audits: map<nat, Audit>,
    now: int)

  /** What First finds. */
  predicate Exists(db: Db, owner: Owner) {
    owner in db.owners && !db.owners[owner].deleted
  }

  datatype Error = StateChanged | NotFound | BindingChanged | CredentialState | CredentialInput | RevisionChanged

  datatype Reply = Ok(id: nat) | Refused(error: Error)

  /** What one transaction leaves behind. A refused transaction is rolled back. */
  datatype Commit = Commit(db: Db, reply: Reply)

  function Rollback(db: Db, error: Error): Commit {
    Commit(db, Refused(error))
  }

  /** The row count test on pam_execution.active_account_id. */
  predicate HasActiveExecution(db: Db, account: nat) {
    exists id | id in db.executions :: db.executions[id].activeAccount == Some(account)
  }
}
