/** The durable execution state machine: one function per transaction of the execution repository. */
module ExecutionSpec {
  import opened Basics
  import opened Tables
  import opened CredentialSpec
  import opened TargetSpec

  const LEASE := 2 * MINUTE

  /** `scoped`: whether the caller stores the scope, as StartPAMPasswordChange does. It digests the binding it loaded,
   whose revision Prepare compares, so what it stores is the scope of the binding in the table. */
  datatype PrepareInput = PrepareInput(
    account: nat, creator: nat, key: nat, intent: nat, action: Action,
    accountRevision: nat, binding: nat, bindingRevision: nat, scoped: bool, previous: nat)

  predicate InputComplete(input: PrepareInput, candidate: Material) {
    && input.account != 0 && input.creator != 0 && input.binding != 0 && input.accountRevision != 0
    && input.bindingRevision != 0 && input.key != 0
    && input.action != OtherAction
    && candidate.Password? && candidate.text != 0
  }

  predicate SameKey(row: Execution, input: PrepareInput) {
    row.creator == input.creator && row.key == input.key
  }

  ghost predicate KeyTaken(db: Db, input: PrepareInput) {
    exists id :: id in db.executions && SameKey(db.executions[id], input)
  }

  ghost function RowOfKey(db: Db, input: PrepareInput): (id: nat)
    requires KeyTaken(db, input)
    ensures id in db.executions && SameKey(db.executions[id], input)
  {
    var id :| id in db.executions && SameKey(db.executions[id], input); id
  }

  /** The binding test shared by Prepare and BeforeChange. */
  function BindingRefusal(db: Db, binding: nat, revision: nat, account: nat): Option<Error> {
    if binding !in db.bindings then Some(NotFound)
    else
      var row := db.bindings[binding];
      if !row.enabled || row.account != account || row.revision != revision then Some(StateChanged)
      else if !AssetLives(db, row.asset) then Some(NotFound)
      else if row.route != db.assets[row.asset].route then Some(BindingChanged)
      else None
  }

  function NewExecution(input: PrepareInput, row: OwnerRow, binding: Binding, candidate: nat): Execution {
    Execution(input.account, Some(input.account), input.creator, input.key, input.intent, input.action,
              row.revision, input.binding, input.bindingRevision, if input.scoped then Some(ScopeOf(binding)) else None,
              row.reference, candidate,
              Prepared, 1, 0, None, "", None, None, None)
  }

  /** Prepare: replay an earlier request with the same key, or record the execution and its staged candidate. */
  ghost function Prepare(db: Db, input: PrepareInput, candidate: Material, freshId: nat, freshVersion: nat): Commit {
    var owner := Account(input.account);
    if !InputComplete(input, candidate) then Rollback(db, StateChanged)
    else if !Exists(db, owner) || !db.owners[owner].managed then Rollback(db, NotFound)
    else if KeyTaken(db, input) then
      var earlier := db.executions[RowOfKey(db, input)];
      if earlier.intent != input.intent || earlier.account != input.account || earlier.action != input.action
      then Rollback(db, StateChanged)
      else Commit(db, Ok(RowOfKey(db, input)))
    else
      var row := db.owners[owner];
      if !row.enabled || row.revision != input.accountRevision || row.reference != input.previous
         || row.reference == 0 || row.auth != PasswordAuth then Rollback(db, StateChanged)
      else if BindingRefusal(db, input.binding, input.bindingRevision, input.account).Some? then
        Rollback(db, BindingRefusal(db, input.binding, input.bindingRevision, input.account).value)
      else if HasActiveExecution(db, input.account) then Rollback(db, StateChanged)
      else if freshId == 0 || freshId in db.executions || freshId in db.audits
              || freshVersion == 0 || freshVersion in db.versions then Rollback(db, StateChanged)
      else
        var staged := Stage(db, owner, freshId, candidate, freshVersion);
        Commit(staged.(executions := db.executions[freshId := NewExecution(input, row, db.bindings[input.binding], freshVersion)],
                       audits := db.audits[freshId := AuditPending]),
               Ok(freshId))
  }

  /** Claim: take an expired or absent lease. A row that may have been sent becomes unknown. */
  function Claim(db: Db, id: nat, owner: nat, reconcile: bool): Commit {
    if id == 0 || owner == 0 then Rollback(db, StateChanged)
    else if id !in db.executions then Rollback(db, NotFound)
    else
      var row := db.executions[id];
      if row.activeAccount.None? || After(row.leaseUntil, db.now) then Rollback(db, StateChanged)
      else if (row.state == Prepared) == reconcile then Rollback(db, StateChanged)
      else if Terminal(row.state) then Rollback(db, StateChanged)
      else
        Commit(db.(executions := db.executions[id := row.(state := if row.state == Prepared then Prepared else Unknown,
                                                          leaseOwner := owner,
                                                          leaseUntil := Some(db.now + LEASE),
                                                          revision := row.revision + 1)]),
               Ok(id))
  }

  /** The lease test inside withLease. */
  predicate HoldsLease(row: Execution, owner: nat, now: int) {
    row.leaseOwner == owner && After(row.leaseUntil, now) && row.activeAccount.Some?
  }

  /** withLease: the account must still be managed and the caller must hold the live lease. */
  function LeaseRefusal(db: Db, id: nat, owner: nat): Option<Error> {
    if owner == 0 then Some(StateChanged)
    else if id !in db.executions then Some(NotFound)
    else
      var row := db.executions[id];
      if !Exists(db, Account(row.account)) || !db.owners[Account(row.account)].managed then Some(NotFound)
      else if !HoldsLease(row, owner, db.now) then Some(StateChanged)
      else None
  }

  function SaveExecution(db: Db, id: nat, row: Execution): Db {
    db.(executions := db.executions[id := row.(revision := row.revision + 1)])
  }

  /** BeforeChange: the durable record that a send may follow. */
  function BeforeChange(db: Db, id: nat, owner: nat): Commit {
    if LeaseRefusal(db, id, owner).Some? then Rollback(db, LeaseRefusal(db, id, owner).value)
    else
      var row := db.executions[id];
      var account := db.owners[Account(row.account)];
      if row.state != Prepared then Rollback(db, StateChanged)
      else if !account.enabled || account.revision != row.accountRevision || account.reference != row.previous then
        Rollback(db, StateChanged)
      else if BindingRefusal(db, row.binding, row.bindingRevision, row.account).Some? then
        Rollback(db, BindingRefusal(db, row.binding, row.bindingRevision, row.account).value)
      else if !Readable(db, Account(row.account), row.candidate, Pending) then Rollback(db, CredentialState)
      else Commit(SaveExecution(db, id, row.(state := Changing, sendStartedAt := Some(db.now))), Ok(id))
  }

  function ChangeResult(db: Db, id: nat, owner: nat, changed: bool): Commit {
    if LeaseRefusal(db, id, owner).Some? then Rollback(db, LeaseRefusal(db, id, owner).value)
    else
      var row := db.executions[id];
      if row.state != Changing then Rollback(db, StateChanged)
      else
        var recorded := if changed then row.(state := Verifying, errorCode := "")
                        else row.(state := Unknown, errorCode := "result_unknown");
        Commit(SaveExecution(db, id, recorded), Ok(id))
  }

  function CandidateResult(db: Db, id: nat, owner: nat, verified: bool): Commit {
    if LeaseRefusal(db, id, owner).Some? then Rollback(db, LeaseRefusal(db, id, owner).value)
    else
      var row := db.executions[id];
      if row.state != Verifying && row.state != Unknown then Rollback(db, StateChanged)
      else
        var recorded := if verified then row.(state := Verified, verifiedAt := Some(db.now), errorCode := "")
                        else row.(state := Unknown, errorCode := "candidate_not_verified");
        Commit(SaveExecution(db, id, recorded), Ok(id))
  }

  /** Close a row with its final state and release its lease and the account's active slot. */
  function Closed(row: Execution, state: ExecutionState, code: string, now: int): Execution {
    row.(state := state, errorCode := code, finishedAt := Some(now),
         activeAccount := None, leaseOwner := 0, leaseUntil := None)
  }

  /** Publish: success at once on a completed row; otherwise swap the versions and complete. */
  function Publish(db: Db, id: nat, owner: nat): Commit {
    if id !in db.executions then Rollback(db, NotFound)
    else if db.executions[id].state == Completed then Commit(db, Ok(id))
    else if LeaseRefusal(db, id, owner).Some? then Rollback(db, LeaseRefusal(db, id, owner).value)
    else
      var row := db.executions[id];
      var account := Account(row.account);
      if row.state != Verified || row.verifiedAt.None? then Rollback(db, StateChanged)
      else
        var swap := PublishVersion(db, account, db.owners[account].auth, row.previous, row.candidate);
        if swap.reply.Refused? then Rollback(db, swap.reply.error)
        else if id !in db.audits then Rollback(db, StateChanged)
        else
          Commit(SaveExecution(swap.db, id, Closed(row, Completed, "", db.now))
                 .(audits := db.audits[id := AuditSucceeded(row.candidate)]), Ok(id))
  }

  /** finishUnchanged, behind FinishUnsent (sent false) and RejectChange (sent true). */
  function FinishUnchanged(db: Db, id: nat, owner: nat, code: string, sent: bool): Commit {
    if code == "" || |code| > 64 then Rollback(db, StateChanged)
    else if LeaseRefusal(db, id, owner).Some? then Rollback(db, LeaseRefusal(db, id, owner).value)
    else
      var row := db.executions[id];
      if row.state != Prepared && row.state != Changing then Rollback(db, StateChanged)
      else if sent && row.state != Changing then Rollback(db, StateChanged)
      else if id !in db.audits then Rollback(db, StateChanged)
      else
        Commit(SaveExecution(db, id, Closed(row, Failed, code, db.now)).(audits := db.audits[id := AuditFailed(code)]), Ok(id))
  }

  /** PreserveOriginal: retain the candidate and keep the previous version active. */
  function PreserveOriginal(db: Db, id: nat, owner: nat): Commit {
    if LeaseRefusal(db, id, owner).Some? then Rollback(db, LeaseRefusal(db, id, owner).value)
    else
      var row := db.executions[id];
      var account := Account(row.account);
      if row.state != Unknown then Rollback(db, StateChanged)
      else if db.owners[account].reference != row.previous then Rollback(db, StateChanged)
      else if !Readable(db, account, row.candidate, Pending) then Rollback(db, StateChanged)
      else if id !in db.audits then Rollback(db, StateChanged)
      else
        Commit(SaveExecution(SetVersionState(db, row.candidate, Retained), id, Closed(row, Failed, "original_verified", db.now))
               .(audits := db.audits[id := AuditFailed("original_verified")]), Ok(id))
  }
}
