/** The store as the backend has it: mutable tables, one method per transaction, each proved to be the transaction
 the specification describes. A refused transaction leaves every table as it was. */
module ExecutionRepository {
  import opened Basics
  import opened Tables
  import C = CredentialSpec
  import E = ExecutionSpec
  import V = VaultInvariant
  import R = VaultRuns
  import T = TargetSpec

  /** The unique index on creator and key: whichever row a lookup finds is the row. */
  lemma KeyIdentifiesRow(db: Db, input: E.PrepareInput, id: nat)
    requires V.VaultOk(db) && id in db.executions && E.SameKey(db.executions[id], input)
    ensures E.RowOfKey(db, input) == id
  {
    assert V.KeysUnique(db);
  }

  class PamStore {
    var owners: map<Owner, OwnerRow>
    var versions: map<nat, Version>
    var bindings: map<nat, Binding>
    var assets: map<nat, Asset>
    var executions: map<nat, Execution>
    var audits: map<nat, Audit>
    var now: int

    ghost function Contents(): Db
      reads this
    {
      Db(owners, versions, bindings, assets, executions, audits, now)
    }

    ghost predicate Valid()
      reads this
    {
      V.VaultOk(Contents())
    }

    constructor ()
      ensures Valid() && Contents() == Db(map[], map[], map[], map[], map[], map[], 0)
    {
      owners, versions, bindings, assets, executions, audits, now := map[], map[], map[], map[], map[], map[], 0;
    }

    /** First finds no row. */
    predicate Missing(owner: Owner)
      reads this
    {
      owner !in owners || owners[owner].deleted
    }

    method Prepare(input: E.PrepareInput, candidate: Material, newId: nat, newVersion: nat) returns (reply: Reply)
      requires Valid()
      modifies this
      ensures Commit(Contents(), reply) == E.Prepare(old(Contents()), input, candidate, newId, newVersion)
      ensures Valid()
    {
      hide V.VaultOk;
      V.PrepareKeeps(Contents(), input, candidate, newId, newVersion);
      var owner := Account(input.account);
      if !E.InputComplete(input, candidate) { return Refused(StateChanged); }
      if Missing(owner) || !owners[owner].managed { return Refused(NotFound); }
      if id :| id in executions && E.SameKey(executions[id], input) {
        KeyIdentifiesRow(Contents(), input, id);
        var previous := executions[id];
        if previous.intent != input.intent || previous.account != input.account || previous.action != input.action {
          return Refused(StateChanged);
        }
        return Ok(id);
      }
      assert !E.KeyTaken(Contents(), input);
      var account := owners[owner];
      if !account.enabled || account.revision != input.accountRevision || account.reference != input.previous
         || account.reference == 0 || account.auth != PasswordAuth {
        return Refused(StateChanged);
      }
      var refusal := CheckBinding(input.binding, input.bindingRevision, input.account);
      if refusal.Some? { return Refused(refusal.value); }
      if newId == 0 || newId in executions || newId in audits || newVersion == 0 || newVersion in versions {
        return Refused(StateChanged);
      }
      if exists id | id in executions :: executions[id].activeAccount == Some(input.account) {
        return Refused(StateChanged);
      }
      Stage(owner, newId, candidate, newVersion);
      executions := executions[newId := E.NewExecution(input, account, bindings[input.binding], newVersion)];
      audits := audits[newId := AuditPending];
      reply := Ok(newId);
    }

    method CheckBinding(binding: nat, revision: nat, account: nat) returns (refusal: Option<Error>)
      ensures refusal == E.BindingRefusal(Contents(), binding, revision, account)
    {
      if binding !in bindings { return Some(NotFound); }
      var row := bindings[binding];
      if !row.enabled || row.account != account || row.revision != revision { return Some(StateChanged); }
      if row.asset !in assets || assets[row.asset].deleted { return Some(NotFound); }
      if row.route != assets[row.asset].route { return Some(BindingChanged); }
      refusal := None;
    }

    method Stage(owner: Owner, operation: nat, secret: Material, newVersion: nat)
      modifies this`versions
      ensures Contents() == C.Stage(old(Contents()), owner, operation, secret, newVersion)
    {
      versions := versions[newVersion := Version(owner, secret, Pending, operation)];
    }

    method Claim(id: nat, owner: nat, reconcile: bool) returns (reply: Reply)
      requires Valid()
      modifies this
      ensures Commit(Contents(), reply) == E.Claim(old(Contents()), id, owner, reconcile)
      ensures Valid()
    {
      hide V.VaultOk;
      V.ClaimKeeps(Contents(), id, owner, reconcile);
      if id == 0 || owner == 0 { return Refused(StateChanged); }
      if id !in executions { return Refused(NotFound); }
      var execution := executions[id];
      if execution.activeAccount.None? || After(execution.leaseUntil, now) { return Refused(StateChanged); }
      if (execution.state == Prepared) == reconcile { return Refused(StateChanged); }
      if Terminal(execution.state) { return Refused(StateChanged); }
      if execution.state != Prepared { execution := execution.(state := Unknown); }
      execution := execution.(leaseOwner := owner, leaseUntil := Some(now + E.LEASE), revision := execution.revision + 1);
      executions := executions[id := execution];
      reply := Ok(id);
    }

    /** withLease up to its callback. */
    method CheckLease(id: nat, owner: nat) returns (refusal: Option<Error>)
      ensures refusal == E.LeaseRefusal(Contents(), id, owner)
    {
      if owner == 0 { return Some(StateChanged); }
      if id !in executions { return Some(NotFound); }
      var execution := executions[id];
      if Missing(Account(execution.account)) || !owners[Account(execution.account)].managed { return Some(NotFound); }
      if execution.leaseOwner != owner || !After(execution.leaseUntil, now) || execution.activeAccount.None? {
        return Some(StateChanged);
      }
      refusal := None;
    }

    method BeforeChange(id: nat, owner: nat) returns (reply: Reply)
      requires Valid()
      modifies this
      ensures Commit(Contents(), reply) == E.BeforeChange(old(Contents()), id, owner)
      ensures Valid()
    {
      hide V.VaultOk;
      V.BeforeChangeKeeps(Contents(), id, owner);
      var refusal := CheckLease(id, owner);
      if refusal.Some? { return Refused(refusal.value); }
      var execution := executions[id];
      if execution.state != Prepared { return Refused(StateChanged); }
      var account := owners[Account(execution.account)];
      if !account.enabled || account.revision != execution.accountRevision || account.reference != execution.previous {
        return Refused(StateChanged);
      }
      refusal := CheckBinding(execution.binding, execution.bindingRevision, execution.account);
      if refusal.Some? { return Refused(refusal.value); }
      var readable := ReadCandidate(Account(execution.account), execution.candidate);
      if !readable { return Refused(CredentialState); }
      execution := execution.(state := Changing, sendStartedAt := Some(now), revision := execution.revision + 1);
      executions := executions[id := execution];
      reply := Ok(id);
    }

    method ReadCandidate(owner: Owner, version: nat) returns (readable: bool)
      ensures readable == C.Readable(Contents(), owner, version, Pending)
    {
      if owner.id == 0 || version == 0 || version !in versions { return false; }
      readable := versions[version].owner == owner && versions[version].state == Pending;
    }

    method ChangeResult(id: nat, owner: nat, changed: bool) returns (reply: Reply)
      requires Valid()
      modifies this
      ensures Commit(Contents(), reply) == E.ChangeResult(old(Contents()), id, owner, changed)
      ensures Valid()
    {
      hide V.VaultOk;
      V.ChangeResultKeeps(Contents(), id, owner, changed);
      var refusal := CheckLease(id, owner);
      if refusal.Some? { return Refused(refusal.value); }
      var execution := executions[id];
      if execution.state != Changing { return Refused(StateChanged); }
      execution := execution.(state := Unknown, errorCode := "result_unknown");
      if changed { execution := execution.(state := Verifying, errorCode := ""); }
      execution := execution.(revision := execution.revision + 1);
      executions := executions[id := execution];
      reply := Ok(id);
    }

    method CandidateResult(id: nat, owner: nat, verified: bool) returns (reply: Reply)
      requires Valid()
      modifies this
      ensures Commit(Contents(), reply) == E.CandidateResult(old(Contents()), id, owner, verified)
      ensures Valid()
    {
      hide V.VaultOk;
      V.CandidateResultKeeps(Contents(), id, owner, verified);
      var refusal := CheckLease(id, owner);
      if refusal.Some? { return Refused(refusal.value); }
      var execution := executions[id];
      if execution.state != Verifying && execution.state != Unknown { return Refused(StateChanged); }
      execution := execution.(state := Unknown, errorCode := "candidate_not_verified");
      if verified { execution := execution.(state := Verified, verifiedAt := Some(now), errorCode := ""); }
      execution := execution.(revision := execution.revision + 1);
      executions := executions[id := execution];
      reply := Ok(id);
    }

    /** Activate inside the caller's transaction: on refusal the tables may have changed and the caller rolls back. */
    method Activate(owner: Owner, previous: nat, candidate: nat) returns (done: bool)
      modifies this`versions
      ensures done <==> C.Activate(old(Contents()), owner, previous, candidate).reply.Ok?
      ensures done ==> Contents() == C.Activate(old(Contents()), owner, previous, candidate).db
    {
      if candidate == 0 || previous == candidate || owner.id == 0 { return false; }
      var pending := ReadCandidate(owner, candidate);
      if !pending { return false; }
      versions := versions[candidate := versions[candidate].(state := Active)];
      if previous != 0 {
        if previous !in versions || versions[previous].owner != owner || versions[previous].state != Active { return false; }
        versions := versions[previous := versions[previous].(state := Retained)];
      }
      done := true;
    }

    /** Publish inside the caller's transaction. */
    method PublishVersion(owner: Owner, auth: AuthType, previous: nat, candidate: nat) returns (done: bool)
      modifies this`versions, this`owners
      ensures done <==> C.PublishVersion(old(Contents()), owner, auth, previous, candidate).reply.Ok?
      ensures done ==> owner in owners
      ensures done ==> Contents() == C.PublishVersion(old(Contents()), owner, auth, previous, candidate).db
    {
      hide C.Activate;
      if owner.id == 0 { return false; }
      var pending := ReadCandidate(owner, candidate);
      if !pending || !KindMatches(auth, versions[candidate].secret) { return false; }
      if Missing(owner) || owners[owner].reference != previous { return false; }
      var row := owners[owner];
      owners := owners[owner := row.(reference := candidate, credentialRevision := row.credentialRevision + 1, legacy := None)];
      done := Activate(owner, previous, candidate);
    }

    method Publish(id: nat, owner: nat) returns (reply: Reply)
      requires Valid()
      modifies this
      ensures Commit(Contents(), reply) == E.Publish(old(Contents()), id, owner)
      ensures Valid()
    {
      hide V.VaultOk, C.Activate;
      V.PublishKeeps(Contents(), id, owner);
      if id !in executions { return Refused(NotFound); }
      if executions[id].state == Completed { return Ok(id); }
      var refusal := CheckLease(id, owner);
      if refusal.Some? { return Refused(refusal.value); }
      var execution := executions[id];
      if execution.state != Verified || execution.verifiedAt.None? { return Refused(StateChanged); }
      var account := Account(execution.account);
      var savedOwners, savedVersions, savedExecutions := owners, versions, executions;
      var published := PublishVersion(account, owners[account].auth, execution.previous, execution.candidate);
      if !published {
        owners, versions := savedOwners, savedVersions;
        return Refused(CredentialState);
      }
      execution := execution.(state := Completed, finishedAt := Some(now), errorCode := "");
      execution := execution.(activeAccount := None, leaseOwner := 0, leaseUntil := None);
      execution := execution.(revision := execution.revision + 1);
      executions := executions[id := execution];
      if id !in audits {
        owners, versions, executions := savedOwners, savedVersions, savedExecutions;
        return Refused(StateChanged);
      }
      audits := audits[id := AuditSucceeded(execution.candidate)];
      reply := Ok(id);
    }

    method FinishUnchanged(id: nat, owner: nat, code: string, sent: bool) returns (reply: Reply)
      requires Valid()
      modifies this
      ensures Commit(Contents(), reply) == E.FinishUnchanged(old(Contents()), id, owner, code, sent)
      ensures Valid()
    {
      hide V.VaultOk;
      V.FinishUnchangedKeeps(Contents(), id, owner, code, sent);
      if code == "" || |code| > 64 { return Refused(StateChanged); }
      var refusal := CheckLease(id, owner);
      if refusal.Some? { return Refused(refusal.value); }
      var execution := executions[id];
      if execution.state != Prepared && execution.state != Changing { return Refused(StateChanged); }
      if sent && execution.state != Changing { return Refused(StateChanged); }
      if id !in audits { return Refused(StateChanged); }
      execution := execution.(state := Failed, errorCode := code, finishedAt := Some(now));
      execution := execution.(activeAccount := None, leaseOwner := 0, leaseUntil := None);
      execution := execution.(revision := execution.revision + 1);
      executions := executions[id := execution];
      audits := audits[id := AuditFailed(code)];
      reply := Ok(id);
    }

    method PreserveOriginal(id: nat, owner: nat) returns (reply: Reply)
      requires Valid()
      modifies this
      ensures Commit(Contents(), reply) == E.PreserveOriginal(old(Contents()), id, owner)
      ensures Valid()
    {
      hide V.VaultOk;
      V.PreserveOriginalKeeps(Contents(), id, owner);
      var refusal := CheckLease(id, owner);
      if refusal.Some? { return Refused(refusal.value); }
      var execution := executions[id];
      if execution.state != Unknown { return Refused(StateChanged); }
      var account := Account(execution.account);
      if owners[account].reference != execution.previous { return Refused(StateChanged); }
      var pending := ReadCandidate(account, execution.candidate);
      if !pending || id !in audits { return Refused(StateChanged); }
      versions := versions[execution.candidate := versions[execution.candidate].(state := Retained)];
      execution := execution.(state := Failed, errorCode := "original_verified", finishedAt := Some(now));
      execution := execution.(activeAccount := None, leaseOwner := 0, leaseUntil := None);
      execution := execution.(revision := execution.revision + 1);
      executions := executions[id := execution];
      audits := audits[id := AuditFailed("original_verified")];
      reply := Ok(id);
    }

    /** persistCredential inside the caller's transaction: none, or why it is refused. */
    method Persist(owner: Owner, auth: AuthType, secret: Material, previous: nat, newVersion: nat) returns (refusal: Option<Error>)
      modifies this`versions, this`owners
      ensures var c := C.Persist(old(Contents()), owner, auth, secret, previous, newVersion);
        && (refusal.None? <==> c.reply.Ok?)
        && (refusal.None? ==> owner in owners && Contents() == c.db && c.reply == Ok(newVersion))
        && (refusal.Some? ==> c.reply == Refused(refusal.value))
    {
      if !KindMatches(auth, secret) { return Some(CredentialInput); }
      if newVersion == 0 || newVersion in versions { return Some(CredentialState); }
      Stage(owner, 0, secret, newVersion);
      var done := PublishVersion(owner, auth, previous, newVersion);
      refusal := if done then None else Some(CredentialState);
    }

    method UpdateStoredCredential(owner: Owner, edit: C.Edit, newVersion: nat) returns (reply: Reply)
      requires Valid()
      modifies this
      ensures Commit(Contents(), reply) == C.UpdateCredential(old(Contents()), owner, edit, newVersion)
      ensures Valid()
    {
      hide V.VaultOk, C.Persist;
      V.UpdateCredentialKeeps(Contents(), owner, edit, newVersion);
      if Missing(owner) { return Refused(NotFound); }
      var current := owners[owner];
      var auth := C.EditedAuth(current, edit);
      if owner.Account? && current.managed && (edit.renames || auth != current.auth) { return Refused(CredentialInput); }
      if edit.secret.None? {
        if auth != current.auth { return Refused(CredentialInput); }
        return Ok(current.reference);
      }
      if owner.Account? && current.managed && exists id | id in executions :: executions[id].activeAccount == Some(owner.id) {
        return Refused(CredentialInput);
      }
      var savedOwners, savedVersions := owners, versions;
      var refusal := Persist(owner, auth, edit.secret.value, current.reference, newVersion);
      if refusal.Some? {
        owners, versions := savedOwners, savedVersions;
        return Refused(refusal.value);
      }
      owners := owners[owner := owners[owner].(auth := auth)];
      reply := Ok(newVersion);
    }

    /** The creation of an owner with its first credential. */
    method CreateOwner(owner: Owner, auth: AuthType, secret: Material, newVersion: nat) returns (reply: Reply)
      requires Valid()
      modifies this
      ensures Commit(Contents(), reply) == C.CreateOwner(old(Contents()), owner, auth, secret, newVersion)
      ensures Valid()
    {
      hide V.VaultOk, C.Persist;
      V.CreateOwnerKeeps(Contents(), owner, auth, secret, newVersion);
      if owner.id == 0 || owner in owners { return Refused(StateChanged); }
      var savedOwners, savedVersions := owners, versions;
      owners := owners[owner := OwnerRow(auth, None, 0, 0, false, true, 1, false)];
      var refusal := Persist(owner, auth, secret, 0, newVersion);
      if refusal.Some? {
        owners, versions := savedOwners, savedVersions;
        return Refused(refusal.value);
      }
      reply := Ok(newVersion);
    }

    method Adopt(account: nat, newVersion: nat) returns (reply: Reply)
      requires Valid()
      modifies this
      ensures Commit(Contents(), reply) == C.Adopt(old(Contents()), account, newVersion)
      ensures Valid()
    {
      hide V.VaultOk, C.Persist;
      V.AdoptKeeps(Contents(), account, newVersion);
      var owner := Account(account);
      if account == 0 || Missing(owner) { return Refused(NotFound); }
      if owners[owner].managed { return Refused(RevisionChanged); }
      var stored := owners[owner].reference;
      if stored == 0 {
        var legacy := owners[owner].legacy;
        if legacy.None? || !KindMatches(owners[owner].auth, legacy.value) { return Refused(CredentialState); }
        var savedOwners, savedVersions := owners, versions;
        var refusal := Persist(owner, owners[owner].auth, legacy.value, 0, newVersion);
        if refusal.Some? {
          owners, versions := savedOwners, savedVersions;
          return Refused(refusal.value);
        }
        stored := newVersion;
      }
      var row := owners[owner];
      owners := owners[owner := row.(managed := true, enabled := true, revision := row.revision + 1)];
      reply := Ok(stored);
    }

    method RemoveManagement(account: nat, revision: nat) returns (reply: Reply)
      requires Valid()
      modifies this
      ensures Commit(Contents(), reply) == C.RemoveManagement(old(Contents()), account, revision)
      ensures Valid()
    {
      hide V.VaultOk;
      V.RemoveManagementKeeps(Contents(), account, revision);
      var owner := Account(account);
      if revision == 0 || Missing(owner) || !owners[owner].managed { return Refused(NotFound); }
      var current := owners[owner];
      if current.revision != revision { return Refused(RevisionChanged); }
      if exists id | id in executions :: executions[id].activeAccount == Some(account) { return Refused(StateChanged); }
      bindings := map b | b in bindings && bindings[b].account != account :: bindings[b];
      owners := owners[owner := current.(managed := false, enabled := true, revision := current.revision + 1)];
      reply := Ok(account);
    }

    method SetEnabled(account: nat, revision: nat, enabled: bool, assetPresent: bool) returns (reply: Reply)
      requires Valid()
      modifies this
      ensures Commit(Contents(), reply) == C.SetEnabled(old(Contents()), account, revision, enabled, assetPresent)
      ensures Valid()
    {
      hide V.VaultOk;
      V.SetEnabledKeeps(Contents(), account, revision, enabled, assetPresent);
      var owner := Account(account);
      if revision == 0 || Missing(owner) || !owners[owner].managed { return Refused(NotFound); }
      var updated := owners[owner];
      if updated.revision != revision { return Refused(RevisionChanged); }
      if updated.enabled == enabled { return Ok(account); }
      if enabled && !assetPresent { return Refused(CredentialInput); }
      owners := owners[owner := updated.(enabled := enabled, revision := updated.revision + 1)];
      reply := Ok(account);
    }

    /** doDelete of an account or a gateway, behind CheckAssetDependencies. */
    method DeleteOwner(owner: Owner, allowed: bool) returns (reply: Reply)
      requires Valid()
      modifies this
      ensures Commit(Contents(), reply) == T.DeleteOwner(old(Contents()), owner, allowed)
      ensures Valid()
    {
      hide V.VaultOk;
      R.CallKeepsVault(Contents(), R.DeleteOwner(owner, allowed));
      if Missing(owner) { return Refused(NotFound); }
      var dependent := match owner
        case Account(id) => exists b | b in bindings ::
          bindings[b].account == id && bindings[b].asset in assets && !assets[bindings[b].asset].deleted
        case Gateway(id) => exists a | a in assets :: assets[a].route.gateway == id && !assets[a].deleted;
      if dependent || !allowed { return Refused(CredentialInput); }
      owners := owners[owner := owners[owner].(deleted := true)];
      reply := Ok(owner.id);
    }

    /** loadPAMPasswordTarget */
    method LoadTarget(account: nat, binding: nat) returns (refusal: Option<Error>)
      ensures refusal == T.LoadRefusal(Contents(), account, binding)
    {
      if Missing(Account(account)) || !owners[Account(account)].managed { return Some(NotFound); }
      if binding !in bindings || bindings[binding].account != account { return Some(NotFound); }
      var row := bindings[binding];
      if row.asset !in assets || assets[row.asset].deleted { return Some(NotFound); }
      if !owners[Account(account)].enabled || !row.enabled || row.route != assets[row.asset].route { return Some(BindingChanged); }
      refusal := None;
    }

    /** The part of the authorisation callback that reads these tables. */
    method CheckWork(id: nat, recovery: bool) returns (ok: bool)
      requires id in executions
      ensures ok == T.MayWork(Contents(), executions[id], recovery)
    {
      var execution := executions[id];
      var refusal := LoadTarget(execution.account, execution.binding);
      if refusal.Some? { return false; }
      var binding := bindings[execution.binding];
      if recovery && execution.scope.Some? {
        ok := execution.scope.value == T.ScopeOf(binding);
      } else {
        ok := binding.revision == execution.bindingRevision && owners[Account(execution.account)].revision == execution.accountRevision;
      }
      if exists b | b in bindings :: bindings[b].account == execution.account && bindings[b].asset != binding.asset { ok := false; }
    }

    method AttachBinding(account: nat, asset: nat, newBinding: nat, fits: bool) returns (reply: Reply)
      requires Valid()
      modifies this
      ensures Commit(Contents(), reply) == T.AttachBinding(old(Contents()), account, asset, newBinding, fits)
      ensures Valid()
    {
      hide V.VaultOk;
      R.CallKeepsVault(Contents(), R.Retarget(T.Attach(account, asset, newBinding, fits)));
      if asset !in assets || assets[asset].deleted { return Refused(NotFound); }
      if Missing(Account(account)) || !owners[Account(account)].managed { return Refused(NotFound); }
      if !owners[Account(account)].enabled || !fits { return Refused(CredentialInput); }
      if newBinding == 0 || newBinding in bindings { return Refused(StateChanged); }
      if exists b | b in bindings :: bindings[b].account == account && bindings[b].asset == asset { return Refused(StateChanged); }
      bindings := bindings[newBinding := Binding(account, asset, assets[asset].route, 0, true, 1)];
      reply := Ok(newBinding);
    }

    method ReviewBinding(binding: nat, revision: nat, enabled: bool, fits: bool) returns (reply: Reply)
      requires Valid()
      modifies this
      ensures Commit(Contents(), reply) == T.ReviewBinding(old(Contents()), binding, revision, enabled, fits)
      ensures Valid()
    {
      hide V.VaultOk;
      R.CallKeepsVault(Contents(), R.Retarget(T.Review(binding, revision, enabled, fits)));
      if revision == 0 { return Refused(CredentialInput); }
      if binding !in bindings { return Refused(NotFound); }
      var current := bindings[binding];
      if current.asset !in assets || assets[current.asset].deleted { return Refused(NotFound); }
      var owner := Account(current.account);
      if Missing(owner) || !owners[owner].managed { return Refused(NotFound); }
      if !owners[owner].enabled || !fits { return Refused(CredentialInput); }
      if current.revision != revision { return Refused(RevisionChanged); }
      var asset := assets[current.asset];
      var updated := Binding(current.account, current.asset, asset.route, 0, true, 1);
      if current.route == asset.route { updated := updated.(config := current.config); }
      updated := updated.(revision := current.revision + 1, enabled := enabled);
      bindings := bindings[binding := updated];
      reply := Ok(binding);
    }

    method SavePasswordConfig(binding: nat, revision: nat, config: nat, allowed: bool) returns (reply: Reply)
      requires Valid()
      modifies this
      ensures Commit(Contents(), reply) == T.SavePasswordConfig(old(Contents()), binding, revision, config, allowed)
      ensures Valid()
    {
      hide V.VaultOk;
      R.CallKeepsVault(Contents(), R.Retarget(T.Configure(binding, revision, config, allowed)));
      if revision == 0 { return Refused(CredentialInput); }
      if binding !in bindings { return Refused(NotFound); }
      var current := bindings[binding];
      var refusal := LoadTarget(current.account, binding);
      if refusal.Some? { return Refused(refusal.value); }
      if !allowed { return Refused(CredentialInput); }
      if current.revision != revision { return Refused(RevisionChanged); }
      current := current.(config := config, revision := current.revision + 1);
      bindings := bindings[binding := current];
      reply := Ok(binding);
    }

    /** Any change of bindings and assets. */
    method Retarget(change: T.Change) returns (reply: Reply)
      requires Valid()
      modifies this
      ensures Commit(Contents(), reply) == T.Apply(old(Contents()), change)
      ensures Valid()
    {
      hide V.VaultOk;
      R.CallKeepsVault(Contents(), R.Retarget(change));
      match change {
        case Attach(account, asset, newBinding, fits) => reply := AttachBinding(account, asset, newBinding, fits);
        case Review(binding, revision, enabled, fits) => reply := ReviewBinding(binding, revision, enabled, fits);
        case Configure(binding, revision, config, allowed) => reply := SavePasswordConfig(binding, revision, config, allowed);
        case CreateAsset(asset, route) =>
          if asset == 0 || asset in assets { return Refused(StateChanged); }
          assets := assets[asset := Asset(route, false)];
          reply := Ok(asset);
        case EditAsset(asset, route) =>
          if asset !in assets || assets[asset].deleted { return Refused(NotFound); }
          assets := assets[asset := assets[asset].(route := route)];
          reply := Ok(asset);
        case DeleteAsset(asset) =>
          if asset !in assets || assets[asset].deleted { return Refused(NotFound); }
          assets := assets[asset := assets[asset].(deleted := true)];
          reply := Ok(asset);
      }
    }

    /** Any transaction of the run model, on this store. */
    method Perform(call: R.Call) returns (reply: Reply)
      requires Valid()
      modifies this
      ensures Commit(Contents(), reply) == R.Perform(old(Contents()), call)
      ensures Valid()
      ensures old(executions.Keys) <= executions.Keys
    {
      hide V.VaultOk, R.RowLater, E.Prepare, E.Claim, E.BeforeChange, E.ChangeResult, E.CandidateResult, E.Publish,
           E.FinishUnchanged, E.PreserveOriginal, T.Apply, T.DeleteOwner;
      R.CallKeepsVault(Contents(), call);
      R.CallMovesRowsForward(Contents(), call);
      match call {
        case Prepare(input, candidate, newId, newVersion) => reply := Prepare(input, candidate, newId, newVersion);
        case Claim(id, owner, reconcile) => reply := Claim(id, owner, reconcile);
        case BeforeChange(id, owner) => reply := BeforeChange(id, owner);
        case ChangeResult(id, owner, changed) => reply := ChangeResult(id, owner, changed);
        case CandidateResult(id, owner, verified) => reply := CandidateResult(id, owner, verified);
        case Publish(id, owner) => reply := Publish(id, owner);
        case FinishUnsent(id, owner, code) => reply := FinishUnchanged(id, owner, code, false);
        case RejectChange(id, owner, code) => reply := FinishUnchanged(id, owner, code, true);
        case PreserveOriginal(id, owner) => reply := PreserveOriginal(id, owner);
        case CreateOwner(who, auth, secret, newVersion) => reply := CreateOwner(who, auth, secret, newVersion);
        case UpdateCredential(who, edit, newVersion) => reply := UpdateStoredCredential(who, edit, newVersion);
        case Adopt(account, newVersion) => reply := Adopt(account, newVersion);
        case RemoveManagement(account, revision) => reply := RemoveManagement(account, revision);
        case SetEnabled(account, revision, enabled, assetPresent) => reply := SetEnabled(account, revision, enabled, assetPresent);
        case Retarget(change) => reply := Retarget(change);
        case DeleteOwner(who, allowed) => reply := DeleteOwner(who, allowed);
        case Tick(elapsed) =>
          now := now + elapsed;
          reply := Ok(0);
      }
    }
  }
}
