/** Assets and the bindings of accounts to them: who may change them, and the test of an execution against them that
 every authorisation of a password change makes. */
module TargetSpec {
  import opened Basics
  import opened Tables

  predicate AssetLives(db: Db, asset: nat) {
    asset in db.assets && !db.assets[asset].deleted
  }

  predicate MatchesAsset(db: Db, binding: Binding) {
    AssetLives(db, binding.asset) && binding.route == db.assets[binding.asset].route
  }

  /** scopeHash */
  function ScopeOf(binding: Binding): Scope {
    Scope(binding.asset, binding.route.host, binding.route.gateway, binding.config)
  }

  /** loadPAMPasswordTarget: why a password operation on this account through this binding is refused, if it is. */
  function LoadRefusal(db: Db, account: nat, binding: nat): Option<Error> {
    var owner := Account(account);
    if !Exists(db, owner) || !db.owners[owner].managed then Some(NotFound)
    else if binding !in db.bindings || db.bindings[binding].account != account then Some(NotFound)
    else if !AssetLives(db, db.bindings[binding].asset) then Some(NotFound)
    else if !db.owners[owner].enabled || !db.bindings[binding].enabled || !MatchesAsset(db, db.bindings[binding]) then
      Some(BindingChanged)
    else None
  }

  /** matchesExecution: recovery compares the stored scope, if there is one, and everything else the revisions. */
  predicate MatchesExecution(db: Db, row: Execution, recovery: bool)
    requires Account(row.account) in db.owners && row.binding in db.bindings
  {
    if recovery && row.scope.Some? then row.scope.value == ScopeOf(db.bindings[row.binding])
    else db.bindings[row.binding].revision == row.bindingRevision && db.owners[Account(row.account)].revision == row.accountRevision
  }

  /** The part of validatePAMAccountScope that reads bindings: the account is bound to no other asset. */
  predicate OnlyAsset(db: Db, account: nat, asset: nat) {
    forall b | b in db.bindings :: db.bindings[b].account == account ==> db.bindings[b].asset == asset
  }

  /** What the tables say about a request to work on an execution, before anybody's permission is asked. */
  predicate MayWork(db: Db, row: Execution, recovery: bool) {
    && LoadRefusal(db, row.account, row.binding).None? && MatchesExecution(db, row, recovery)
    && OnlyAsset(db, row.account, db.bindings[row.binding].asset)
  }

  // ---- The writers ----

  /** `fits` and `allowed` stand for platform, authority, permissions and the form of the configuration. */
  datatype Change =
    | Attach(account: nat, asset: nat, newBinding: nat, fits: bool)
    | Review(binding: nat, revision: nat, enabled: bool, fits: bool)
    | Configure(binding: nat, revision: nat, config: nat, allowed: bool)
    | CreateAsset(asset: nat, route: Route)
    | EditAsset(asset: nat, route: Route)
    | DeleteAsset(asset: nat)

  predicate Bound(db: Db, account: nat, asset: nat) {
    exists b | b in db.bindings :: db.bindings[b].account == account && db.bindings[b].asset == asset
  }

  /** Attach, and the last part of Adopt: a first binding of this account to this asset. */
  function AttachBinding(db: Db, account: nat, asset: nat, newBinding: nat, fits: bool): Commit {
    var owner := Account(account);
    if !AssetLives(db, asset) || !Exists(db, owner) || !db.owners[owner].managed then Rollback(db, NotFound)
    else if !db.owners[owner].enabled || !fits then Rollback(db, CredentialInput)
    else if newBinding == 0 || newBinding in db.bindings || Bound(db, account, asset) then Rollback(db, StateChanged)
    else
      var row := Binding(account, asset, db.assets[asset].route, 0, true, 1);
      Commit(db.(bindings := db.bindings[newBinding := row]), Ok(newBinding))
  }

  /** Follow the asset, keeping the configuration only if the binding had not lost it. */
  function ReviewBinding(db: Db, binding: nat, revision: nat, enabled: bool, fits: bool): Commit {
    if revision == 0 then Rollback(db, CredentialInput)
    else if binding !in db.bindings then Rollback(db, NotFound)
    else
      var row := db.bindings[binding];
      var owner := Account(row.account);
      if !AssetLives(db, row.asset) || !Exists(db, owner) || !db.owners[owner].managed then Rollback(db, NotFound)
      else if !db.owners[owner].enabled || !fits then Rollback(db, CredentialInput)
      else if row.revision != revision then Rollback(db, RevisionChanged)
      else
        var reviewed := row.(route := db.assets[row.asset].route, config := if MatchesAsset(db, row) then row.config else 0,
                             enabled := enabled, revision := row.revision + 1);
        Commit(db.(bindings := db.bindings[binding := reviewed]), Ok(binding))
  }

  /** SavePAMPasswordConfig, the load of its target included. */
  function SavePasswordConfig(db: Db, binding: nat, revision: nat, config: nat, allowed: bool): Commit {
    if revision == 0 then Rollback(db, CredentialInput)
    else if binding !in db.bindings then Rollback(db, NotFound)
    else
      var row := db.bindings[binding];
      if LoadRefusal(db, row.account, binding).Some? then Rollback(db, LoadRefusal(db, row.account, binding).value)
      else if !allowed then Rollback(db, CredentialInput)
      else if row.revision != revision then Rollback(db, RevisionChanged)
      else Commit(db.(bindings := db.bindings[binding := row.(config := config, revision := row.revision + 1)]), Ok(binding))
  }

  /** Identifiers of assets are never reused, those of deleted ones included. */
  function AddAsset(db: Db, asset: nat, route: Route): Commit {
    if asset == 0 || asset in db.assets then Rollback(db, StateChanged)
    else Commit(db.(assets := db.assets[asset := Asset(route, false)]), Ok(asset))
  }

  function MoveAsset(db: Db, asset: nat, route: Route): Commit {
    if !AssetLives(db, asset) then Rollback(db, NotFound)
    else Commit(db.(assets := db.assets[asset := Asset(route, false)]), Ok(asset))
  }

  /** Nothing asks whether a password change still needs the asset. */
  function MarkDeleted(db: Db, asset: nat): Commit {
    if !AssetLives(db, asset) then Rollback(db, NotFound)
    else Commit(db.(assets := db.assets[asset := db.assets[asset].(deleted := true)]), Ok(asset))
  }

  function Apply(db: Db, change: Change): (c: Commit)
    ensures c.db == db.(bindings := c.db.bindings, assets := c.db.assets)
  {
    match change
    case Attach(account, asset, newBinding, fits) => AttachBinding(db, account, asset, newBinding, fits)
    case Review(binding, revision, enabled, fits) => ReviewBinding(db, binding, revision, enabled, fits)
    case Configure(binding, revision, config, allowed) => SavePasswordConfig(db, binding, revision, config, allowed)
    case CreateAsset(asset, route) => AddAsset(db, asset, route)
    case EditAsset(asset, route) => MoveAsset(db, asset, route)
    case DeleteAsset(asset) => MarkDeleted(db, asset)
  }

  // ---- Deleting an account or a gateway ----

  /** CheckAssetDependencies, as far as these tables go: a bound asset, or one reached through the gateway, still exists. */
  predicate HasLiveAsset(db: Db, owner: Owner) {
    match owner
    case Account(id) => exists b | b in db.bindings :: db.bindings[b].account == id && AssetLives(db, db.bindings[b].asset)
    case Gateway(id) => exists a | a in db.assets :: db.assets[a].route.gateway == id && !db.assets[a].deleted
  }

  /** doDelete behind that check. `allowed` is the permission, and that no enabled rule lists this account and an asset
   that still exists. Nothing asks for active executions. */
  function DeleteOwner(db: Db, owner: Owner, allowed: bool): Commit {
    if !Exists(db, owner) then Rollback(db, NotFound)
    else if !allowed || HasLiveAsset(db, owner) then Rollback(db, CredentialInput)
    else Commit(db.(owners := db.owners[owner := db.owners[owner].(deleted := true)]), Ok(owner.id))
  }
}
