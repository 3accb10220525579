/** Connection permits: how one is built from standing authorisation and grants, and the later check of its scope. */
module ConnectionPermit {
  import opened AuthActions
  import opened Basics
  import T = Tables
  import opened RequestTables
  import S = RequestSpec
  import opened RequestRepository

  /** What a permit is pinned to. */
  datatype Connection = Connection(uid: int, account: nat, asset: nat, binding: nat, bindingRevision: nat,
                                   policy: nat, policyRevision: nat)

  // ---- Specification ----

  function CurrentPolicy(sys: Sys, account: nat): Policy {
    S.PolicyOf(sys, AccountPolicy(account))
  }

  /** The grant is approved, running and for exactly this scope. */
  predicate GrantMatches(row: Request, c: Connection, now: int) {
    && S.HasActiveAccess(row, now)
    && row.requester == c.uid && row.scope.target == T.Account(c.account) && row.scope.action == Connect
    && row.scope.binding == c.binding && row.scope.bindingRevision == c.bindingRevision
    && row.terms.policy == c.policy && row.terms.policyRevision == c.policyRevision
  }

  predicate GrantActive(sys: Sys, id: nat, c: Connection) {
    id in sys.requests && GrantMatches(sys.requests[id], c, sys.now)
  }

  predicate Passed(deadline: Option<int>, now: int) {
    deadline.Some? && now >= deadline.value
  }

  /** checkPAMConnectionScope as one condition: nothing the permit is pinned to has changed, and every grant it lists
   is still active; without grants, no approval is needed. */
  predicate InScope(sys: Sys, c: Connection, grants: seq<nat>, deadline: Option<int>, sourceAllowed: bool) {
    var policy := CurrentPolicy(sys, c.account);
    && T.Account(c.account) in sys.owners
    && policy.id == c.policy && policy.revision == c.policyRevision
    && !Passed(deadline, sys.now)
    && S.OwnerAvailable(T.Account(c.account), sys.owners[T.Account(c.account)]) && sourceAllowed
    && S.BindingRefusal(sys, T.Account(c.account), c.asset, c.account).None?
    && sys.bindings[(c.asset, c.account)].id == c.binding && sys.bindings[(c.asset, c.account)].revision == c.bindingRevision
    && (if grants == [] then Connect !in policy.approvalActions else forall g :: g in grants ==> GrantActive(sys, g, c))
  }

  /** A grant that covers one operation of this connection. */
  predicate Usable(sys: Sys, c: Connection, action: AuthAction, id: nat) {
    && GrantActive(sys, id, c)
    && T.Account(c.account) in sys.owners
    && sys.requests[id].scope.asset == c.asset
    && S.ScopeCurrent(sys, sys.requests[id], sys.owners[T.Account(c.account)], CurrentPolicy(sys, c.account))
    && sys.requests[id].terms.permissions.Has(Open) && sys.requests[id].terms.permissions.Has(action)
  }

  function EndOf(sys: Sys, id: nat): int {
    if id in sys.requests && sys.requests[id].grant.until.Some? then sys.requests[id].grant.until.value else 0
  }

  /** The order of the candidate query: latest end first, then by id. */
  predicate ComesFirst(sys: Sys, a: nat, b: nat) {
    EndOf(sys, a) > EndOf(sys, b) || (EndOf(sys, a) == EndOf(sys, b) && a <= b)
  }

  ghost predicate Best(sys: Sys, c: Connection, action: AuthAction, id: nat) {
    && Usable(sys, c, action, id)
    && forall other :: Usable(sys, c, action, other) ==> ComesFirst(sys, id, other)
  }

  ghost function BestGrant(sys: Sys, c: Connection, action: AuthAction): Option<nat> {
    if id :| Best(sys, c, action, id) then Some(id) else None
  }

  datatype AuthResult = AuthResult(allowed: bool, grant: Option<nat>)

  predicate Allowed(results: map<AuthAction, AuthResult>, action: AuthAction) {
    action in results && results[action].allowed
  }

  predicate NeedsGrant(sys: Sys, account: nat, results: map<AuthAction, AuthResult>) {
    Connect in CurrentPolicy(sys, account).approvalActions || !Allowed(results, Open)
  }

  /** The result of one action, whatever the others are: standing authorisation if it suffices, else its best grant. */
  ghost function Decided(sys: Sys, c: Connection, results: map<AuthAction, AuthResult>, shared: bool, action: AuthAction): AuthResult
    requires action in results
  {
    if results[action].allowed && !NeedsGrant(sys, c.account, results) then results[action]
    else if shared || action == Share || BestGrant(sys, c, action).None? then AuthResult(false, None)
    else AuthResult(true, BestGrant(sys, c, action))
  }

  /** A grant that some action was given, where standing authorisation did not do. */
  ghost predicate Used(sys: Sys, c: Connection, results: map<AuthAction, AuthResult>, shared: bool, id: nat) {
    exists action :: action in results && UsedFor(sys, c, results, shared, action, id)
  }

  ghost predicate UsedFor(sys: Sys, c: Connection, results: map<AuthAction, AuthResult>, shared: bool, action: AuthAction, id: nat)
    requires action in results
  {
    && !(results[action].allowed && !NeedsGrant(sys, c.account, results))
    && !shared && action != Share && BestGrant(sys, c, action) == Some(id)
  }

  predicate NoRepeats(s: seq<nat>) {
    forall i, j :: 0 <= i < j < |s| ==> s[i] != s[j]
  }

  /** The earliest end of the listed grants, if any is listed. */
  predicate EarliestEnd(sys: Sys, grants: seq<nat>, deadline: Option<int>) {
    && (deadline.None? <==> grants == [])
    && (deadline.Some? ==>
          && (forall g :: g in grants ==> deadline.value <= EndOf(sys, g))
          && (exists g :: g in grants && deadline.value == EndOf(sys, g)))
  }

  // ---- The permit ----

  class Permit {
    const connection: Connection
    var grants: seq<nat>
    var deadline: Option<int>
    var lease: nat
    var leaseUntil: Option<int>

    constructor (c: Connection)
      ensures connection == c && grants == [] && deadline.None? && lease == 0 && leaseUntil.None?
    {
      connection, grants, deadline, lease, leaseUntil := c, [], None, 0, None;
    }
  }

  /** The candidate rows as the query returns them. */
  ghost predicate Candidates(sys: Sys, c: Connection, found: seq<nat>) {
    && (forall id :: id in found <==> GrantActive(sys, id, c) && sys.requests[id].scope.asset == c.asset)
    && (forall i, j :: 0 <= i < j < |found| ==> ComesFirst(sys, found[i], found[j]))
  }

  lemma BestIsUnique(sys: Sys, c: Connection, action: AuthAction, id: nat)
    requires Best(sys, c, action, id)
    ensures BestGrant(sys, c, action) == Some(id)
  {
  }

  /** findPAMGrant: the first candidate that still covers the operation. */
  method FindGrant(store: AccessStore, c: Connection, action: AuthAction, found: seq<nat>) returns (grant: Option<nat>)
    requires T.Account(c.account) in store.owners && Candidates(store.Contents(), c, found)
    ensures grant == BestGrant(store.Contents(), c, action)
    ensures grant.Some? ==> GrantActive(store.Contents(), grant.value, c) && store.requests[grant.value].grant.until.Some?
  {
    ghost var sys := store.Contents();
    var policy := store.PolicyOf(AccountPolicy(c.account));
    for i := 0 to |found|
      invariant forall k :: 0 <= k < i ==> !Usable(sys, c, action, found[k])
    {
      assert found[i] in found;
      var current := store.requests[found[i]];
      var inScope := store.ScopeCurrent(current, store.owners[T.Account(c.account)], policy);
      if S.HasActiveAccess(current, store.now) && current.requester == c.uid && inScope
         && current.terms.permissions.connect && current.terms.permissions.Has(action) {
        assert Best(sys, c, action, found[i]) by {
          forall other | Usable(sys, c, action, other)
            ensures ComesFirst(sys, found[i], other)
          {
            var k :| 0 <= k < |found| && found[k] == other;
          }
        }
        BestIsUnique(sys, c, action, found[i]);
        return Some(found[i]);
      }
    }
    grant := None;
    assert forall id :: !Usable(sys, c, action, id);
  }

  /** One grant more for the permit, unless it is already listed, and the deadline it brings. */
  method ListGrant(store: AccessStore, permit: Permit, grant: nat)
    requires grant in store.requests && store.requests[grant].grant.until.Some?
    requires NoRepeats(permit.grants) && EarliestEnd(store.Contents(), permit.grants, permit.deadline)
    modifies permit`grants, permit`deadline
    ensures NoRepeats(permit.grants) && EarliestEnd(store.Contents(), permit.grants, permit.deadline)
    ensures forall g :: g in permit.grants <==> g in old(permit.grants) || g == grant
  {
    ghost var sys := store.Contents();
    assert permit.deadline.Some? ==> exists g :: g in permit.grants && permit.deadline.value == EndOf(sys, g);
    if grant !in permit.grants {
      permit.grants := permit.grants + [grant];
    }
    assert grant in permit.grants && EndOf(sys, grant) == store.requests[grant].grant.until.value;
    var until := store.requests[grant].grant.until;
    if permit.deadline.None? || until.value < permit.deadline.value {
      permit.deadline := until;
    }
  }

  /** Used, by an action the loop has already seen. */
  ghost predicate UsedBefore(sys: Sys, c: Connection, results: map<AuthAction, AuthResult>, shared: bool, todo: set<AuthAction>, id: nat) {
    exists action :: action in results && action !in todo && UsedFor(sys, c, results, shared, action, id)
  }

  lemma UsedStep(sys: Sys, c: Connection, results: map<AuthAction, AuthResult>, shared: bool, todo: set<AuthAction>, action: AuthAction)
    requires action in todo && action in results
    ensures forall id :: UsedBefore(sys, c, results, shared, todo - {action}, id) <==>
      UsedBefore(sys, c, results, shared, todo, id) || UsedFor(sys, c, results, shared, action, id)
  {
  }

  /** The loop of authorizePAMConnection, over the results in whatever order the map yields them. */
  method ApplyGrants(store: AccessStore, permit: Permit, standing: map<AuthAction, AuthResult>, shared: bool, found: seq<nat>)
    returns (results: map<AuthAction, AuthResult>)
    requires T.Account(permit.connection.account) in store.owners && Candidates(store.Contents(), permit.connection, found)
    requires permit.grants == [] && permit.deadline.None?
    modifies permit`grants, permit`deadline
    ensures results.Keys == standing.Keys
    ensures forall action :: action in standing ==>
      results[action] == Decided(store.Contents(), permit.connection, standing, shared, action)
    ensures forall g :: g in permit.grants <==> Used(store.Contents(), permit.connection, standing, shared, g)
    ensures NoRepeats(permit.grants)
    ensures forall g :: g in permit.grants ==> GrantActive(store.Contents(), g, permit.connection)
    ensures EarliestEnd(store.Contents(), permit.grants, permit.deadline)
  {
    hide UsedBefore, Used, BestGrant, GrantMatches, Candidates;
    ghost var sys, c := store.Contents(), permit.connection;
    var policy := store.PolicyOf(AccountPolicy(permit.connection.account));
    var required := Connect in policy.approvalActions || !Allowed(standing, Open);
    results := standing;
    var todo := standing.Keys;
    UsedByNone(sys, c, standing, shared);
    while todo != {}
      invariant todo <= standing.Keys && results.Keys == standing.Keys
      invariant forall a :: a in todo ==> results[a] == standing[a]
      invariant forall a :: a in standing && a !in todo ==> results[a] == Decided(sys, c, standing, shared, a)
      invariant forall g :: g in permit.grants <==> UsedBefore(sys, c, standing, shared, todo, g)
      invariant NoRepeats(permit.grants)
      invariant forall g :: g in permit.grants ==> GrantActive(sys, g, c)
      invariant EarliestEnd(sys, permit.grants, permit.deadline)
      decreases todo
    {
      var action :| action in todo;
      UsedStep(sys, c, standing, shared, todo, action);
      todo := todo - {action};
      if results[action].allowed && !required {
        continue;
      }
      results := results[action := AuthResult(false, None)];
      if shared || action == Share {
        continue;
      }
      var grant := FindGrant(store, permit.connection, action, found);
      if grant.Some? {
        ListGrant(store, permit, grant.value);
        results := results[action := AuthResult(true, grant)];
      }
    }
    UsedByAll(sys, c, standing, shared);
  }

  lemma UsedByAll(sys: Sys, c: Connection, results: map<AuthAction, AuthResult>, shared: bool)
    ensures forall id :: UsedBefore(sys, c, results, shared, {}, id) <==> Used(sys, c, results, shared, id)
  {
  }

  lemma UsedByNone(sys: Sys, c: Connection, results: map<AuthAction, AuthResult>, shared: bool)
    ensures forall id :: !UsedBefore(sys, c, results, shared, results.Keys, id)
  {
  }

  datatype Outcome = NotManaged | Barred(error: Error) | Permitted(results: map<AuthAction, AuthResult>)

  /** Who gets a permit at all: a user, for an existing binding of an account that exists, over an enabled binding that
   still matches an asset that exists, on an available account, from an allowed address. No policy row is needed. */
  predicate Admissible(sys: Sys, uid: int, asset: nat, account: nat, sourceAllowed: bool) {
    && (asset, account) in sys.bindings && uid > 0 && asset != 0 && account != 0 && T.Account(account) in sys.owners
    && sys.bindings[(asset, account)].assetExists
    && sys.bindings[(asset, account)].enabled && sys.bindings[(asset, account)].matchesAsset
    && (sys.owners[T.Account(account)].managed ==>
          sys.owners[T.Account(account)].enabled && sys.owners[T.Account(account)].authorityPresent)
    && sourceAllowed
  }

  /** Why not, in the order of the tests. */
  function BarredBy(sys: Sys, uid: int, asset: nat, account: nat): Error {
    if (asset, account) !in sys.bindings then if T.Account(account) in sys.owners then NotFound else Unavailable
    else if uid <= 0 then Denied
    else if T.Account(account) !in sys.owners then NotFound
    else if asset == 0 || account == 0 then BadInput
    else if !sys.bindings[(asset, account)].assetExists then Denied
    else if !sys.bindings[(asset, account)].enabled || !sys.bindings[(asset, account)].matchesAsset then ScopeChanged
    else Denied
  }

  /** Standing permission to open, under a policy that asks for no approval or under none. */
  predicate StandingSuffices(sys: Sys, account: nat, standing: map<AuthAction, AuthResult>) {
    Allowed(standing, Open) && (AccountPolicy(account) in sys.policies ==> Connect !in sys.policies[AccountPolicy(account)].approvalActions)
  }

  /** Then every action keeps the result it had, and no grant is used. */
  lemma StandingNeedsNoGrant(sys: Sys, c: Connection, standing: map<AuthAction, AuthResult>, shared: bool)
    requires StandingSuffices(sys, c.account, standing)
    ensures forall action :: action in standing ==>
      Decided(sys, c, standing, shared, action) == if standing[action].allowed then standing[action]
        else if shared || action == Share || BestGrant(sys, c, action).None? then AuthResult(false, None)
        else AuthResult(true, BestGrant(sys, c, action))
    ensures forall action, id :: action in standing && UsedFor(sys, c, standing, shared, action, id) ==> !standing[action].allowed
  {
  }

  /** Where it does not suffice, an action is allowed exactly by a usable grant of its own. */
  lemma {:induction false} GrantDecides(sys: Sys, c: Connection, standing: map<AuthAction, AuthResult>, shared: bool, action: AuthAction)
    requires action in standing && !StandingSuffices(sys, c.account, standing)
    ensures Decided(sys, c, standing, shared, action).allowed <==>
      !shared && action != Share && exists id :: Usable(sys, c, action, id)
  {
    hide Usable;
    if id :| Usable(sys, c, action, id) {
      UsableAreRows(sys, c, action);
      var best := BestAmong(sys, c, action, sys.requests.Keys, id);
      BestIsUnique(sys, c, action, best);
    }
  }

  lemma UsableAreRows(sys: Sys, c: Connection, action: AuthAction)
    ensures forall id :: Usable(sys, c, action, id) ==> id in sys.requests
  {
  }

  lemma {:induction false} BestAmong(sys: Sys, c: Connection, action: AuthAction, ids: set<nat>, some: nat) returns (best: nat)
    requires some in ids && Usable(sys, c, action, some)
    ensures best in ids && Usable(sys, c, action, best)
    ensures forall other :: other in ids && Usable(sys, c, action, other) ==> ComesFirst(sys, best, other)
    decreases ids
  {
    hide Usable;
    if other :| other in ids && other != some && Usable(sys, c, action, other) {
      var first := if ComesFirst(sys, some, other) then some else other;
      var second := if first == some then other else some;
      best := BestAmong(sys, c, action, ids - {second}, first);
    } else {
      best := some;
    }
  }

  /** authorizePAMConnection up to the identity check that follows it. A pair without a binding is left to the other
   authorisation when the account is not managed. */
  method Authorize(store: AccessStore, uid: int, asset: nat, account: nat, standing: map<AuthAction, AuthResult>,
                   shared: bool, sourceAllowed: bool, found: seq<nat>)
    returns (outcome: Outcome, permit: Permit?)
    requires var sys := store.Contents(); (asset, account) in sys.bindings ==> Candidates(sys, ConnectionOf(sys, uid, asset, account), found)
    ensures permit != null <==> outcome.Permitted?
    ensures outcome.Permitted? <==> Admissible(store.Contents(), uid, asset, account, sourceAllowed)
    ensures outcome.NotManaged? <==>
      (asset, account) !in store.bindings && T.Account(account) in store.owners && !store.owners[T.Account(account)].managed
    ensures outcome.Barred? ==> outcome.error == BarredBy(store.Contents(), uid, asset, account)
    ensures permit != null && StandingSuffices(store.Contents(), account, standing) ==>
      && (forall action :: action in standing && standing[action].allowed ==>
            action in outcome.results && outcome.results[action] == standing[action])
      && ((forall action :: action in standing ==> standing[action].allowed) ==> permit.grants == [] && permit.deadline.None?)
    ensures permit != null ==>
      var sys := store.Contents();
      && fresh(permit) && (asset, account) in sys.bindings
      && permit.connection == ConnectionOf(sys, uid, asset, account)
      && outcome.results.Keys == standing.Keys
      && (forall action :: action in standing ==> outcome.results[action] == Decided(sys, permit.connection, standing, shared, action))
      && (forall g :: g in permit.grants <==> Used(sys, permit.connection, standing, shared, g))
      && NoRepeats(permit.grants) && EarliestEnd(sys, permit.grants, permit.deadline)
      && (forall g :: g in permit.grants ==> GrantActive(sys, g, permit.connection))
      && (Allowed(outcome.results, Open) ==> InScope(sys, permit.connection, permit.grants, permit.deadline, sourceAllowed))
  {
    permit := null;
    if (asset, account) !in store.bindings {
      if T.Account(account) !in store.owners { return Barred(Unavailable), null; }
      if store.owners[T.Account(account)].managed { return Barred(NotFound), null; }
      return NotManaged, null;
    }
    if uid <= 0 { return Barred(Denied), null; }
    if T.Account(account) !in store.owners { return Barred(NotFound), null; }
    var policy := store.PolicyOf(AccountPolicy(account));
    var current, refusal := store.RequestBinding(T.Account(account), asset, account);
    if refusal.Some? { return Barred(refusal.value), null; }
    if !S.OwnerAvailable(T.Account(account), store.owners[T.Account(account)]) || !sourceAllowed { return Barred(Denied), null; }
    var connection := Connection(uid, account, asset, current.value.id, current.value.revision, policy.id, policy.revision);
    var created := new Permit(connection);
    var results := ApplyGrants(store, created, standing, shared, found);
    outcome, permit := Permitted(results), created;
    if StandingSuffices(store.Contents(), account, standing) {
      StandingNeedsNoGrant(store.Contents(), connection, standing, shared);
      assert (forall a :: a in standing ==> standing[a].allowed) ==> forall g :: g !in created.grants;
    }
    if Allowed(results, Open) {
      OpenIsInScope(store.Contents(), connection, standing, shared, created.grants, created.deadline, sourceAllowed);
    }
  }

  function ConnectionOf(sys: Sys, uid: int, asset: nat, account: nat): Connection
    requires (asset, account) in sys.bindings
  {
    var policy, binding := CurrentPolicy(sys, account), sys.bindings[(asset, account)];
    Connection(uid, account, asset, binding.id, binding.revision, policy.id, policy.revision)
  }

  /** A permit under which the connection may be opened passes its own check at that instant. */
  lemma OpenIsInScope(sys: Sys, c: Connection, standing: map<AuthAction, AuthResult>, shared: bool,
                      grants: seq<nat>, deadline: Option<int>, sourceAllowed: bool)
    requires (c.asset, c.account) in sys.bindings && c == ConnectionOf(sys, c.uid, c.asset, c.account)
    requires T.Account(c.account) in sys.owners && sourceAllowed
    requires S.OwnerAvailable(T.Account(c.account), sys.owners[T.Account(c.account)])
    requires S.BindingRefusal(sys, T.Account(c.account), c.asset, c.account).None?
    requires Open in standing && Decided(sys, c, standing, shared, Open).allowed
    requires forall g :: g in grants <==> Used(sys, c, standing, shared, g)
    requires forall g :: g in grants ==> GrantActive(sys, g, c)
    requires EarliestEnd(sys, grants, deadline)
    ensures InScope(sys, c, grants, deadline, sourceAllowed)
  {
    hide Usable, Best, BestGrant;
    if NeedsGrant(sys, c.account, standing) {
      var g := BestGrant(sys, c, Open).value;
      assert UsedFor(sys, c, standing, shared, Open, g);
      assert g in grants;
    }
    if deadline.Some? {
      var g :| g in grants && deadline.value == EndOf(sys, g);
      assert GrantActive(sys, g, c);
    }
  }

  /** A permit is in scope exactly while it could be given again, over the same binding and under the same policy, its
   deadline has not passed, and its grants are active or, without any, none are needed. */
  lemma InScopeExactly(sys: Sys, c: Connection, grants: seq<nat>, deadline: Option<int>, sourceAllowed: bool)
    requires c.uid > 0
    ensures InScope(sys, c, grants, deadline, sourceAllowed) <==>
      && Admissible(sys, c.uid, c.asset, c.account, sourceAllowed) && ConnectionOf(sys, c.uid, c.asset, c.account) == c
      && (deadline.Some? ==> sys.now < deadline.value)
      && (forall g :: g in grants ==> GrantActive(sys, g, c))
      && (grants == [] && AccountPolicy(c.account) in sys.policies ==> Connect !in sys.policies[AccountPolicy(c.account)].approvalActions)
  {
  }

  /** A grant counts for a connection exactly while it runs, unrevoked, for the same user, account, binding and policy. */
  lemma GrantActiveExactly(sys: Sys, id: nat, c: Connection)
    ensures GrantActive(sys, id, c) <==>
      && id in sys.requests
      && var row := sys.requests[id];
      && row.state == Approved && row.grant.revokedAt.None? && row.grant.at.Some? && row.grant.until.Some?
      && row.grant.at.value <= sys.now < row.grant.until.value
      && row.scope.action == Connect && row.requester == c.uid && row.scope.target == T.Account(c.account)
      && row.scope.binding == c.binding && row.scope.bindingRevision == c.bindingRevision
      && row.terms.policy == c.policy && row.terms.policyRevision == c.policyRevision
  {
  }

  /** And it covers an operation exactly if in addition it is for this asset, its scope stands, and it permits both opening
   the connection and the operation. */
  lemma UsableExactly(sys: Sys, c: Connection, action: AuthAction, id: nat)
    requires (c.asset, c.account) in sys.bindings && c == ConnectionOf(sys, c.uid, c.asset, c.account)
    requires Admissible(sys, c.uid, c.asset, c.account, true)
    ensures Usable(sys, c, action, id) <==>
      && GrantActive(sys, id, c) && sys.requests[id].scope.asset == c.asset
      && sys.requests[id].terms.permissions.connect && sys.requests[id].terms.permissions.Has(action)
  {
  }

  /** checkPAMConnectionScope */
  method CheckScope(store: AccessStore, permit: Permit, sourceAllowed: bool) returns (refusal: Option<Error>)
    requires NoRepeats(permit.grants)
    ensures refusal.None? <==> InScope(store.Contents(), permit.connection, permit.grants, permit.deadline, sourceAllowed)
  {
    var c := permit.connection;
    if T.Account(c.account) !in store.owners { return Some(NotFound); }
    var policy := store.PolicyOf(AccountPolicy(c.account));
    if policy.id != c.policy || policy.revision != c.policyRevision { return Some(ScopeChanged); }
    if permit.deadline.Some? && store.now >= permit.deadline.value { return Some(Denied); }
    if !S.OwnerAvailable(T.Account(c.account), store.owners[T.Account(c.account)]) || !sourceAllowed { return Some(Denied); }
    var binding, missing := store.RequestBinding(T.Account(c.account), c.asset, c.account);
    if missing.Some? { return missing; }
    if binding.value.id != c.binding || binding.value.revision != c.bindingRevision { return Some(ScopeChanged); }
    if |permit.grants| == 0 {
      if Connect in policy.approvalActions { return Some(Denied); }
      return None;
    }
    var requests := set id | id in permit.grants && id in store.requests && GrantMatches(store.requests[id], c, store.now);
    CountTest(permit.grants, requests);
    if |requests| != |permit.grants| { return Some(Denied); }
    refusal := None;
  }
}
