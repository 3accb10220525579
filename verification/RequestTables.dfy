/** Access requests, the policies that fence them, and the queue of rows still to be synchronised with the provider.
 As in Tables, an identifier is a natural number and 0 is the empty column. Columns written together are grouped. */
module RequestTables {
  import opened AuthActions
  import opened Basics
  import T = Tables

  datatype Access = Connect | Retrieve

  datatype RequestState = Pending | Approved | Rejected | Cancelled | Invalidated | Expired

  /** Neither pending nor approved. */
  predicate Ended(s: RequestState) {
    s != Pending && s != Approved
  }

  /** What is requested; never written again after creation. `asset` is 0 unless the action is Connect. */
  datatype Scope = Scope(target: T.Owner, action: Access, asset: nat, binding: nat, bindingRevision: nat,
                         credential: nat, username: nat)

  /** What the policy said at creation; never written again either. Times in nanoseconds. */
  datatype Terms = Terms(policy: nat, policyRevision: nat, durationMinutes: int, required: int,
                         template: nat, templateRevision: nat, requestRevision: nat, permissions: Permissions,
                         createdAt: int, expiresAt: int)

  datatype Decision = Decision(event: nat, request: nat, requestRevision: nat, providerRevision: nat, template: nat,
                               templateRevision: nat, ticket: nat, decidedAt: Option<int>,
                               verdict: Option<RequestState>, approvers: seq<int>)

  /** The last accepted decision. The stored digest of a decision is the decision itself. */
  datatype Receipt = Receipt(revision: nat, event: nat, payload: Option<Decision>)

  datatype Grant = Grant(at: Option<int>, until: Option<int>, revokedAt: Option<int>)

  datatype SyncState = ToDo | Running | Done | GaveUp

  datatype Sync = Sync(state: SyncState, attempts: nat, nextAt: int, owner: nat, until: Option<int>)

  datatype Request = Request(requester: int, key: nat, intent: nat, scope: Scope, terms: Terms, state: RequestState,
                             revision: nat, ticket: nat, receipt: Receipt, approvers: seq<int>, grant: Grant, sync: Sync)

  /** The unique index on policies: one per account, and one for viewing passwords. */
  datatype PolicyScope = AccountPolicy(account: nat) | ViewPolicy

  datatype Policy = Policy(id: nat, revision: nat, allowRequests: bool, approvalActions: seq<Access>, required: int,
                           maxDurationMinutes: int, expiryMinutes: int, template: nat, templateRevision: nat, permissions: Permissions)

  /** An account or gateway as the request code sees it. `authorityPresent` is the lookup of the authority asset. */
  datatype OwnerFacts = OwnerFacts(managed: bool, enabled: bool, authorityPresent: bool, credential: nat, username: nat)

  datatype BindingFacts = BindingFacts(id: nat, revision: nat, enabled: bool, assetExists: bool, matchesAsset: bool)

  /** A synchronisation worker between its claim and its final update. `attempts` was read with the claim. */
  datatype Worker = Worker(request: nat, attempts: nat, hasRead: bool)

  datatype Sys = Sys(
    requests: map<nat, Request>,
    policies: map<PolicyScope, Policy>,
    nextPolicy: nat,
    owners: map<T.Owner, OwnerFacts>,
    bindings: map<(nat, nat), BindingFacts>,
    nextBinding: nat,
    workers: map<nat, Worker>,
    now: int)

  datatype Error = BadInput | NotFound | Denied | Unavailable | NoProvider | ScopeChanged | RevisionChanged | StateChanged | GrantExists

  datatype Reply = Ok(id: nat) | Refused(error: Error)

  datatype Commit = Commit(sys: Sys, reply: Reply)

  function Rollback(sys: Sys, error: Error): Commit {
    Commit(sys, Refused(error))
  }
}
