/** What an execution depends on, and what its executor achieves while everybody else leaves that alone. */
module Undisturbed {
  import opened Basics
  import opened Tables
  import C = CredentialSpec
  import E = ExecutionSpec
  import T = TargetSpec
  import V = VaultInvariant
  import R = VaultRuns
  import I = ProtocolInvariant
  import opened PasswordProtocol

  /** An event that moves this executor. The network delivers or loses what it sent on its own. */
  predicate Drives(e: Event, token: nat) {
    match e
    case Clear(t, _, _, _) => t == token
    case Start(t, _, _) => t == token
    case Authorize(t, _) => t == token
    case Read(t) => t == token
    case GiveUp(t) => t == token
    case Before(t, _) => t == token
    case Send(t) => t == token
    case Reply(t, _) => t == token
    case Verify(t, _) => t == token
    case Record(t, _) => t == token
    case Crash(t) => t == token
    case _ => false
  }

  predicate Spares(events: seq<Event>, token: nat) {
    forall i :: 0 <= i < |events| ==> !Drives(events[i], token)
  }

  // ---- What an execution depends on ----

  /** Its row, the row of its account, the bindings of that account with their assets, and its two versions. */
  datatype Stake = Stake(row: Execution, owner: OwnerRow, bindings: map<nat, Binding>, assets: map<nat, Asset>, versions: map<nat, Version>)

  predicate BoundAsset(db: Db, account: nat, asset: nat) {
    exists b | b in db.bindings :: db.bindings[b].account == account && db.bindings[b].asset == asset
  }

  ghost function StakeOf(db: Db, id: nat): Option<Stake> {
    if id !in db.executions || Account(db.executions[id].account) !in db.owners then None
    else
      var row := db.executions[id];
      Some(Stake(row, db.owners[Account(row.account)],
                 map b | b in db.bindings && db.bindings[b].account == row.account :: db.bindings[b],
                 map a | a in db.assets && BoundAsset(db, row.account, a) :: db.assets[a],
                 map v | v in db.versions && (v == row.previous || v == row.candidate) :: db.versions[v]))
  }

  ghost predicate SameStake(db: Db, after: Db, id: nat) {
    StakeOf(after, id) == StakeOf(db, id)
  }

  /** From event `from` of this history on, nobody but executor `token` changed anything the execution depends on. */
  ghost predicate Alone(start: World, history: seq<Event>, from: nat, token: nat, id: nat) {
    forall k :: from <= k < |history| && !Drives(history[k], token) ==>
      SameStake(Run(start, history[..k]).db, Run(start, history[..k + 1]).db, id)
  }

  /** Nobody did so in a gap between two of its steps. */
  lemma {:induction false} GapIsSpared(start: World, history: seq<Event>, gap: seq<Event>, all: seq<Event>, from: nat, token: nat, id: nat)
    requires from <= |history| && history + gap <= all && Spares(gap, token) && Alone(start, all, from, token, id)
    ensures SameStake(Run(start, history).db, Run(start, history + gap).db, id)
    decreases |gap|
  {
    hide Run, Drives, StakeOf;
    if gap == [] {
      assert history + gap == history;
    } else {
      var n := |gap| - 1;
      assert history + gap[..n] == (history + gap)[..|history| + n];
      GapIsSpared(start, history, gap[..n], all, from, token, id);
      var k := |history| + n;
      assert all[..k] == history + gap[..n] && all[..k + 1] == history + gap && all[k] == gap[n];
    }
  }

  lemma AloneLater(start: World, all: seq<Event>, part: seq<Event>, from: nat, later: nat, token: nat, id: nat)
    requires Alone(start, all, from, token, id) && from <= later && part <= all
    ensures Alone(start, part, later, token, id)
  {
    hide Run, Drives, SameStake;
    forall k | later <= k < |part| && !Drives(part[k], token)
      ensures SameStake(Run(start, part[..k]).db, Run(start, part[..k + 1]).db, id)
    {
      assert part[..k] == all[..k] && part[..k + 1] == all[..k + 1] && part[k] == all[k];
    }
  }

  // ---- What the stake decides ----

  lemma SameBindings(db: Db, after: Db, id: nat)
    requires SameStake(db, after, id) && StakeOf(db, id).Some?
    ensures id in db.executions && id in after.executions && after.executions[id] == db.executions[id]
    ensures var account := db.executions[id].account;
      && Account(account) in db.owners && Account(account) in after.owners && after.owners[Account(account)] == db.owners[Account(account)]
      && (forall b :: b in db.bindings && db.bindings[b].account == account ==> b in after.bindings && after.bindings[b] == db.bindings[b])
      && (forall b :: b in after.bindings && after.bindings[b].account == account ==> b in db.bindings && after.bindings[b] == db.bindings[b])
  {
    var x, y, account := StakeOf(db, id).value.bindings, StakeOf(after, id).value.bindings, db.executions[id].account;
    forall b | b in db.bindings && db.bindings[b].account == account
      ensures b in after.bindings && after.bindings[b] == db.bindings[b]
    {
      assert b in x && b in y && x[b] == y[b];
    }
    forall b | b in after.bindings && after.bindings[b].account == account
      ensures b in db.bindings && after.bindings[b] == db.bindings[b]
    {
      assert b in y && b in x && x[b] == y[b];
    }
  }

  lemma SameAssets(db: Db, after: Db, id: nat)
    requires SameStake(db, after, id) && StakeOf(db, id).Some?
    ensures id in db.executions
    ensures forall a :: BoundAsset(db, db.executions[id].account, a) ==>
      (a in db.assets <==> a in after.assets) && (a in db.assets ==> after.assets[a] == db.assets[a])
  {
    SameBindings(db, after, id);
    var x, y := StakeOf(db, id).value.assets, StakeOf(after, id).value.assets;
    forall a | BoundAsset(db, db.executions[id].account, a)
      ensures (a in db.assets <==> a in after.assets) && (a in db.assets ==> after.assets[a] == db.assets[a])
    {
      assert BoundAsset(after, db.executions[id].account, a);
      assert a in x <==> a in y;
    }
  }

  /** Whether anybody may be let through to it. */
  lemma {:induction false} SameWork(db: Db, after: Db, id: nat, mode: Mode)
    requires SameStake(db, after, id) && StakeOf(db, id).Some?
    ensures MayWork(after, id, mode) <==> MayWork(db, id, mode)
  {
    SameBindings(db, after, id);
    SameAssets(db, after, id);
    hide StakeOf, SameStake;
    var row := db.executions[id];
    if row.binding in db.bindings && db.bindings[row.binding].account == row.account {
      assert BoundAsset(db, row.account, db.bindings[row.binding].asset);
    }
  }

  lemma SameVersions(db: Db, after: Db, id: nat)
    requires SameStake(db, after, id) && StakeOf(db, id).Some?
    ensures id in db.executions
    ensures forall v :: v == db.executions[id].previous || v == db.executions[id].candidate ==>
      (v in after.versions <==> v in db.versions) && (v in db.versions ==> after.versions[v] == db.versions[v])
  {
    var x, y := StakeOf(db, id).value.versions, StakeOf(after, id).value.versions;
    forall v | v == db.executions[id].previous || v == db.executions[id].candidate
      ensures (v in after.versions <==> v in db.versions) && (v in db.versions ==> after.versions[v] == db.versions[v])
    {
      assert (v in x <==> v in db.versions) && (v in y <==> v in after.versions);
      assert v in x ==> x[v] == y[v];
    }
  }

  /** And what its account resolves to. */
  lemma SameSecret(db: Db, after: Db, id: nat)
    requires SameStake(db, after, id) && StakeOf(db, id).Some?
    requires V.VaultOk(db) && id in db.executions && db.executions[id].activeAccount.Some?
    ensures C.Resolve(after, Account(db.executions[id].account)) == C.Resolve(db, Account(db.executions[id].account))
  {
    assert V.Held(db, db.executions[id]);
    SameBindings(db, after, id);
    SameVersions(db, after, id);
    hide StakeOf, SameStake, V.VaultOk;
  }

  // ---- What stays the case from step to step ----

  /** Same account, versions and target; only what the executor itself records has changed. */
  ghost predicate SameCase(db: Db, after: Db, id: nat) {
    && id in db.executions && id in after.executions
    && var a, b := db.executions[id], after.executions[id];
       && b == a.(state := b.state, revision := b.revision, leaseOwner := b.leaseOwner, leaseUntil := b.leaseUntil,
                  errorCode := b.errorCode, sendStartedAt := b.sendStartedAt, verifiedAt := b.verifiedAt)
       && (a.candidate in db.versions <==> a.candidate in after.versions)
       && (a.candidate in db.versions ==> after.versions[a.candidate] == db.versions[a.candidate])
       && C.Resolve(after, Account(a.account)) == C.Resolve(db, Account(a.account))
       && (Exists(after, Account(a.account)) <==> Exists(db, Account(a.account)))
       && (forall mode :: MayWork(after, id, mode) <==> MayWork(db, id, mode))
  }

  lemma SameCaseTwice(a: Db, b: Db, c: Db, id: nat)
    requires SameCase(a, b, id) && SameCase(b, c, id)
    ensures SameCase(a, c, id)
  {
    hide MayWork, C.Resolve;
  }

  lemma SparedIsSameCase(db: Db, after: Db, id: nat)
    requires V.VaultOk(db) && id in db.executions && db.executions[id].activeAccount.Some? && SameStake(db, after, id)
    ensures SameCase(db, after, id) && after.executions[id] == db.executions[id]
  {
    hide MayWork, C.Resolve, StakeOf, SameStake, V.VaultOk;
    assert StakeOf(db, id).Some? by { ActiveHasStake(db, id); }
    SameBindings(db, after, id);
    SameVersions(db, after, id);
    SameSecret(db, after, id);
    forall mode ensures MayWork(after, id, mode) <==> MayWork(db, id, mode) { SameWork(db, after, id, mode); }
  }

  lemma ActiveHasStake(db: Db, id: nat)
    requires V.VaultOk(db) && id in db.executions && db.executions[id].activeAccount.Some?
    ensures StakeOf(db, id).Some?
  {
    assert V.Held(db, db.executions[id]);
  }

  /** This executor's claim on a row in this state. */
  predicate Leased(db: Db, id: nat, token: nat, state: ExecutionState) {
    && token != 0 && id in db.executions && Exists(db, Account(db.executions[id].account))
    && var row := db.executions[id];
       row.state == state && row.leaseOwner == token && row.leaseUntil.Some? && row.activeAccount.Some?
  }

  function Until(db: Db, id: nat): int {
    if id in db.executions && db.executions[id].leaseUntil.Some? then db.executions[id].leaseUntil.value else 0
  }

  /** The executor went on to this state, under the same lease. */
  ghost predicate Went(db: Db, after: Db, id: nat, token: nat, state: ExecutionState) {
    SameCase(db, after, id) && Leased(after, id, token, state) && Until(after, id) == Until(db, id) && after.now == db.now
  }

  lemma RowOnly(db: Db, after: Db, id: nat)
    requires id in db.executions && after == db.(executions := after.executions) && id in after.executions
    requires var a, b := db.executions[id], after.executions[id];
      b == a.(state := b.state, revision := b.revision, leaseOwner := b.leaseOwner, leaseUntil := b.leaseUntil,
              errorCode := b.errorCode, sendStartedAt := b.sendStartedAt, verifiedAt := b.verifiedAt)
    ensures SameCase(db, after, id)
  {
  }

  // ---- The store calls of an executor that has its lease ----

  /** The row can be claimed for this work. */
  predicate Claimable(db: Db, id: nat, reconcile: bool) {
    && id in db.executions && db.executions[id].activeAccount.Some? && !After(db.executions[id].leaseUntil, db.now)
    && (db.executions[id].state == Prepared <==> !reconcile)
  }

  lemma ClaimGoes(db: Db, id: nat, token: nat, reconcile: bool)
    requires V.VaultOk(db) && Claimable(db, id, reconcile) && token != 0 && Exists(db, Account(db.executions[id].account))
    ensures R.Commits(db, R.Claim(id, token, reconcile))
    ensures var after := R.Perform(db, R.Claim(id, token, reconcile)).db;
      && SameCase(db, after, id) && Leased(after, id, token, if reconcile then Unknown else Prepared)
      && Until(after, id) == db.now + E.LEASE && after.now == db.now
  {
    hide SameCase, V.Held;
    assert V.RowConsistent(db.executions[id]) && id != 0;
    RowOnly(db, R.Perform(db, R.Claim(id, token, reconcile)).db, id);
  }

  lemma ClaimRefused(db: Db, id: nat, token: nat, reconcile: bool)
    requires !Claimable(db, id, reconcile)
    ensures !R.Commits(db, R.Claim(id, token, reconcile)) && R.Perform(db, R.Claim(id, token, reconcile)).db == db
  {
  }

  lemma BeforeGoes(db: Db, id: nat, token: nat)
    requires V.VaultOk(db) && Leased(db, id, token, Prepared) && db.now < Until(db, id) && MayWork(db, id, Change)
    ensures R.Commits(db, R.BeforeChange(id, token))
    ensures Went(db, R.Perform(db, R.BeforeChange(id, token)).db, id, token, Changing)
  {
    hide SameCase, V.VaultOk;
    R.BeforeChangeSucceedsExactly(db, id, token);
    RowOnly(db, R.Perform(db, R.BeforeChange(id, token)).db, id);
  }

  lemma ResultGoes(db: Db, id: nat, token: nat, changed: bool)
    requires V.VaultOk(db) && Leased(db, id, token, Changing) && db.now < Until(db, id)
    ensures R.Commits(db, R.ChangeResult(id, token, changed))
    ensures var after := R.Perform(db, R.ChangeResult(id, token, changed)).db;
      && Went(db, after, id, token, if changed then ExecutionState.Verifying else Unknown)
      && after.executions[id].errorCode == if changed then "" else "result_unknown"
  {
    hide SameCase;
    assert V.Held(db, db.executions[id]);
    RowOnly(db, R.Perform(db, R.ChangeResult(id, token, changed)).db, id);
  }

  lemma CandidateGoes(db: Db, id: nat, token: nat, verified: bool)
    requires V.VaultOk(db) && db.now < Until(db, id) && (Leased(db, id, token, ExecutionState.Verifying) || Leased(db, id, token, Unknown))
    ensures R.Commits(db, R.CandidateResult(id, token, verified))
    ensures var after := R.Perform(db, R.CandidateResult(id, token, verified)).db;
      && Went(db, after, id, token, if verified then Verified else Unknown)
      && (!verified ==> after.executions[id].errorCode == "candidate_not_verified")
  {
    hide SameCase;
    assert V.Held(db, db.executions[id]);
    RowOnly(db, R.Perform(db, R.CandidateResult(id, token, verified)).db, id);
  }

  // ---- How it can end ----

  /** Completed, and the account resolves to what was the candidate. */
  ghost predicate Published(db: Db, after: Db, id: nat) {
    && id in db.executions && id in after.executions && after.executions[id].account == db.executions[id].account
    && after.executions[id].state == Completed && after.executions[id].activeAccount.None?
    && db.executions[id].candidate in db.versions
    && C.Resolve(after, Account(db.executions[id].account)) == Some(db.versions[db.executions[id].candidate].secret)
  }

  /** Failed for this reason, and the account resolves to what it did. */
  ghost predicate ClosedWith(db: Db, after: Db, id: nat, code: string) {
    && id in db.executions && id in after.executions && after.executions[id].account == db.executions[id].account
    && after.executions[id].state == Failed && after.executions[id].activeAccount.None? && after.executions[id].errorCode == code
    && C.Resolve(after, Account(db.executions[id].account)) == C.Resolve(db, Account(db.executions[id].account))
  }

  /** Still active, uncertain for this reason. */
  ghost predicate LeftUnknown(db: Db, after: Db, id: nat, code: string) {
    && SameCase(db, after, id) && after.executions[id].state == Unknown && after.executions[id].errorCode == code
  }

  lemma PublishGoes(db: Db, id: nat, token: nat)
    requires V.VaultOk(db) && Leased(db, id, token, Verified) && db.now < Until(db, id)
    ensures R.Commits(db, R.Publish(id, token)) && Published(db, R.Perform(db, R.Publish(id, token)).db, id)
  {
    hide V.VaultOk, C.Resolve, C.PublishVersion;
    R.PublishSucceedsExactly(db, id, token);
    I.PublishedResolves(db, id, token);
    R.CommittedCallsTransition(db, R.Publish(id, token));
    R.CallMovesRowsForward(db, R.Publish(id, token));
  }

  lemma FinishGoes(db: Db, id: nat, token: nat, code: string, sent: bool)
    requires V.VaultOk(db) && db.now < Until(db, id) && 0 < |code| <= 64
    requires Leased(db, id, token, Changing) || (!sent && Leased(db, id, token, Prepared))
    ensures var call := if sent then R.RejectChange(id, token, code) else R.FinishUnsent(id, token, code);
      R.Commits(db, call) && ClosedWith(db, R.Perform(db, call).db, id, code)
  {
    assert V.Held(db, db.executions[id]);
    assert id in db.audits;
    var c := E.FinishUnchanged(db, id, token, code, sent);
    assert c.reply.Ok? && c.db.owners == db.owners && c.db.versions == db.versions;
  }

  lemma PreserveGoes(db: Db, id: nat, token: nat)
    requires V.VaultOk(db) && Leased(db, id, token, Unknown) && db.now < Until(db, id)
    ensures R.Commits(db, R.PreserveOriginal(id, token))
    ensures ClosedWith(db, R.Perform(db, R.PreserveOriginal(id, token)).db, id, "original_verified")
  {
    R.PreserveOriginalSucceedsExactly(db, id, token);
    I.PreserveLeavesResolution(World(db, map[], map[], map[], map[]), id, token);
    assert V.Held(db, db.executions[id]);
    hide V.VaultOk, C.Resolve;
  }

  // ---- Gaps ----

  lemma NextForward(w: World, e: Event)
    ensures w.db.now <= Next(w, e).db.now
  {
    hide MayWork, SecretsReadable, R.Perform, R.Commits, RemoteAfter, AfterCall;
    match e
    case Outside(call) => CallForward(w.db, call);
    case Start(token, id, mode) => CallForward(w.db, R.Claim(id, token, mode != Change));
    case Before(token, _) => if token in w.executors { CallForward(w.db, R.BeforeChange(w.executors[token].execution, token)); }
    case Record(token, code) =>
      if token in w.executors && NextCall(w.executors[token], token, code).Some? {
        CallForward(w.db, NextCall(w.executors[token], token, code).value);
      }
    case _ =>
  }

  lemma CallForward(db: Db, call: R.Call)
    ensures db.now <= R.Perform(db, call).db.now
  {
    hide C.CreateOwner, C.UpdateCredential, C.Adopt, C.RemoveManagement, C.SetEnabled, T.Apply, E.BindingRefusal,
         E.InputComplete, E.LeaseRefusal, C.Readable, C.PublishVersion;
  }

  lemma {:induction false} RunForward(start: World, history: seq<Event>, all: seq<Event>)
    requires history <= all
    ensures Run(start, history).db.now <= Run(start, all).db.now
    decreases |all|
  {
    hide Next;
    if history == all {
      assert history == all;
    } else {
      var n := |all| - 1;
      assert history <= all[..n];
      RunForward(start, history, all[..n]);
      NextForward(Run(start, all[..n]), all[n]);
    }
  }

  /** What a gap leaves of the case, for an executor that is alone with it. */
  lemma GapKeeps(start: World, history: seq<Event>, gap: seq<Event>, all: seq<Event>, from: nat, token: nat, id: nat)
    requires from <= |history| && history + gap <= all && Spares(gap, token) && Alone(start, all, from, token, id)
    requires var db := Run(start, history).db;
      V.VaultOk(db) && id in db.executions && db.executions[id].activeAccount.Some?
    ensures var db, after := Run(start, history).db, Run(start, history + gap).db;
      && SameCase(db, after, id) && after.executions[id] == db.executions[id] && Until(after, id) == Until(db, id)
      && (forall state :: Leased(db, id, token, state) ==> Leased(after, id, token, state))
      && db.now <= after.now <= Run(start, all).db.now
  {
    var db, after := Run(start, history).db, Run(start, history + gap).db;
    hide Run, MayWork, C.Resolve, StakeOf, V.VaultOk;
    GapIsSpared(start, history, gap, all, from, token, id);
    SparedIsSameCase(db, after, id);
    RunForward(start, history, history + gap);
    RunForward(start, history + gap, all);
  }

  lemma SecretsAreReadable(db: Db, id: nat, x: Executor)
    requires V.VaultOk(db) && id in db.executions && db.executions[id].activeAccount.Some?
    ensures SecretsReadable(db, db.executions[id], x)
  {
    assert V.Held(db, db.executions[id]);
  }
}
