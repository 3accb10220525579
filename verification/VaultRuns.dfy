/** Arbitrary sequences of repository calls, by any number of callers, with the clock moving between them. */
module VaultRuns {
  import opened Basics
  import opened Tables
  import C = CredentialSpec
  import E = ExecutionSpec
  import T = TargetSpec
  import opened VaultInvariant

  datatype Call =
    | Prepare(input: E.PrepareInput, candidate: Material, newId: nat, newVersion: nat)
    | Claim(id: nat, owner: nat, reconcile: bool)
    | BeforeChange(id: nat, owner: nat)
    | ChangeResult(id: nat, owner: nat, changed: bool)
    | CandidateResult(id: nat, owner: nat, verified: bool)
    | Publish(id: nat, owner: nat)
    | FinishUnsent(id: nat, owner: nat, code: string)
    | RejectChange(id: nat, owner: nat, code: string)
    | PreserveOriginal(id: nat, owner: nat)
    | CreateOwner(who: Owner, auth: AuthType, secret: Material, newVersion: nat)
    | UpdateCredential(who: Owner, edit: C.Edit, newVersion: nat)
    | Adopt(account: nat, newVersion: nat)
    | RemoveManagement(account: nat, revision: nat)
    | SetEnabled(account: nat, revision: nat, enabled: bool, assetPresent: bool)
    | Retarget(change: T.Change)
    | DeleteOwner(who: Owner, allowed: bool)
    | Tick(elapsed: nat)

  ghost function Perform(db: Db, call: Call): Commit {
    match call
    case Prepare(input, candidate, newId, newVersion) => E.Prepare(db, input, candidate, newId, newVersion)
    case Claim(id, owner, reconcile) => E.Claim(db, id, owner, reconcile)
    case BeforeChange(id, owner) => E.BeforeChange(db, id, owner)
    case ChangeResult(id, owner, changed) => E.ChangeResult(db, id, owner, changed)
    case CandidateResult(id, owner, verified) => E.CandidateResult(db, id, owner, verified)
    case Publish(id, owner) => E.Publish(db, id, owner)
    case FinishUnsent(id, owner, code) => E.FinishUnchanged(db, id, owner, code, false)
    case RejectChange(id, owner, code) => E.FinishUnchanged(db, id, owner, code, true)
    case PreserveOriginal(id, owner) => E.PreserveOriginal(db, id, owner)
    case CreateOwner(who, auth, secret, newVersion) => C.CreateOwner(db, who, auth, secret, newVersion)
    case UpdateCredential(who, edit, newVersion) => C.UpdateCredential(db, who, edit, newVersion)
    case Adopt(account, newVersion) => C.Adopt(db, account, newVersion)
    case RemoveManagement(account, revision) => C.RemoveManagement(db, account, revision)
    case SetEnabled(account, revision, enabled, assetPresent) => C.SetEnabled(db, account, revision, enabled, assetPresent)
    case Retarget(change) => T.Apply(db, change)
    case DeleteOwner(who, allowed) => T.DeleteOwner(db, who, allowed)
    case Tick(elapsed) => Commit(db.(now := db.now + elapsed), Ok(0))
  }

  ghost predicate Commits(db: Db, call: Call) {
    Perform(db, call).reply.Ok?
  }

  ghost function Run(db: Db, calls: seq<Call>): Db {
    if calls == [] then db else Perform(Run(db, calls[..|calls| - 1]), calls[|calls| - 1]).db
  }

  lemma CallKeepsVault(db: Db, call: Call)
    requires VaultOk(db)
    ensures VaultOk(Perform(db, call).db)
  {
    hide VaultOk, E.Prepare, E.Claim, E.BeforeChange, E.ChangeResult, E.CandidateResult, E.Publish, E.FinishUnchanged,
         E.PreserveOriginal;
    match call
    case Prepare(input, candidate, newId, newVersion) => PrepareKeeps(db, input, candidate, newId, newVersion);
    case Claim(id, owner, reconcile) => ClaimKeeps(db, id, owner, reconcile);
    case BeforeChange(id, owner) => BeforeChangeKeeps(db, id, owner);
    case ChangeResult(id, owner, changed) => ChangeResultKeeps(db, id, owner, changed);
    case CandidateResult(id, owner, verified) => CandidateResultKeeps(db, id, owner, verified);
    case Publish(id, owner) => PublishKeeps(db, id, owner);
    case FinishUnsent(id, owner, code) => FinishUnchangedKeeps(db, id, owner, code, false);
    case RejectChange(id, owner, code) => FinishUnchangedKeeps(db, id, owner, code, true);
    case PreserveOriginal(id, owner) => PreserveOriginalKeeps(db, id, owner);
    case CreateOwner(who, auth, secret, newVersion) => CreateOwnerKeeps(db, who, auth, secret, newVersion);
    case UpdateCredential(who, edit, newVersion) => UpdateCredentialKeeps(db, who, edit, newVersion);
    case Adopt(account, newVersion) => AdoptKeeps(db, account, newVersion);
    case RemoveManagement(account, revision) => RemoveManagementKeeps(db, account, revision);
    case SetEnabled(account, revision, enabled, assetPresent) => SetEnabledKeeps(db, account, revision, enabled, assetPresent);
    case Retarget(change) => OtherTablesKeep(db, Perform(db, call).db);
    case DeleteOwner(who, allowed) => DeletionKeeps(db, who, allowed);
    case Tick(elapsed) => OtherTablesKeep(db, Perform(db, call).db);
  }

  /** The mark changes no column an invariant speaks about. */
  lemma DeletionKeeps(db: Db, who: Owner, allowed: bool)
    requires VaultOk(db)
    ensures VaultOk(T.DeleteOwner(db, who, allowed).db)
  {
    var after := T.DeleteOwner(db, who, allowed).db;
    forall id | id in after.executions && after.executions[id].activeAccount.Some?
      ensures Held(after, after.executions[id])
    {
      assert Held(db, db.executions[id]);
    }
  }

  lemma OtherTablesKeep(db: Db, after: Db)
    requires VaultOk(db) && after == db.(bindings := after.bindings, assets := after.assets, now := after.now)
    ensures VaultOk(after)
  {
    forall id | id in after.executions && after.executions[id].activeAccount.Some?
      ensures Held(after, after.executions[id])
    {
      assert Held(db, db.executions[id]);
    }
  }

  lemma {:induction false} RunKeepsVault(db: Db, calls: seq<Call>)
    requires VaultOk(db)
    ensures VaultOk(Run(db, calls))
  {
    if calls != [] {
      RunKeepsVault(db, calls[..|calls| - 1]);
      CallKeepsVault(Run(db, calls[..|calls| - 1]), calls[|calls| - 1]);
    }
  }

  // ---- The compare-and-swaps cannot fail for a live lease holder in the right state ----

  lemma PublishSucceedsExactly(db: Db, id: nat, owner: nat)
    requires VaultOk(db)
    ensures E.Publish(db, id, owner).reply.Ok? <==>
      && id in db.executions
      && (|| db.executions[id].state == Completed
          || (&& owner != 0 && E.HoldsLease(db.executions[id], owner, db.now) && db.executions[id].state == Verified
              && Exists(db, Account(db.executions[id].account))))
  {
    if id in db.executions && E.HoldsLease(db.executions[id], owner, db.now) && db.executions[id].state == Verified {
      var row := db.executions[id];
      assert Held(db, row) && RowConsistent(row);
      C.PublishIsCompareAndSwap(db, Account(row.account), db.owners[Account(row.account)].auth, row.previous, row.candidate);
    }
  }

  lemma PreserveOriginalSucceedsExactly(db: Db, id: nat, owner: nat)
    requires VaultOk(db)
    ensures E.PreserveOriginal(db, id, owner).reply.Ok? <==>
      && owner != 0 && id in db.executions && E.HoldsLease(db.executions[id], owner, db.now)
      && db.executions[id].state == Unknown && Exists(db, Account(db.executions[id].account))
  {
    if id in db.executions && E.HoldsLease(db.executions[id], owner, db.now) {
      assert Held(db, db.executions[id]);
    }
  }

  /** Only an account or binding edited since Prepare can refuse the first live holder; the candidate cannot be gone. */
  lemma BeforeChangeSucceedsExactly(db: Db, id: nat, owner: nat)
    requires VaultOk(db)
    ensures E.BeforeChange(db, id, owner).reply.Ok? <==>
      && owner != 0 && id in db.executions && E.HoldsLease(db.executions[id], owner, db.now)
      && var row := db.executions[id];
         && row.state == Prepared
         && Exists(db, Account(row.account))
         && db.owners[Account(row.account)].enabled
         && db.owners[Account(row.account)].revision == row.accountRevision
         && E.BindingRefusal(db, row.binding, row.bindingRevision, row.account).None?
  {
    if id in db.executions && E.HoldsLease(db.executions[id], owner, db.now) {
      assert Held(db, db.executions[id]);
    }
  }

  // ---- Rows and versions only move forward ----

  /** What a row may have become after any number of calls. */
  predicate RowLater(a: Execution, b: Execution) {
    && b.account == a.account && b.creator == a.creator && b.key == a.key && b.intent == a.intent && b.action == a.action
    && b.accountRevision == a.accountRevision && b.binding == a.binding && b.bindingRevision == a.bindingRevision
    && b.scope == a.scope && b.previous == a.previous && b.candidate == a.candidate
    && a.revision <= b.revision
    && (a.sendStartedAt.Some? ==> b.sendStartedAt == a.sendStartedAt)
    && (a.state != Prepared ==> b.state != Prepared)
    && (Terminal(a.state) ==> b == a)
  }

  ghost predicate RowsLater(before: Db, after: Db) {
    forall id :: id in before.executions ==> id in after.executions && RowLater(before.executions[id], after.executions[id])
  }

  /** Every transaction of the execution repository saves at most one existing row, and only an active one. */
  lemma StepsSaveOneActiveRow(db: Db, id: nat, owner: nat, flag: bool)
    requires RowsConsistent(db)
    ensures OneRowForward(db, E.Claim(db, id, owner, flag).db, id)
    ensures OneRowForward(db, E.BeforeChange(db, id, owner).db, id)
  {
    hide E.BindingRefusal;
  }

  lemma ResultsSaveOneActiveRow(db: Db, id: nat, owner: nat, flag: bool)
    requires RowsConsistent(db)
    ensures OneRowForward(db, E.ChangeResult(db, id, owner, flag).db, id)
    ensures OneRowForward(db, E.CandidateResult(db, id, owner, flag).db, id)
  {
  }

  lemma FinishesSaveOneActiveRow(db: Db, id: nat, owner: nat, flag: bool, code: string)
    requires RowsConsistent(db)
    ensures OneRowForward(db, E.FinishUnchanged(db, id, owner, code, flag).db, id)
    ensures OneRowForward(db, E.PreserveOriginal(db, id, owner).db, id)
  {
  }

  lemma PublishSavesOneActiveRow(db: Db, id: nat, owner: nat)
    requires RowsConsistent(db)
    ensures OneRowForward(db, E.Publish(db, id, owner).db, id)
  {
    hide C.PublishVersion;
  }

  ghost predicate OneRowForward(db: Db, after: Db, id: nat) {
    || after.executions == db.executions
    || (&& id in db.executions && id in after.executions
        && after.executions == db.executions[id := after.executions[id]]
        && RowLater(db.executions[id], after.executions[id]))
  }

  lemma OneRowIsEnough(db: Db, after: Db, id: nat)
    requires OneRowForward(db, after, id)
    ensures RowsLater(db, after)
  {
  }

  lemma PrepareAddsRow(db: Db, input: E.PrepareInput, candidate: Material, newId: nat, newVersion: nat)
    ensures RowsLater(db, E.Prepare(db, input, candidate, newId, newVersion).db)
  {
  }

  lemma PrepareAddsUnsentRow(db: Db, call: Call)
    requires call.Prepare?
    ensures var after := Perform(db, call).db;
      || after == db
      || (call.newId !in db.executions
          && after.executions == db.executions[call.newId := after.executions[call.newId]]
          && after.executions[call.newId].state == Prepared && after.executions[call.newId].sendStartedAt.None?)
  {
  }

  predicate WritesOneRow(call: Call) {
    call.Claim? || call.BeforeChange? || call.ChangeResult? || call.CandidateResult? || call.Publish?
    || call.FinishUnsent? || call.RejectChange? || call.PreserveOriginal?
  }

  lemma CallSavesOneRow(db: Db, call: Call)
    requires VaultOk(db) && WritesOneRow(call)
    ensures OneRowForward(db, Perform(db, call).db, call.id)
  {
    match call
    case Claim(id, owner, reconcile) => StepsSaveOneActiveRow(db, id, owner, reconcile);
    case BeforeChange(id, owner) => StepsSaveOneActiveRow(db, id, owner, false);
    case ChangeResult(id, owner, changed) => ResultsSaveOneActiveRow(db, id, owner, changed);
    case CandidateResult(id, owner, verified) => ResultsSaveOneActiveRow(db, id, owner, verified);
    case Publish(id, owner) => PublishSavesOneActiveRow(db, id, owner);
    case FinishUnsent(id, owner, code) => FinishesSaveOneActiveRow(db, id, owner, false, code);
    case RejectChange(id, owner, code) => FinishesSaveOneActiveRow(db, id, owner, true, code);
    case PreserveOriginal(id, owner) => FinishesSaveOneActiveRow(db, id, owner, false, "");
  }

  lemma OtherCallsSaveNoRow(db: Db, call: Call)
    requires !WritesOneRow(call) && !call.Prepare?
    ensures Perform(db, call).db.executions == db.executions
  {
  }

  /** How one committed call moves its row. */
  predicate Transition(call: Call, a: Execution, b: Execution, now: int)
    requires WritesOneRow(call)
  {
    match call
    case Claim(_, owner, reconcile) =>
      && a.activeAccount.Some? && !After(a.leaseUntil, now)
      && (a.state == Prepared) != reconcile
      && b.leaseOwner == owner && owner != 0 && b.leaseUntil == Some(now + E.LEASE)
      && b.state == (if a.state == Prepared then Prepared else Unknown)
      && b.sendStartedAt == a.sendStartedAt && b.activeAccount == a.activeAccount
    case BeforeChange(_, owner) =>
      E.HoldsLease(a, owner, now) && a.state == Prepared && b.state == Changing && b.sendStartedAt == Some(now)
      && b.leaseOwner == owner && b.leaseUntil == a.leaseUntil && b.activeAccount == a.activeAccount
    case ChangeResult(_, owner, changed) =>
      E.HoldsLease(a, owner, now) && a.state == Changing && b.state == (if changed then Verifying else Unknown)
      && b.leaseOwner == owner && b.leaseUntil == a.leaseUntil && b.sendStartedAt == a.sendStartedAt && b.activeAccount == a.activeAccount
    case CandidateResult(_, owner, verified) =>
      E.HoldsLease(a, owner, now) && (a.state == Verifying || a.state == Unknown) && b.state == (if verified then Verified else Unknown)
      && b.leaseOwner == owner && b.leaseUntil == a.leaseUntil && b.sendStartedAt == a.sendStartedAt && b.activeAccount == a.activeAccount
    case Publish(_, owner) =>
      || (a.state == Completed && b == a)
      || (E.HoldsLease(a, owner, now) && a.state == Verified && b.state == Completed && b.activeAccount == None && b.sendStartedAt == a.sendStartedAt)
    case FinishUnsent(_, owner, _) =>
      E.HoldsLease(a, owner, now) && (a.state == Prepared || a.state == Changing) && b.state == Failed
      && b.activeAccount == None && b.sendStartedAt == a.sendStartedAt
    case RejectChange(_, owner, _) =>
      E.HoldsLease(a, owner, now) && a.state == Changing && b.state == Failed && b.activeAccount == None && b.sendStartedAt == a.sendStartedAt
    case PreserveOriginal(_, owner) =>
      E.HoldsLease(a, owner, now) && a.state == Unknown && b.state == Failed && b.activeAccount == None && b.sendStartedAt == a.sendStartedAt
  }

  ghost predicate MovesByTransition(db: Db, call: Call)
    requires WritesOneRow(call)
  {
    var after := Perform(db, call).db;
    && (!Commits(db, call) ==> after == db)
    && (Commits(db, call) ==>
          && call.id in db.executions && call.id in after.executions
          && after.executions == db.executions[call.id := after.executions[call.id]]
          && Transition(call, db.executions[call.id], after.executions[call.id], db.now))
  }

  lemma StepTransitions(db: Db, call: Call)
    requires call.Claim? || call.BeforeChange? || call.ChangeResult? || call.CandidateResult?
    ensures MovesByTransition(db, call)
  {
    hide E.BindingRefusal;
  }

  lemma EndTransitions(db: Db, call: Call)
    requires call.Publish? || call.FinishUnsent? || call.RejectChange? || call.PreserveOriginal?
    ensures MovesByTransition(db, call)
  {
    hide C.PublishVersion;
    if call.Publish? && Commits(db, call) && db.executions[call.id].state == Completed {
      assert db.executions == db.executions[call.id := db.executions[call.id]];
    }
  }

  lemma CommittedCallsTransition(db: Db, call: Call)
    requires WritesOneRow(call)
    ensures MovesByTransition(db, call)
  {
    hide MovesByTransition;
    if call.Claim? || call.BeforeChange? || call.ChangeResult? || call.CandidateResult? {
      StepTransitions(db, call);
    } else {
      EndTransitions(db, call);
    }
  }

  lemma CallMovesRowsForward(db: Db, call: Call)
    requires VaultOk(db)
    ensures RowsLater(db, Perform(db, call).db)
  {
    if call.Prepare? {
      PrepareAddsRow(db, call.input, call.candidate, call.newId, call.newVersion);
    } else if WritesOneRow(call) {
      CallSavesOneRow(db, call);
      OneRowIsEnough(db, Perform(db, call).db, call.id);
    } else {
      OtherCallsSaveNoRow(db, call);
      OneRowIsEnough(db, Perform(db, call).db, 0);
    }
  }

  lemma ExecutionMovesVersionsForward(db: Db, call: Call)
    requires WritesOneRow(call)
    ensures C.VersionsLater(db, Perform(db, call).db)
  {
    hide C.PublishVersion, E.LeaseRefusal, E.BindingRefusal, E.HoldsLease, C.Readable;
  }

  lemma CallMovesVersionsForward(db: Db, call: Call)
    ensures C.VersionsLater(db, Perform(db, call).db)
  {
    hide C.CreateOwner, C.UpdateCredential, C.Adopt, C.RemoveManagement, C.SetEnabled;
    if WritesOneRow(call) {
      ExecutionMovesVersionsForward(db, call);
    }
  }

  lemma {:induction false} RunMovesForward(db: Db, calls: seq<Call>)
    requires VaultOk(db)
    ensures RowsLater(db, Run(db, calls))
    ensures C.VersionsLater(db, Run(db, calls))
  {
    if calls != [] {
      var middle := Run(db, calls[..|calls| - 1]);
      RunMovesForward(db, calls[..|calls| - 1]);
      RunKeepsVault(db, calls[..|calls| - 1]);
      CallMovesRowsForward(middle, calls[|calls| - 1]);
      CallMovesVersionsForward(middle, calls[|calls| - 1]);
    }
  }

  // ---- At most one mutation is ever started ----

  /** How often BeforeChange committed for this execution along the run. */
  ghost function Starts(db: Db, calls: seq<Call>, id: nat): nat {
    if calls == [] then 0
    else
      var before := Run(db, calls[..|calls| - 1]);
      var last := calls[|calls| - 1];
      Starts(db, calls[..|calls| - 1], id) + if last.BeforeChange? && last.id == id && Commits(before, last) then 1 else 0
  }

  lemma {:induction false} AtMostOneStart(db: Db, calls: seq<Call>, id: nat)
    requires VaultOk(db)
    requires id in db.executions ==> db.executions[id].sendStartedAt.None?
    ensures var after := Run(db, calls);
      Starts(db, calls, id) == if id in after.executions && after.executions[id].sendStartedAt.Some? then 1 else 0
  {
    if calls != [] {
      var shorter := calls[..|calls| - 1];
      var before := Run(db, shorter);
      AtMostOneStart(db, shorter, id);
      RunKeepsVault(db, shorter);
      StartIsRecorded(before, calls[|calls| - 1], id);
    }
  }

  lemma RowsAreConsistent(db: Db)
    requires VaultOk(db)
    ensures RowsConsistent(db)
  {
  }

  lemma StartIsRecorded(db: Db, call: Call, id: nat)
    requires VaultOk(db)
    ensures var after := Perform(db, call).db;
      var started := id in db.executions && db.executions[id].sendStartedAt.Some?;
      && (call.BeforeChange? && call.id == id && Commits(db, call) ==>
            id in db.executions && !started && id in after.executions && after.executions[id].sendStartedAt.Some?)
      && (!(call.BeforeChange? && call.id == id && Commits(db, call)) ==>
            (id in after.executions && after.executions[id].sendStartedAt.Some? <==> started))
  {
    hide VaultOk, Perform;
    RowsAreConsistent(db);
    if call.Prepare? {
      PrepareAddsUnsentRow(db, call);
    } else if WritesOneRow(call) {
      CommittedCallsTransition(db, call);
    } else {
      OtherCallsSaveNoRow(db, call);
    }
  }

  /** Once out of prepared, never back. */
  lemma {:induction false} NeverPreparedAgain(db: Db, calls: seq<Call>, id: nat)
    requires VaultOk(db) && id in db.executions && db.executions[id].state != Prepared
    ensures id in Run(db, calls).executions && Run(db, calls).executions[id].state != Prepared
  {
    RunMovesForward(db, calls);
  }

  // ---- Nothing is published on a verification from another claim ----

  ghost predicate CommittedAt(db: Db, calls: seq<Call>, k: int)
    requires 0 <= k < |calls|
  {
    Commits(Run(db, calls[..k]), calls[k])
  }

  /** Call k recorded a verified candidate for `owner`, and the execution has not been claimed since. */
  ghost predicate VerifiedSince(db: Db, calls: seq<Call>, id: nat, owner: nat, k: int) {
    && 0 <= k < |calls|
    && calls[k] == CandidateResult(id, owner, true)
    && CommittedAt(db, calls, k)
    && forall j :: k < j < |calls| && calls[j].Claim? && calls[j].id == id ==> !CommittedAt(db, calls, j)
  }

  lemma WhoVerifies(db: Db, call: Call, id: nat)
    requires VaultOk(db)
    requires id in Perform(db, call).db.executions && Perform(db, call).db.executions[id].state == Verified
    ensures var owner := Perform(db, call).db.executions[id].leaseOwner;
      || (call == CandidateResult(id, owner, true) && Commits(db, call))
      || (&& id in db.executions && db.executions[id].state == Verified && db.executions[id].leaseOwner == owner
          && !(call.Claim? && call.id == id && Commits(db, call)))
  {
    hide VaultOk, Perform;
    if call.Prepare? {
      PrepareAddsUnsentRow(db, call);
    } else if WritesOneRow(call) {
      CommittedCallsTransition(db, call);
    } else {
      OtherCallsSaveNoRow(db, call);
    }
  }

  /** Looking one call further changes nothing about the calls before it. */
  lemma VerifiedSinceExtends(db: Db, calls: seq<Call>, id: nat, owner: nat, k: int)
    requires calls != [] && VerifiedSince(db, calls[..|calls| - 1], id, owner, k)
    requires var n := |calls| - 1; calls[n].Claim? && calls[n].id == id ==> !Commits(Run(db, calls[..n]), calls[n])
    ensures VerifiedSince(db, calls, id, owner, k)
  {
    var n := |calls| - 1;
    var shorter := calls[..n];
    assert shorter[..k] == calls[..k];
    forall j | k < j < |calls| && calls[j].Claim? && calls[j].id == id
      ensures !CommittedAt(db, calls, j)
    {
      if j < n {
        assert shorter[..j] == calls[..j];
        assert !CommittedAt(db, shorter, j);
      }
    }
  }

  lemma {:induction false} VerifiedUnderThisClaim(db: Db, calls: seq<Call>, id: nat) returns (k: int)
    requires VaultOk(db) && (id in db.executions ==> db.executions[id].state != Verified)
    requires id in Run(db, calls).executions && Run(db, calls).executions[id].state == Verified
    ensures VerifiedSince(db, calls, id, Run(db, calls).executions[id].leaseOwner, k)
    decreases |calls|
  {
    var n := |calls| - 1;
    var shorter := calls[..n];
    var owner := Run(db, calls).executions[id].leaseOwner;
    RunKeepsVault(db, shorter);
    WhoVerifies(Run(db, shorter), calls[n], id);
    if calls[n] == CandidateResult(id, owner, true) && Commits(Run(db, shorter), calls[n]) {
      k := n;
    } else {
      k := VerifiedUnderThisClaim(db, shorter, id);
      VerifiedSinceExtends(db, calls, id, owner, k);
    }
  }

  /** A publish that completes an execution was preceded, under the same claim, by its own candidate verification. */
  lemma {:induction false} PublishedOnOwnVerification(db: Db, calls: seq<Call>, id: nat, owner: nat) returns (k: int)
    requires VaultOk(db) && (id in db.executions ==> db.executions[id].state != Verified)
    requires E.Publish(Run(db, calls), id, owner).reply.Ok? && Run(db, calls).executions[id].state != Completed
    ensures VerifiedSince(db, calls, id, owner, k)
  {
    RunKeepsVault(db, calls);
    PublishSucceedsExactly(Run(db, calls), id, owner);
    k := VerifiedUnderThisClaim(db, calls, id);
  }

  // ---- An uncertain execution is never unlocked by the passage of time ----

  /** The four calls that end an execution. */
  predicate Closes(call: Call, id: nat, owner: nat) {
    || call == Publish(id, owner)
    || call == PreserveOriginal(id, owner)
    || (call.FinishUnsent? && call.id == id && call.owner == owner)
    || (call.RejectChange? && call.id == id && call.owner == owner)
  }

  /** The active slot is set exactly in the five non-terminal states, and only a live lease holder's closing call clears it. */
  lemma {:induction false} OnlyLiveHolderCloses(db: Db, call: Call, id: nat)
    requires VaultOk(db) && id in db.executions && db.executions[id].activeAccount.Some?
    ensures id in Perform(db, call).db.executions
    ensures var row := Perform(db, call).db.executions[id];
      && (row.activeAccount == Some(row.account) <==> !Terminal(row.state))
      && (row.activeAccount.None? ==>
            var owner := db.executions[id].leaseOwner;
            Closes(call, id, owner) && E.HoldsLease(db.executions[id], owner, db.now))
  {
    hide VaultOk, Perform;
    CallKeepsVault(db, call);
    RowsAreConsistent(Perform(db, call).db);
    if call.Prepare? {
      PrepareAddsUnsentRow(db, call);
    } else if WritesOneRow(call) {
      CommittedCallsTransition(db, call);
    } else {
      OtherCallsSaveNoRow(db, call);
    }
  }

  // ---- Version lifecycle and idempotent preparation ----

  /** Per owner at most one version is active, and it is the owner's reference; none when the reference is empty. */
  lemma {:induction false} ActiveVersionIsTheReference(db: Db, calls: seq<Call>, v: nat)
    requires VaultOk(db)
    ensures var after := Run(db, calls);
      v in after.versions ==>
        (after.versions[v].state == Active <==>
          after.versions[v].owner in after.owners && after.owners[after.versions[v].owner].reference == v)
  {
    RunKeepsVault(db, calls);
    var after := Run(db, calls);
    if v in after.versions && after.versions[v].owner in after.owners && after.owners[after.versions[v].owner].reference == v {
      assert C.Readable(after, after.versions[v].owner, v, Active);
    }
  }

  predicate Answers(row: Execution, input: E.PrepareInput) {
    E.SameKey(row, input) && row.intent == input.intent && row.account == input.account && row.action == input.action
  }

  lemma PreparedAnswers(db: Db, input: E.PrepareInput, candidate: Material, newId: nat, newVersion: nat)
    requires E.Prepare(db, input, candidate, newId, newVersion).reply.Ok?
    ensures var first := E.Prepare(db, input, candidate, newId, newVersion);
      first.reply.id in first.db.executions && Answers(first.db.executions[first.reply.id], input)
  {
    hide E.BindingRefusal, HasActiveExecution;
  }

  lemma AnswerIsReplayed(db: Db, input: E.PrepareInput, candidate: Material, newId: nat, newVersion: nat, id: nat)
    requires VaultOk(db) && id in db.executions && Answers(db.executions[id], input)
    requires E.InputComplete(input, candidate) && Exists(db, Account(input.account)) && db.owners[Account(input.account)].managed
    ensures E.Prepare(db, input, candidate, newId, newVersion) == Commit(db, Ok(id))
  {
    hide CredentialsOk, E.BindingRefusal, HasActiveExecution, E.InputComplete;
    assert E.RowOfKey(db, input) == id;
  }

  /** A prepared request can be replayed at any later time: same execution, nothing changed. */
  lemma {:induction false} PrepareReplays(db: Db, input: E.PrepareInput, candidate: Material, newId: nat, newVersion: nat,
                       calls: seq<Call>, candidate2: Material, id2: nat, version2: nat)
    requires VaultOk(db) && E.Prepare(db, input, candidate, newId, newVersion).reply.Ok?
    requires var later := Run(E.Prepare(db, input, candidate, newId, newVersion).db, calls);
      E.InputComplete(input, candidate2) && Exists(later, Account(input.account)) && later.owners[Account(input.account)].managed
    ensures var first := E.Prepare(db, input, candidate, newId, newVersion);
      var later := Run(first.db, calls);
      E.Prepare(later, input, candidate2, id2, version2) == Commit(later, first.reply)
  {
    hide VaultOk, Run, E.Prepare, C.VersionsLater;
    var first := E.Prepare(db, input, candidate, newId, newVersion);
    var later := Run(first.db, calls);
    PrepareKeeps(db, input, candidate, newId, newVersion);
    PreparedAnswers(db, input, candidate, newId, newVersion);
    RunMovesForward(first.db, calls);
    RunKeepsVault(first.db, calls);
    AnswerIsReplayed(later, input, candidate2, id2, version2, first.reply.id);
  }
}
