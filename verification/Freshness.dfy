/** The no-lock-out theorem needs the prepared candidate to be a new secret. The code never compares a supplied
 password with the current one, so this is shown to be exactly the missing condition. */
module Freshness {
  import opened Basics
  import opened Tables
  import C = CredentialSpec
  import E = ExecutionSpec
  import V = VaultInvariant
  import R = VaultRuns
  import T = TargetSpec
  import VaultResolution
  import opened PasswordProtocol
  import opened ProtocolInvariant
  import opened NoLockOutTheorem
  import opened TargetInvariant
  import opened HolderPositions
  import Stranded = StrandedExecutions

  /** The account exists, and the execution's two versions and the remote system share one secret. */
  ghost predicate Indistinct(w: World, id: nat) {
    && V.VaultOk(w.db)
    && id in w.db.executions
    && var row := w.db.executions[id];
       && row.previous in w.db.versions && row.candidate in w.db.versions
       && w.db.versions[row.previous].secret == w.db.versions[row.candidate].secret
       && Account(row.account) in w.remote && Exists(w.db, Account(row.account))
       && w.remote[Account(row.account)] == w.db.versions[row.candidate].secret
  }

  /** Ready for its first executor: prepared, never leased, and any work on it would be let through. */
  ghost predicate Startable(w: World, id: nat) {
    && Indistinct(w, id)
    && var row := w.db.executions[id];
       && row.state == Prepared && row.activeAccount == Some(row.account) && row.leaseUntil.None?
       && MayWork(w.db, id, Change) && MayWork(w.db, id, Reconcile)
  }

  /** Its mutation is on the way and its lease has run out. */
  ghost predicate Lingering(w: World, id: nat, t: nat) {
    && Indistinct(w, id)
    && t in w.executors && w.executors[t].execution == id && t in w.flights && w.flights[t] == InFlight
    && var row := w.db.executions[id];
       && row.state == Changing && row.activeAccount == Some(row.account) && !After(row.leaseUntil, w.db.now)
       && MayWork(w.db, id, Reconcile)
  }

  /** Published while its mutation is still on the way. */
  ghost predicate PublishedTooEarly(w: World, id: nat, t: nat) {
    && Indistinct(w, id)
    && t in w.executors && w.executors[t].execution == id && t in w.flights && w.flights[t] == InFlight
    && var row := w.db.executions[id];
       && row.state == Completed
       && Account(row.account) in w.db.owners
       && w.db.owners[Account(row.account)].auth == PasswordAuth
       && w.db.owners[Account(row.account)].managed
       && w.db.owners[Account(row.account)].reference == row.candidate
       && C.Readable(w.db, Account(row.account), row.candidate, Active)
       && w.db.versions[row.candidate].secret.Password?
       && !HasActiveExecution(w.db, row.account)
  }

  lemma RowIsConsistent(w: World, id: nat)
    requires Indistinct(w, id)
    ensures V.RowConsistent(w.db.executions[id])
  {
  }

  lemma RowIsHeld(w: World, id: nat)
    requires Indistinct(w, id) && w.db.executions[id].activeAccount.Some?
    ensures var row := w.db.executions[id];
      C.Readable(w.db, Account(row.account), row.previous, Active) && C.Readable(w.db, Account(row.account), row.candidate, Pending)
  {
    assert V.Held(w.db, w.db.executions[id]);
    assert C.Readable(w.db, Account(w.db.executions[id].account), w.db.executions[id].previous, Active);
  }

  /** The world after an authorisation and the claim that follows it. */
  ghost function Begun(w: World, id: nat, t: nat, mode: Mode): World {
    Next(Next(w, Clear(t, id, mode, true)), Start(t, id, mode))
  }

  /** An executor can begin: a new token, the lease free, the tables in favour. */
  ghost predicate CanBegin(w: World, id: nat, t: nat, mode: Mode) {
    && Indistinct(w, id) && t != 0 && t !in w.executors && t !in w.cleared && id != 0 && mode != KeepOriginal
    && MayWork(w.db, id, mode)
    && var row := w.db.executions[id];
       row.activeAccount.Some? && !After(row.leaseUntil, w.db.now) && (row.state == Prepared <==> mode == Change)
  }

  lemma BeginStep(w: World, id: nat, t: nat, mode: Mode)
    requires CanBegin(w, id, t, mode)
    ensures var u := Begun(w, id, t, mode);
      && Indistinct(u, id)
      && u == w.(db := u.db, executors := w.executors[t := Executor(id, mode, mode == Change, false, Claimed)])
      && u.db == w.db.(executions := w.db.executions[id := u.db.executions[id]])
      && u.db.executions[id] == w.db.executions[id].(state := if mode == Change then Prepared else Unknown,
            leaseOwner := t, leaseUntil := Some(w.db.now + E.LEASE), revision := w.db.executions[id].revision + 1)
  {
    hide V.VaultOk, MayWork, E.HoldsLease, NextCall, SecretsReadable, Granted, OutsideCall, RemoteAfter, T.MayWork,
         E.BindingRefusal, E.LeaseRefusal, C.Readable;
    RowIsConsistent(w, id);
    var v := Next(w, Clear(t, id, mode, true));
    assert v == w.(cleared := w.cleared[t := Clearance(id, mode)]);
    assert v.cleared - {t} == w.cleared;
    NextKeepsVault(v, Start(t, id, mode));
  }

  /** Authorised and able to read its secrets. */
  lemma ReadStep(w: World, id: nat, t: nat)
    requires Indistinct(w, id) && Is(w, t, Claimed) && w.executors[t].execution == id && w.executors[t].mode != KeepOriginal
    requires w.db.executions[id].activeAccount.Some? && MayWork(w.db, id, w.executors[t].mode)
    ensures Next(Next(w, Authorize(t, true)), Read(t)) == At(w, t, if w.executors[t].fromPrepared then Ready else Pc.Verifying)
  {
    hide V.VaultOk;
    RowIsHeld(w, id);
    var u := At(w, t, Authorized);
    assert Next(w, Authorize(t, true)) == u;
    assert u.executors[t := u.executors[t].(pc := if w.executors[t].fromPrepared then Ready else Pc.Verifying)]
        == w.executors[t := w.executors[t].(pc := if w.executors[t].fromPrepared then Ready else Pc.Verifying)];
  }

  lemma ArmStep(w: World, id: nat, t: nat)
    requires Indistinct(w, id) && Is(w, t, Ready) && w.executors[t].execution == id
    requires E.BeforeChange(w.db, id, t).reply.Ok? && MayWork(w.db, id, w.executors[t].mode)
    ensures var u := Next(w, Before(t, true));
      && Indistinct(u, id)
      && u == w.(db := u.db, executors := w.executors[t := w.executors[t].(pc := Armed, committed := true)])
      && u.db == w.db.(executions := w.db.executions[id := u.db.executions[id]])
      && u.db.executions[id] == w.db.executions[id].(state := Changing, sendStartedAt := Some(w.db.now),
                                                     revision := w.db.executions[id].revision + 1)
  {
    hide V.VaultOk;
    NextKeepsVault(w, Before(t, true));
  }

  lemma SendStep(w: World, id: nat, t: nat)
    requires Indistinct(w, id) && Is(w, t, Armed)
    ensures var u := Next(w, Send(t));
      Indistinct(u, id) && u == At(w, t, Sent).(flights := w.flights[t := InFlight])
  {
    hide V.VaultOk;
  }

  lemma TickStep(w: World, id: nat, elapsed: nat)
    requires Indistinct(w, id)
    ensures var u := Next(w, Outside(R.Tick(elapsed)));
      Indistinct(u, id) && u == w.(db := w.db.(now := w.db.now + elapsed))
  {
    hide V.VaultOk;
    NextKeepsVault(w, Outside(R.Tick(elapsed)));
  }

  /** The first executor sends and is never heard of again; its lease runs out. */
  lemma SendAndLinger(w: World, id: nat) returns (events: seq<Event>, t: nat)
    requires Startable(w, id)
    ensures AssumedThroughout(w, events) && Lingering(Run(w, events), id, t)
  {
    hide Next, Run, AssumedThroughout, V.VaultOk, E.BeforeChange;
    events, t := FirstRead(w, id);
    var w2 := Run(w, events);
    ArmStep(w2, id, t);
    Extend(w, events, Before(t, true));
    events := events + [Before(t, true)];
    var w3 := Run(w, events);
    SendStep(w3, id, t);
    Extend(w, events, Send(t));
    events := events + [Send(t)];
    var w4 := Run(w, events);
    TickStep(w4, id, E.LEASE);
    Extend(w, events, Outside(R.Tick(E.LEASE)));
    events := events + [Outside(R.Tick(E.LEASE))];
  }

  lemma IdIsNonzero(w: World, id: nat)
    requires Indistinct(w, id)
    ensures id != 0
  {
  }

  /** A new executor claims, is authorised and reads its secrets. */
  lemma ClaimAndRead(w: World, id: nat, t: nat, mode: Mode)
    requires CanBegin(w, id, t, mode)
    ensures AssumedThroughout(w, FirstSteps(t, id, mode)) && Is(Begun(w, id, t, mode), t, Claimed)
    ensures Run(w, FirstSteps(t, id, mode)) == At(Begun(w, id, t, mode), t, if mode == Change then Ready else Pc.Verifying)
  {
    hide Next, Run, AssumedThroughout, V.VaultOk;
    BeginStep(w, id, t, mode);
    ReadStep(Begun(w, id, t, mode), id, t);
    var s := FirstSteps(t, id, mode);
    assert s == [] + [s[0]] + [s[1]] + [s[2]] + [s[3]];
    EmptyRun(w);
    Extend(w, [], s[0]);
    Extend(w, [] + [s[0]], s[1]);
    Extend(w, [] + [s[0]] + [s[1]], s[2]);
    Extend(w, [] + [s[0]] + [s[1]] + [s[2]], s[3]);
  }

  function FirstSteps(t: nat, id: nat, mode: Mode): seq<Event> {
    [Clear(t, id, mode, true), Start(t, id, mode), Authorize(t, true), Read(t)]
  }

  lemma FirstRead(w: World, id: nat) returns (events: seq<Event>, t: nat)
    requires Startable(w, id)
    ensures AssumedThroughout(w, events)
    ensures var u := Run(w, events);
      && Indistinct(u, id) && t != 0 && Is(u, t, Ready) && u.executors[t].execution == id
      && E.BeforeChange(u.db, id, t).reply.Ok? && MayWork(u.db, id, u.executors[t].mode) && MayWork(u.db, id, Reconcile)
      && u.db.executions[id].activeAccount == Some(u.db.executions[id].account)
      && u.db.executions[id].leaseUntil == Some(u.db.now + E.LEASE)
  {
    hide Next, Run, AssumedThroughout, V.VaultOk, E.BeforeChange;
    IdIsNonzero(w, id);
    t := Unused(w.executors.Keys + w.flights.Keys + w.cleared.Keys);
    events := FirstSteps(t, id, Change);
    ClaimAndRead(w, id, t, Change);
    BeginStep(w, id, t, Change);
    R.BeforeChangeSucceedsExactly(Run(w, events).db, id, t);
  }

  lemma CandidateDb(db: Db, id: nat, s: nat)
    requires V.VaultOk(db) && id in db.executions && s != 0
    requires db.executions[id].state == Unknown && E.HoldsLease(db.executions[id], s, db.now)
    requires Exists(db, Account(db.executions[id].account))
    ensures var row := db.executions[id];
      E.CandidateResult(db, id, s, true) ==
        Commit(E.SaveExecution(db, id, row.(state := Verified, verifiedAt := Some(db.now), errorCode := "")), Ok(id))
  {
    assert V.Held(db, db.executions[id]);
  }

  lemma CandidateStep(w: World, id: nat, s: nat)
    requires Indistinct(w, id) && Is(w, s, Seen(true)) && w.executors[s].execution == id && w.executors[s].mode == Reconcile && s != 0
    requires w.db.executions[id].state == Unknown && E.HoldsLease(w.db.executions[id], s, w.db.now)
    ensures var u := Next(w, Record(s, ""));
      && Indistinct(u, id)
      && u == At(w, s, Publishing).(db := E.SaveExecution(w.db, id,
           w.db.executions[id].(state := Verified, verifiedAt := Some(w.db.now), errorCode := "")))
  {
    hide V.VaultOk, E.CandidateResult;
    CandidateDb(w.db, id, s);
    NextKeepsVault(w, Record(s, ""));
    assert NextCall(w.executors[s], s, "") == Some(R.CandidateResult(id, s, true));
  }

  /** The published store: completed row, candidate active and referenced, account free. */
  lemma PublishDb(db: Db, id: nat, s: nat)
    requires V.VaultOk(db) && id in db.executions && s != 0 && Exists(db, Account(db.executions[id].account))
    requires db.executions[id].state == Verified && E.HoldsLease(db.executions[id], s, db.now)
    ensures var row := db.executions[id];
      var account := Account(row.account);
      var c := E.Publish(db, id, s);
      && c.reply.Ok?
      && c.db.executions == db.executions[id := c.db.executions[id]]
      && c.db.executions[id].state == Completed && c.db.executions[id].account == row.account
      && c.db.executions[id].candidate == row.candidate && c.db.executions[id].previous == row.previous
      && c.db.versions == C.Swapped(db.versions, row.previous, row.candidate)
      && account in db.owners && account in c.db.owners
      && c.db.owners[account] == db.owners[account].(reference := row.candidate,
           credentialRevision := db.owners[account].credentialRevision + 1, legacy := None)
      && db.owners[account].managed && db.owners[account].auth == PasswordAuth
      && C.Readable(db, account, row.candidate, Pending) && db.versions[row.candidate].secret.Password?
  {
    var row := db.executions[id];
    assert V.Held(db, row);
    R.PublishSucceedsExactly(db, id, s);
    C.PublishIsCompareAndSwap(db, Account(row.account), db.owners[Account(row.account)].auth, row.previous, row.candidate);
  }

  lemma FreedByPublish(db: Db, after: Db, id: nat)
    requires V.VaultOk(db) && id in db.executions && id in after.executions && db.executions[id].activeAccount.Some?
    requires after.executions == db.executions[id := after.executions[id]] && after.executions[id].activeAccount.None?
    ensures !HasActiveExecution(after, db.executions[id].account)
  {
    assert V.RowConsistent(db.executions[id]);
  }

  lemma PublishNext(w: World, id: nat, s: nat)
    requires Is(w, s, Publishing) && w.executors[s].execution == id
    ensures Next(w, Record(s, "")) == At(w, s, Stopped).(db := E.Publish(w.db, id, s).db)
  {
    assert NextCall(w.executors[s], s, "") == Some(R.Publish(id, s));
  }

  lemma PublishedDb(db: Db, id: nat, s: nat)
    requires V.VaultOk(db) && id in db.executions && s != 0 && Exists(db, Account(db.executions[id].account))
    requires db.executions[id].state == Verified && E.HoldsLease(db.executions[id], s, db.now)
    ensures var after := E.Publish(db, id, s).db;
      V.VaultOk(after) && !HasActiveExecution(after, db.executions[id].account)
  {
    PublishDb(db, id, s);
    V.PublishKeeps(db, id, s);
    var after := E.Publish(db, id, s).db;
    assert V.RowConsistent(after.executions[id]);
    FreedByPublish(db, after, id);
  }

  lemma PublishStep(w: World, id: nat, s: nat, t: nat)
    requires Indistinct(w, id) && Is(w, s, Publishing) && w.executors[s].execution == id && s != 0 && s != t
    requires w.db.executions[id].state == Verified && E.HoldsLease(w.db.executions[id], s, w.db.now)
    requires t in w.executors && w.executors[t].execution == id && t in w.flights && w.flights[t] == InFlight
    ensures PublishedTooEarly(Next(w, Record(s, "")), id, t)
  {
    PublishNext(w, id, s);
    PublishedDb(w.db, id, s);
    PublishDb(w.db, id, s);
  }

  /** A second executor reconciles: authenticating with the candidate proves nothing, yet it publishes. */
  lemma ReconcileTooEarly(w: World, id: nat, t: nat) returns (events: seq<Event>)
    requires Lingering(w, id, t)
    ensures AssumedThroughout(w, events) && PublishedTooEarly(Run(w, events), id, t)
  {
    hide Next, Run, AssumedThroughout, V.VaultOk;
    var s: nat;
    events, s := ReconcileAndVerify(w, id, t);
    PublishStep(Run(w, events), id, s, t);
    Extend(w, events, Record(s, ""));
    events := events + [Record(s, "")];
  }

  lemma ReconcileAndVerify(w: World, id: nat, t: nat) returns (events: seq<Event>, s: nat)
    requires Lingering(w, id, t)
    ensures AssumedThroughout(w, events)
    ensures var u := Run(w, events);
      && Indistinct(u, id) && u.db.executions[id].state == Verified && E.HoldsLease(u.db.executions[id], s, u.db.now)
      && s != 0 && s != t && Is(u, s, Publishing) && u.executors[s].execution == id
      && t in u.executors && u.executors[t].execution == id && t in u.flights && u.flights[t] == InFlight
  {
    hide Next, Run, AssumedThroughout, V.VaultOk;
    events, s := ReconcileAndRead(w, id, t);
    var w2 := Run(w, events);
    VerifyStep(w2, id, s);
    Extend(w, events, Verify(s, true));
    events := events + [Verify(s, true)];
    VerifiedStep(w2, id, s, t);
    Extend(w, events, Record(s, ""));
    events := events + [Record(s, "")];
  }

  lemma VerifyStep(w: World, id: nat, s: nat)
    requires Indistinct(w, id) && Is(w, s, Pc.Verifying) && w.executors[s].execution == id && w.executors[s].mode == Reconcile
    ensures Assumed(w, Verify(s, true)) && Next(w, Verify(s, true)) == At(w, s, Seen(true))
  {
  }

  lemma VerifiedStep(w: World, id: nat, s: nat, t: nat)
    requires Indistinct(w, id) && Is(w, s, Pc.Verifying) && w.executors[s].execution == id && w.executors[s].mode == Reconcile && s != 0
    requires w.db.executions[id].state == Unknown && E.HoldsLease(w.db.executions[id], s, w.db.now)
    requires s != t && t in w.executors && w.executors[t].execution == id && t in w.flights && w.flights[t] == InFlight
    ensures var u := Next(Next(w, Verify(s, true)), Record(s, ""));
      && Indistinct(u, id) && u.db.executions[id].state == Verified && E.HoldsLease(u.db.executions[id], s, u.db.now)
      && Is(u, s, Publishing) && u.executors[s].execution == id
      && t in u.executors && u.executors[t].execution == id && t in u.flights && u.flights[t] == InFlight
  {
    VerifyStep(w, id, s);
    CandidateStep(At(w, s, Seen(true)), id, s);
  }

  lemma ReconcileAndRead(w: World, id: nat, t: nat) returns (events: seq<Event>, s: nat)
    requires Lingering(w, id, t)
    ensures AssumedThroughout(w, events)
    ensures var u := Run(w, events);
      && Indistinct(u, id) && u.db.executions[id].state == Unknown && E.HoldsLease(u.db.executions[id], s, u.db.now)
      && s != 0 && s != t && Is(u, s, Pc.Verifying) && u.executors[s].execution == id && u.executors[s].mode == Reconcile
      && t in u.executors && u.executors[t].execution == id && t in u.flights && u.flights[t] == InFlight
  {
    hide Next, Run, AssumedThroughout, V.VaultOk;
    IdIsNonzero(w, id);
    var taken := w.executors.Keys + w.flights.Keys + w.cleared.Keys;
    s := Unused(taken);
    assert t in taken;
    events := FirstSteps(s, id, Reconcile);
    ClaimAndRead(w, id, s, Reconcile);
    BeginStep(w, id, s, Reconcile);
  }

  // ---- The late mutation ----

  /** With the account free again an operator may replace the secret; then the mutation arrives. */
  lemma LateDelivery(w: World, id: nat, t: nat) returns (events: seq<Event>)
    requires PublishedTooEarly(w, id, t)
    ensures AssumedThroughout(w, events) && !NoLockOut(Run(w, events))
  {
    var row := w.db.executions[id];
    var version := Unused(w.db.versions.Keys);
    var secret := Password(w.db.versions[row.candidate].secret.text + 1);
    var call := R.UpdateCredential(Account(row.account), C.Edit(false, None, Some(secret)), version);
    EditStep(w, id, secret, version);
    events := [];
    Extend(w, events, Outside(call));
    events := events + [Outside(call)];
    var w1 := Run(w, events);
    Extend(w, events, Deliver(t));
    events := events + [Deliver(t)];
    DeliveryLocksOut(w1, id, t, secret);
  }

  /** The operator's edit is accepted, and the vault and the remote system agree on the new secret. */
  lemma EditStep(w: World, id: nat, secret: Material, version: nat)
    requires id in w.db.executions && V.VaultOk(w.db) && secret.Password? && version != 0 && version !in w.db.versions
    requires var row := w.db.executions[id];
      && Exists(w.db, Account(row.account)) && w.db.owners[Account(row.account)].auth == PasswordAuth
      && !HasActiveExecution(w.db, row.account) && row.candidate in w.db.versions
    ensures var row := w.db.executions[id];
      var u := Next(w, Outside(R.UpdateCredential(Account(row.account), C.Edit(false, None, Some(secret)), version)));
      && u.executors == w.executors && u.flights == w.flights && u.db.executions == w.db.executions
      && Account(row.account) in u.db.owners && C.Resolve(u.db, Account(row.account)) == Some(secret)
      && V.Idle(u.db, Account(row.account))
      && row.candidate in u.db.versions && u.db.versions[row.candidate].secret == w.db.versions[row.candidate].secret
  {
    var owner := Account(w.db.executions[id].account);
    var edit := C.Edit(false, None, Some(secret));
    EditCommits(w.db, owner, secret, version);
    EditNext(w, owner, edit, version);
    VaultResolution.UpdateResolves(w.db, owner, edit, version);
    V.UnmanagedOrFreeIsIdle(w.db, owner);
    assert C.VersionsLater(w.db, C.UpdateCredential(w.db, owner, edit, version).db);
  }

  lemma EditNext(w: World, owner: Owner, edit: C.Edit, version: nat)
    requires edit.secret.Some? && C.UpdateCredential(w.db, owner, edit, version).reply.Ok?
    ensures Next(w, Outside(R.UpdateCredential(owner, edit, version)))
         == w.(db := C.UpdateCredential(w.db, owner, edit, version).db, remote := w.remote[owner := edit.secret.value])
  {
  }

  lemma DeliveryLocksOut(w: World, id: nat, t: nat, secret: Material)
    requires t in w.executors && w.executors[t].execution == id && t in w.flights && w.flights[t] == InFlight
    requires id in w.db.executions && w.db.executions[id].candidate in w.db.versions
    requires var owner := Account(w.db.executions[id].account);
      owner in w.db.owners && C.Resolve(w.db, owner) == Some(secret) && V.Idle(w.db, owner)
    requires w.db.versions[w.db.executions[id].candidate].secret != secret
    ensures !NoLockOut(Next(w, Deliver(t)))
  {
    var u := Next(w, Deliver(t));
    var owner := Account(w.db.executions[id].account);
    assert owner in u.db.owners && V.Idle(u.db, owner) && C.Resolve(u.db, owner) != Some(u.remote[owner]);
  }

  lemma EditCommits(db: Db, owner: Owner, secret: Material, version: nat)
    requires V.VaultOk(db) && Exists(db, owner) && owner.Account? && db.owners[owner].auth == PasswordAuth && secret.Password?
    requires !HasActiveExecution(db, owner.id)
    requires version != 0 && version !in db.versions
    ensures C.UpdateCredential(db, owner, C.Edit(false, None, Some(secret)), version).reply.Ok?
    ensures C.UpdateCredential(db, owner, C.Edit(false, None, Some(secret)), version).db.executions == db.executions
  {
    var reference := db.owners[owner].reference;
    var staged := C.Stage(db, owner, 0, secret, version);
    C.PublishIsCompareAndSwap(staged, owner, PasswordAuth, reference, version);
    if reference != 0 { assert C.Readable(db, owner, reference, Active); }
  }

  // ---- The condition, exactly ----

  /** The account is bound to no asset but the one of this preparation, as StartPAMPasswordChange makes sure before it. */
  predicate OneAsset(db: Db, call: R.Call)
    requires call.Prepare?
  {
    call.input.binding in db.bindings ==> T.OnlyAsset(db, call.input.account, db.bindings[call.input.binding].asset)
  }

  /** A committed preparation with the secret already in use leaves a startable, indistinct execution. */
  lemma StalePrepareIsStartable(w: World, call: R.Call)
    requires WorldOk(w) && call.Prepare? && R.Perform(w.db, call).db != w.db && !FreshCandidate(w, Outside(call)) && OneAsset(w.db, call)
    ensures Startable(Next(w, Outside(call)), call.newId)
  {
    hide WorldOk, MayWork, Indistinct, Next, R.Perform, OneAsset, FreshCandidate;
    PreparedMayWork(w, call);
    StaleIsIndistinct(w, call);
  }

  lemma PreparedMayWork(w: World, call: R.Call)
    requires call.Prepare? && R.Perform(w.db, call).db != w.db && OneAsset(w.db, call)
    ensures var u := Next(w, Outside(call));
      && call.newId in u.db.executions && MayWork(u.db, call.newId, Change) && MayWork(u.db, call.newId, Reconcile)
      && var row := u.db.executions[call.newId];
         row.state == Prepared && row.activeAccount == Some(row.account) && row.leaseUntil.None?
  {
  }

  lemma StaleIsIndistinct(w: World, call: R.Call)
    requires WorldOk(w) && call.Prepare? && R.Perform(w.db, call).db != w.db && !FreshCandidate(w, Outside(call))
    ensures Indistinct(Next(w, Outside(call)), call.newId)
  {
    var u := Next(w, Outside(call));
    NextKeepsVault(w, Outside(call));
    var owner := Account(call.input.account);
    assert V.Idle(w.db, owner) by {
      forall i | i in w.db.executions && w.db.executions[i].activeAccount.Some?
        ensures Account(w.db.executions[i].account) != owner
      {
        assert V.RowConsistent(w.db.executions[i]);
      }
    }
    assert C.Readable(w.db, owner, w.db.owners[owner].reference, Active);
  }

  /** No continuation that keeps the assumptions locks out. */
  ghost predicate SafeEver(w: World) {
    forall later :: AssumedThroughout(w, later) ==> NoLockOut(Run(w, later))
  }

  // ---- An execution nobody is let through to cannot do harm, whatever its candidate ----

  ghost predicate OthersDistinct(db: Db, id: nat) {
    forall i :: i != id && i in db.executions && db.executions[i].activeAccount.Some? ==> Distinct(db, db.executions[i])
  }

  ghost predicate HeldBack(w: World, id: nat) {
    WorldOk(w) && Stranded.Abandoned(w, id) && OthersDistinct(w.db, id)
  }

  lemma HeldBackClaims(w: World, e: Event, id: nat)
    requires HeldBack(w, id)
    ensures ClaimsDistinct(w, e)
  {
    hide WorldOk, Distinct;
    if e.Start? && MayClaim(w, e.token, e.execution, e.mode) {
      Stranded.AbandonedParts(w, id);
    }
  }

  lemma NextKeepsOthers(w: World, e: Event, id: nat)
    requires V.VaultOk(w.db) && OthersDistinct(w.db, id) && FreshCandidate(w, e)
    ensures OthersDistinct(Next(w, e).db, id)
  {
    hide V.VaultOk, Next, R.Perform, Distinct, FreshCandidate;
    var u := Next(w, e);
    forall i | i != id && i in u.db.executions && u.db.executions[i].activeAccount.Some? ensures Distinct(u.db, u.db.executions[i]) {
      ActiveRowsOf(w, e, i);
      if i in w.db.executions {
        NextKeepsOneDistinct(w, e, i);
      } else {
        FreshIsDistinct(w, e.call);
        OutsidePerforms(w, e.call);
      }
    }
  }

  lemma NextKeepsHeldBack(w: World, e: Event, id: nat)
    requires HeldBack(w, id) && Assumed(w, e)
    ensures HeldBack(Next(w, e), id)
  {
    hide WorldOk, Next, Stranded.Abandoned, OthersDistinct, FreshCandidate, Truthful;
    HeldBackClaims(w, e, id);
    NextKeepsWorld(w, e);
    PartsOf(w);
    Stranded.NextStaysAbandoned(w, e, id);
    NextKeepsOthers(w, e, id);
  }

  lemma {:induction false} HeldBackIsSafe(w: World, events: seq<Event>, id: nat)
    requires HeldBack(w, id) && AssumedThroughout(w, events)
    ensures HeldBack(Run(w, events), id)
    decreases |events|
  {
    hide HeldBack, Next, Assumed;
    if events != [] {
      var n := |events| - 1;
      AssumedPrefix(w, events, n);
      HeldBackIsSafe(w, events[..n], id);
      NextKeepsHeldBack(Run(w, events[..n]), events[n], id);
    }
  }

  /** Prepared for an account that is bound to another asset as well. */
  lemma SharedIsHeldBack(w: World, call: R.Call)
    requires Reached(w) && call.Prepare? && R.Perform(w.db, call).db != w.db && !OneAsset(w.db, call)
    ensures HeldBack(Next(w, Outside(call)), call.newId)
  {
    hide Reached, WorldOk, Next, R.Perform, V.VaultOk, TargetsHeld, ClearedKnown, Workable, Distinct;
    var u := Next(w, Outside(call));
    ReachedParts(w);
    OutsideIsNoClaim(w, call);
    NextKeepsWorld(w, Outside(call));
    Stranded.PreparedRow(w, call);
    Stranded.StoreOfNext(w, Outside(call));
    SharedIsUnworkable(w, call);
    forall i | i != call.newId && i in u.db.executions && u.db.executions[i].activeAccount.Some? ensures Distinct(u.db, u.db.executions[i]) {
      ActiveRowsOf(w, Outside(call), i);
      NextKeepsOneDistinct(w, Outside(call), i);
    }
  }

  lemma ReachedParts(w: World)
    requires Reached(w)
    ensures WorldOk(w) && V.VaultOk(w.db) && RowsDistinct(w.db) && Stranded.StoreReached(w) && ClearedKnown(w)
  {
  }

  lemma OutsideIsNoClaim(w: World, call: R.Call)
    ensures ClaimsDistinct(w, Outside(call)) && Truthful(w, Outside(call))
  {
  }

  lemma SharedIsUnworkable(w: World, call: R.Call)
    requires call.Prepare? && R.Perform(w.db, call).db != w.db && !OneAsset(w.db, call)
    ensures var u := Next(w, Outside(call)); call.newId in u.db.executions && !Workable(u.db, u.db.executions[call.newId])
  {
  }

  // ---- The theorem ----

  /** What decides: the candidate is new, or nobody is let through anyway. */
  predicate CannotLockOut(db: Db, call: R.Call)
    requires call.Prepare?
  {
    C.Resolve(db, Account(call.input.account)) != Some(call.candidate) || !OneAsset(db, call)
  }

  lemma FreshCandidateDecidesHere(w: World, call: R.Call)
    requires Reached(w) && call.Prepare? && R.Perform(w.db, call).db != w.db
    ensures CannotLockOut(w.db, call) <==> SafeEver(Next(w, Outside(call)))
  {
    hide Reached, WorldOk, Next, AssumedThroughout, NoLockOut, OneAsset, HeldBack, R.Perform;
    var u := Next(w, Outside(call));
    ReachedParts(w);
    if FreshCandidate(w, Outside(call)) {
      OutsideIsNoClaim(w, call);
      NextKeeps(w, Outside(call));
      forall later | AssumedThroughout(u, later) ensures NoLockOut(Run(u, later)) {
        RunKeeps(u, later);
        OkMeansNoLockOut(Run(u, later));
      }
    } else if !OneAsset(w.db, call) {
      SharedIsHeldBack(w, call);
      forall later | AssumedThroughout(u, later) ensures NoLockOut(Run(u, later)) {
        HeldBackIsSafe(u, later, call.newId);
        HeldBackWorld(Run(u, later), call.newId);
        OkMeansNoLockOut(Run(u, later));
      }
    } else {
      var bad := LockOutAfter(w, call);
      assert AssumedThroughout(u, bad) && !NoLockOut(Run(u, bad));
    }
  }

  lemma HeldBackWorld(w: World, id: nat)
    requires HeldBack(w, id)
    ensures WorldOk(w)
  {
  }

  /** For a preparation that commits in any reachable state, no lock-out can follow exactly when its candidate is not
   the secret in use, or its account is bound to a second asset as well, so that nobody is let through to it. Otherwise
   some continuation locks out. */
  lemma {:induction false} FreshCandidateDecides(w: World, events: seq<Event>, call: R.Call)
    requires Initial(w) && AssumedThroughout(w, events)
    requires call.Prepare? && R.Perform(Run(w, events).db, call).db != Run(w, events).db
    ensures var now := Run(w, events); CannotLockOut(now.db, call) <==> SafeEver(Next(now, Outside(call)))
  {
    hide SafeEver, Next, CannotLockOut, Initial, Reached;
    InitialIsReached(w);
    RunKeepsReached(w, events);
    FreshCandidateDecidesHere(Run(w, events), call);
  }

  lemma LockOutAfter(w: World, call: R.Call) returns (events: seq<Event>)
    requires WorldOk(w) && call.Prepare? && R.Perform(w.db, call).db != w.db && !FreshCandidate(w, Outside(call)) && OneAsset(w.db, call)
    ensures var u := Next(w, Outside(call)); AssumedThroughout(u, events) && !NoLockOut(Run(u, events))
  {
    var u := Next(w, Outside(call));
    StalePrepareIsStartable(w, call);
    var first, t := SendAndLinger(u, call.newId);
    var second := ReconcileTooEarly(Run(u, first), call.newId, t);
    RunConcat(u, first, second);
    AssumedConcat(u, first, second);
    var third := LateDelivery(Run(u, first + second), call.newId, t);
    RunConcat(u, first + second, third);
    AssumedConcat(u, first + second, third);
    events := first + second + third;
  }
}
