/** The inductive invariant behind the no-lock-out theorem, and its proof event by event. */
module ProtocolInvariant {
  import opened Basics
  import opened VaultResolution
  import opened Tables
  import C = CredentialSpec
  import E = ExecutionSpec
  import V = VaultInvariant
  import R = VaultRuns
  import opened PasswordProtocol

  /** This execution's mutation was applied. */
  ghost predicate AppliedFor(w: World, id: nat) {
    exists t :: t in w.executors && w.executors[t].execution == id && t in w.flights && w.flights[t] == Applied
  }

  predicate BeforeSending(pc: Pc) {
    pc == Claimed || pc == Authorized || pc == Ready || pc == Armed || pc == Unsent
  }

  function FlightOf(w: World, t: nat): Option<Flight> {
    if t in w.flights then Some(w.flights[t]) else None
  }

  /** What one executor's position says about its flight. */
  predicate FlightMatches(x: Executor, flight: Option<Flight>) {
    && (flight.Some? ==> x.committed && !BeforeSending(x.pc))
    && (x.pc == Armed ==> x.committed)
    && (x.pc == Claimed || x.pc == Authorized || x.pc == Ready ==> !x.committed)
    && (x.pc == Sent || x.pc == Rejected || x.pc.Replied? ==> flight.Some?)
    && (x.pc == Rejected ==> flight == Some(Gone))
    && (x.pc == Replied(true) ==> flight == Some(Applied))
  }

  /** What it says about the execution row it works on. */
  predicate RowMatches(x: Executor, row: Execution, applied: bool, stopped: bool) {
    && (x.committed ==> row.state != Prepared && x.fromPrepared)
    && (x.mode == KeepOriginal ==> !x.fromPrepared && x.pc != Publishing)
    && (!x.fromPrepared ==> row.state != Prepared && x.pc != Unsent && x.pc != Ready)
    && (x.fromPrepared && !x.committed ==> BeforeSending(x.pc) || x.pc == Stopped)
    && (row.activeAccount.Some? ==>
          && row.leaseOwner != 0
          && (x.mode != KeepOriginal && (x.pc == Seen(true) || x.pc == Publishing) ==> applied)
          && (x.mode == KeepOriginal && x.pc != Stopped ==> stopped)
          && (x.mode == KeepOriginal && x.pc == Seen(true) ==> !applied))
  }

  ghost predicate ExecutorOk(w: World, t: nat)
    requires t in w.executors
  {
    var x := w.executors[t];
    && t != 0
    && FlightMatches(x, FlightOf(w, t))
    && x.execution in w.db.executions
    && RowMatches(x, w.db.executions[x.execution], AppliedFor(w, x.execution), RemoteStopped(w, x.execution))
  }

  ghost predicate ExecutorsOk(w: World) {
    forall t :: t in w.executors ==> ExecutorOk(w, t)
  }

  ghost predicate FlightsOwned(w: World) {
    forall t :: t in w.flights ==> t in w.executors
  }

  /** BeforeChange committed for at most one executor of an execution. */
  ghost predicate OneCommitted(executors: map<nat, Executor>) {
    forall s, t ::
      (s in executors && t in executors && executors[s].committed && executors[t].committed
       && executors[s].execution == executors[t].execution) ==> s == t
  }

  predicate HolderOk(id: nat, row: Execution, executors: map<nat, Executor>) {
    && (row.leaseOwner != 0 ==> row.leaseOwner in executors && executors[row.leaseOwner].execution == id)
    && (row.state == Changing ==> row.leaseOwner in executors && executors[row.leaseOwner].committed)
  }

  /** The candidate is another secret than the one it replaces. */
  predicate Distinct(db: Db, row: Execution) {
    && row.candidate in db.versions && row.previous in db.versions
    && db.versions[row.candidate].secret != db.versions[row.previous].secret
  }

  ghost predicate RowsDistinct(db: Db) {
    forall id :: id in db.executions && db.executions[id].activeAccount.Some? ==> Distinct(db, db.executions[id])
  }

  /** Only executions with a distinct candidate are claimed. */
  ghost predicate ClaimsDistinct(w: World, e: Event) {
    e.Start? && MayClaim(w, e.token, e.execution, e.mode) && e.execution in w.db.executions ==>
      Distinct(w.db, w.db.executions[e.execution])
  }

  /** What the remote system accepts while an execution is active. */
  ghost predicate RemoteOk(db: Db, remote: map<Owner, Material>, row: Execution, applied: bool) {
    row.activeAccount.Some? ==>
      && row.candidate in db.versions && row.previous in db.versions
      && Account(row.account) in remote
      && (row.leaseOwner != 0 ==> Distinct(db, row))
      && remote[Account(row.account)] == db.versions[if applied then row.candidate else row.previous].secret
  }

  /** What an execution row says about executors, flights and the remote system. */
  ghost predicate RowOk(w: World, id: nat)
    requires id in w.db.executions
  {
    var row := w.db.executions[id];
    && HolderOk(id, row, w.executors)
    && (row.state == Verified ==> AppliedFor(w, id))
    && (row.activeAccount.None? ==> RemoteStopped(w, id))
    && RemoteOk(w.db, w.remote, row, AppliedFor(w, id))
  }

  ghost predicate RowsOk(w: World) {
    forall id :: id in w.db.executions ==> RowOk(w, id)
  }

  ghost predicate IdleOwnersOk(db: Db, remote: map<Owner, Material>) {
    forall owner :: owner in db.owners ==>
      && owner in remote
      && (V.Idle(db, owner) ==> C.Resolve(db, owner) == Some(remote[owner]))
  }

  ghost predicate ProtocolOk(w: World) {
    ExecutorsOk(w) && FlightsOwned(w) && OneCommitted(w.executors) && RowsOk(w) && IdleOwnersOk(w.db, w.remote)
  }

  ghost predicate WorldOk(w: World) {
    V.VaultOk(w.db) && ProtocolOk(w)
  }

  /** Before the protocol starts: no execution is active and the vault is right about every owner. */
  ghost predicate Initial(w: World) {
    && V.VaultOk(w.db)
    && (forall id :: id in w.db.executions ==> w.db.executions[id].activeAccount.None?)
    && w.executors == map[] && w.flights == map[] && w.cleared == map[]
    && (forall owner :: owner in w.db.owners ==> owner in w.remote && C.Resolve(w.db, owner) == Some(w.remote[owner]))
  }

  lemma InitialIsOk(w: World)
    requires Initial(w)
    ensures WorldOk(w)
  {
    forall id | id in w.db.executions
      ensures RowOk(w, id)
    {
      assert V.RowConsistent(w.db.executions[id]);
    }
  }

  lemma OkMeansNoLockOut(w: World)
    requires WorldOk(w)
    ensures NoLockOut(w)
  {
    forall owner | owner in w.db.owners
      ensures Recoverable(w, owner)
    {
      if !V.Idle(w.db, owner) {
        var id :| id in w.db.executions && w.db.executions[id].activeAccount.Some? && Account(w.db.executions[id].account) == owner;
        var row := w.db.executions[id];
        assert V.Held(w.db, row) && V.RowConsistent(row) && RowOk(w, id);
        if AppliedFor(w, id) { assert CandidateHolds(w, owner, id); }
      }
    }
  }

  // ---- Frames ----

  /** The same executors work on the same executions and no flight changed. */
  ghost predicate SameFlights(w: World, u: World) {
    && u.flights == w.flights
    && (forall t :: t in w.executors ==> t in u.executors && u.executors[t].execution == w.executors[t].execution)
    && (forall t :: t in u.executors && t !in w.executors ==> t !in u.flights)
  }

  lemma SameApplied(w: World, u: World, id: nat)
    requires SameFlights(w, u)
    ensures AppliedFor(u, id) <==> AppliedFor(w, id)
  {
    if AppliedFor(w, id) {
      var t :| t in w.executors && w.executors[t].execution == id && t in w.flights && w.flights[t] == Applied;
      assert t in u.executors && u.executors[t].execution == id && t in u.flights && u.flights[t] == Applied;
    }
    if AppliedFor(u, id) {
      var t :| t in u.executors && u.executors[t].execution == id && t in u.flights && u.flights[t] == Applied;
      assert t in w.executors && w.executors[t].execution == id && t in w.flights && w.flights[t] == Applied;
    }
  }

  /** An executor's move away from or past Armed cannot restart anything. */
  lemma StillStopped(w: World, t: nat, pc: Pc, id: nat)
    requires t in w.executors && pc != Armed && RemoteStopped(w, id)
    ensures RemoteStopped(At(w, t, pc), id)
  {
  }

  lemma PcKeepsExecutors(w: World, t: nat, pc: Pc)
    requires ExecutorsOk(w) && t in w.executors && pc != Armed
    requires var x := w.executors[t].(pc := pc);
      && FlightMatches(x, FlightOf(w, t))
      && x.execution in w.db.executions
      && RowMatches(x, w.db.executions[x.execution], AppliedFor(w, x.execution), RemoteStopped(w, x.execution))
    ensures ExecutorsOk(At(w, t, pc))
  {
    hide AppliedFor, RemoteStopped, FlightMatches;
    var u := At(w, t, pc);
    forall s | s in u.executors ensures ExecutorOk(u, s) {
      assert ExecutorOk(w, s);
      var id := u.executors[s].execution;
      SameApplied(w, u, id);
      if RemoteStopped(w, id) { StillStopped(w, t, pc, id); }
    }
  }

  lemma PcKeepsRows(w: World, t: nat, pc: Pc)
    requires RowsOk(w) && t in w.executors && pc != Armed
    ensures RowsOk(At(w, t, pc))
  {
    hide AppliedFor, RemoteStopped, RemoteOk;
    var u := At(w, t, pc);
    forall id | id in u.db.executions ensures RowOk(u, id) {
      assert RowOk(w, id);
      SameApplied(w, u, id);
      if RemoteStopped(w, id) { StillStopped(w, t, pc, id); }
    }
  }

  lemma ExecutorOf(w: World, t: nat)
    requires ProtocolOk(w) && t in w.executors
    ensures ExecutorOk(w, t)
  {
  }

  /** A step that moves one executor and leaves store, flights and remote system alone. */
  lemma PcKeeps(w: World, t: nat, pc: Pc)
    requires ProtocolOk(w) && t in w.executors && pc != Armed
    requires var x := w.executors[t].(pc := pc);
      && FlightMatches(x, FlightOf(w, t))
      && x.execution in w.db.executions
      && RowMatches(x, w.db.executions[x.execution], AppliedFor(w, x.execution), RemoteStopped(w, x.execution))
    ensures ProtocolOk(At(w, t, pc))
  {
    hide ExecutorsOk, RowsOk, OneCommitted, FlightsOwned, IdleOwnersOk, AppliedFor, RemoteStopped, FlightMatches, RowMatches;
    PcKeepsExecutors(w, t, pc);
    PcKeepsRows(w, t, pc);
    PcKeepsTokens(w, t, pc);
  }

  lemma PcKeepsTokens(w: World, t: nat, pc: Pc)
    requires FlightsOwned(w) && OneCommitted(w.executors) && t in w.executors
    ensures FlightsOwned(At(w, t, pc)) && OneCommitted(At(w, t, pc).executors)
  {
  }

  /** The moves an executor makes without touching store, network or remote system. */
  predicate LocalMove(x: Executor, pc: Pc, flight: Option<Flight>) {
    || pc == Stopped
    || (x.pc == Claimed && pc == Authorized)
    || (x.pc == Claimed && x.fromPrepared && pc == Unsent)
    || (x.pc == Authorized && pc == if x.fromPrepared then Ready else Pc.Verifying)
    || ((x.pc == Ready || x.pc == Armed) && pc == Unsent)
    || (x.pc == Sent && pc == Rejected && flight == Some(Gone))
    || (x.pc == Sent && (pc == Replied(false) || (pc == Replied(true) && flight == Some(Applied))))
  }

  lemma LocalMoveKeeps(w: World, t: nat, pc: Pc)
    requires ProtocolOk(w) && t in w.executors && LocalMove(w.executors[t], pc, FlightOf(w, t))
    ensures ProtocolOk(At(w, t, pc))
  {
    hide ProtocolOk, AppliedFor, RemoteStopped;
    ExecutorOf(w, t);
    PcKeeps(w, t, pc);
  }

  lemma AuthorizeKeeps(w: World, token: nat, granted: bool)
    requires ProtocolOk(w)
    ensures ProtocolOk(Next(w, Authorize(token, granted)))
  {
    hide ProtocolOk;
    if Is(w, token, Claimed) {
      LocalMoveKeeps(w, token, Next(w, Authorize(token, granted)).executors[token].pc);
    }
  }

  lemma ReadKeeps(w: World, token: nat)
    requires ProtocolOk(w)
    ensures ProtocolOk(Next(w, Read(token)))
  {
    hide ProtocolOk, SecretsReadable;
    var u := Next(w, Read(token));
    if u != w {
      var pc := u.executors[token].pc;
      assert u == At(w, token, pc);
      LocalMoveKeeps(w, token, pc);
    }
  }

  lemma GiveUpKeeps(w: World, token: nat)
    requires ProtocolOk(w)
    ensures ProtocolOk(Next(w, GiveUp(token)))
  {
    hide ProtocolOk;
    if Is(w, token, Ready) || Is(w, token, Armed) { LocalMoveKeeps(w, token, Unsent); }
  }

  lemma SentHasFlight(w: World, token: nat)
    requires ProtocolOk(w) && Is(w, token, Sent)
    ensures token in w.flights
  {
    assert ExecutorOk(w, token);
  }

  lemma ReplyKeeps(w: World, token: nat, answer: Answer)
    requires ProtocolOk(w) && Truthful(w, Reply(token, answer))
    ensures ProtocolOk(Next(w, Reply(token, answer)))
  {
    hide ProtocolOk;
    if Is(w, token, Sent) {
      SentHasFlight(w, token);
      LocalMoveKeeps(w, token, if answer == ConfirmedUnchanged then Rejected else Replied(answer == Changed));
    }
  }

  /** The invariant does not depend on who is cleared. */
  lemma ClearedIsFree(w: World, u: World)
    requires ProtocolOk(w) && u == w.(cleared := u.cleared)
    ensures ProtocolOk(u)
  {
    QuietIsOutsideStep(w, u, Gateway(0));
    OutsideStepKeeps(w, u, Gateway(0));
  }

  lemma ClearKeeps(w: World, token: nat, id: nat, mode: Mode, granted: bool)
    requires ProtocolOk(w)
    ensures ProtocolOk(Next(w, Clear(token, id, mode, granted)))
  {
    hide ProtocolOk;
    ClearedIsFree(w, Next(w, Clear(token, id, mode, granted)));
  }

  lemma CrashKeeps(w: World, token: nat)
    requires ProtocolOk(w)
    ensures ProtocolOk(Next(w, Crash(token)))
  {
    hide ProtocolOk;
    var left := w.(cleared := w.cleared - {token});
    ClearedIsFree(w, left);
    if token in w.executors {
      LocalMoveKeeps(left, token, Stopped);
    }
  }

  /** What a truthful authentication tells: with distinct secrets, whether the mutation was applied. */
  lemma VerifyKeeps(w: World, token: nat, accepted: bool)
    requires ProtocolOk(w) && Truthful(w, Verify(token, accepted))
    ensures ProtocolOk(Next(w, Verify(token, accepted)))
  {
    hide ProtocolOk, AppliedFor, RemoteStopped;
    if Is(w, token, Pc.Verifying) {
      ExecutorOf(w, token);
      RowOf(w, w.executors[token].execution);
      PcKeeps(w, token, Seen(accepted));
    }
  }

  // ---- Sending ----

  lemma SendKeeps(w: World, token: nat)
    requires ProtocolOk(w)
    ensures ProtocolOk(Next(w, Send(token)))
  {
    hide ExecutorsOk, RowsOk, FlightsOwned, OneCommitted, IdleOwnersOk, AppliedFor, RemoteStopped, R.Perform, R.Commits;
    if Is(w, token, Armed) {
      ExecutorOf(w, token);
      SendKeepsExecutors(w, token);
      SendKeepsRows(w, token);
      SendKeepsTokens(w, token);
    }
  }

  lemma SendKeepsTokens(w: World, token: nat)
    requires FlightsOwned(w) && OneCommitted(w.executors) && Is(w, token, Armed)
    ensures FlightsOwned(Next(w, Send(token))) && OneCommitted(Next(w, Send(token)).executors)
  {
  }

  lemma SendKeepsRows(w: World, token: nat)
    requires RowsOk(w) && Is(w, token, Armed) && token !in w.flights
    ensures RowsOk(Next(w, Send(token)))
  {
    var u := Next(w, Send(token));
    assert !RemoteStopped(w, w.executors[token].execution);
    forall i | i in u.db.executions ensures RowOk(u, i) {
      assert RowOk(w, i);
      SendAppliesNothing(w, token, i);
      if RemoteStopped(w, i) { assert RemoteStopped(u, i); }
    }
  }

  lemma SendAppliesNothing(w: World, token: nat, id: nat)
    requires Is(w, token, Armed) && token !in w.flights
    ensures AppliedFor(Next(w, Send(token)), id) <==> AppliedFor(w, id)
  {
    var u := Next(w, Send(token));
    if AppliedFor(w, id) {
      var t :| t in w.executors && w.executors[t].execution == id && t in w.flights && w.flights[t] == Applied;
      assert t in u.executors && u.executors[t].execution == id && t in u.flights && u.flights[t] == Applied;
    }
    if AppliedFor(u, id) {
      var t :| t in u.executors && u.executors[t].execution == id && t in u.flights && u.flights[t] == Applied;
      assert t in w.executors && w.executors[t].execution == id && t in w.flights && w.flights[t] == Applied;
    }
  }

  lemma SendKeepsExecutors(w: World, token: nat)
    requires ExecutorsOk(w) && Is(w, token, Armed)
    ensures ExecutorsOk(Next(w, Send(token)))
  {
    var u := Next(w, Send(token));
    assert ExecutorOk(w, token);
    var id := w.executors[token].execution;
    assert !RemoteStopped(w, id);
    forall s | s in u.executors ensures ExecutorOk(u, s) {
      assert ExecutorOk(w, s);
      var i := u.executors[s].execution;
      SendAppliesNothing(w, token, i);
      if i != id && RemoteStopped(w, i) { assert RemoteStopped(u, i); }
    }
  }

  lemma LoseKeeps(w: World, token: nat)
    requires ProtocolOk(w)
    ensures ProtocolOk(Next(w, Lose(token)))
  {
    if Next(w, Lose(token)) != w {
      LoseKeepsExecutors(w, token);
      LoseKeepsRows(w, token);
    }
  }

  lemma LoseKeepsExecutors(w: World, token: nat)
    requires ExecutorsOk(w)
    ensures ExecutorsOk(Next(w, Lose(token)))
  {
    var u := Next(w, Lose(token));
    forall s | s in u.executors ensures ExecutorOk(u, s) {
      assert ExecutorOk(w, s);
      LoseAppliesNothing(w, token, u.executors[s].execution);
      if RemoteStopped(w, u.executors[s].execution) { assert RemoteStopped(u, u.executors[s].execution); }
    }
  }

  lemma LoseKeepsRows(w: World, token: nat)
    requires RowsOk(w)
    ensures RowsOk(Next(w, Lose(token)))
  {
    var u := Next(w, Lose(token));
    forall i | i in u.db.executions ensures RowOk(u, i) {
      assert RowOk(w, i);
      LoseAppliesNothing(w, token, i);
      if RemoteStopped(w, i) { assert RemoteStopped(u, i); }
    }
  }

  lemma LoseAppliesNothing(w: World, token: nat, id: nat)
    ensures AppliedFor(Next(w, Lose(token)), id) <==> AppliedFor(w, id)
  {
    var u := Next(w, Lose(token));
    if AppliedFor(w, id) {
      var t :| t in w.executors && w.executors[t].execution == id && t in w.flights && w.flights[t] == Applied;
      assert t in u.executors && u.executors[t].execution == id && t in u.flights && u.flights[t] == Applied;
    }
    if AppliedFor(u, id) {
      var t :| t in u.executors && u.executors[t].execution == id && t in u.flights && u.flights[t] == Applied;
      assert t in w.executors && w.executors[t].execution == id && t in w.flights && w.flights[t] == Applied;
    }
  }

  // ---- Store steps of one executor ----

  /** Executor t saved row `id` of the execution table; flights and the remote system are untouched. */
  ghost predicate StoreStep(w: World, u: World, t: nat, id: nat) {
    && u.flights == w.flights && u.remote == w.remote
    && t in u.executors && t != 0
    && u.executors == w.executors[t := u.executors[t]]
    && u.executors[t].execution == id
    && (t in w.executors ==> w.executors[t].execution == id && (w.executors[t].committed ==> u.executors[t].committed))
    && (t !in w.executors ==> t !in w.flights)
    && id in w.db.executions && id in u.db.executions
    && u.db.executions == w.db.executions[id := u.db.executions[id]]
    && C.VersionsLater(w.db, u.db)
    && var a, b := w.db.executions[id], u.db.executions[id];
       && b.account == a.account && b.candidate == a.candidate && b.previous == a.previous
       && (a.state != Prepared ==> b.state != Prepared && u.executors[t].pc != Armed)
       && (b.activeAccount.Some? ==> a.activeAccount.Some? && b.leaseOwner != 0)
  }

  lemma StoreStepKeepsStopped(w: World, u: World, t: nat, id: nat, i: nat)
    requires StoreStep(w, u, t, id) && RemoteStopped(w, i)
    requires i != id || w.db.executions[id].state != Prepared
    ensures RemoteStopped(u, i)
  {
  }

  lemma StoreStepKeepsExecutors(w: World, u: World, t: nat, id: nat)
    requires ExecutorsOk(w) && StoreStep(w, u, t, id) && ExecutorOk(u, t)
    ensures ExecutorsOk(u)
  {
    assert SameFlights(w, u);
    forall s | s in u.executors ensures ExecutorOk(u, s) {
      if s != t {
        assert ExecutorOk(w, s);
        var i := u.executors[s].execution;
        SameApplied(w, u, i);
        if RemoteStopped(w, i) && (i != id || w.db.executions[id].state != Prepared) {
          StoreStepKeepsStopped(w, u, t, id, i);
        }
      }
    }
  }

  lemma StoreStepKeepsRows(w: World, u: World, t: nat, id: nat)
    requires RowsOk(w) && StoreStep(w, u, t, id) && RowOk(u, id)
    ensures RowsOk(u)
  {
    assert SameFlights(w, u);
    forall i | i in u.db.executions ensures RowOk(u, i) {
      if i != id {
        assert RowOk(w, i);
        SameApplied(w, u, i);
        if RemoteStopped(w, i) { StoreStepKeepsStopped(w, u, t, id, i); }
      }
    }
  }

  /** Saving a row that stays active, or was never active, leaves the same owners idle. */
  lemma SameIdle(w: World, u: World, t: nat, id: nat)
    requires IdleOwnersOk(w.db, w.remote) && StoreStep(w, u, t, id)
    requires u.db.owners == w.db.owners && u.db.versions == w.db.versions
    requires u.db.executions[id].activeAccount == w.db.executions[id].activeAccount
    ensures IdleOwnersOk(u.db, u.remote)
  {
    forall owner | owner in u.db.owners && V.Idle(u.db, owner) ensures V.Idle(w.db, owner) {
      forall i | i in w.db.executions && w.db.executions[i].activeAccount.Some?
        ensures Account(w.db.executions[i].account) != owner
      {
        assert u.db.executions[i].activeAccount.Some? && u.db.executions[i].account == w.db.executions[i].account;
      }
    }
  }

  lemma StartKeeps(w: World, token: nat, id: nat, mode: Mode)
    requires ProtocolOk(w) && Truthful(w, Start(token, id, mode)) && ClaimsDistinct(w, Start(token, id, mode))
    ensures ProtocolOk(Next(w, Start(token, id, mode)))
  {
    var u := Next(w, Start(token, id, mode));
    if !MayClaim(w, token, id, mode) {
      ClearedIsFree(w, u);
    } else {
      StartIsStoreStep(w, token, id, mode);
      StartEffect(w, token, id, mode);
      StartKeepsItself(w, u, token, id, mode);
      StoreStepKeepsExecutors(w, u, token, id);
      StoreStepKeepsRows(w, u, token, id);
      StartKeepsOwners(w, token, id, mode);
      SameIdle(w, u, token, id);
    }
  }

  lemma StartKeepsOwners(w: World, token: nat, id: nat, mode: Mode)
    requires FlightsOwned(w) && OneCommitted(w.executors) && MayClaim(w, token, id, mode)
    ensures var u := Next(w, Start(token, id, mode));
      && FlightsOwned(u) && OneCommitted(u.executors)
      && u.db.owners == w.db.owners && u.db.versions == w.db.versions
      && id in w.db.executions && id in u.db.executions
      && u.db.executions[id].activeAccount == w.db.executions[id].activeAccount
  {
  }

  lemma StartIsStoreStep(w: World, token: nat, id: nat, mode: Mode)
    requires FlightsOwned(w) && MayClaim(w, token, id, mode)
    ensures StoreStep(w, Next(w, Start(token, id, mode)), token, id)
  {
  }

  /** The executor has just claimed its row. */
  ghost predicate Claims(w: World, u: World, token: nat, id: nat, mode: Mode) {
    && StoreStep(w, u, token, id) && token !in w.executors
    && u.db.owners == w.db.owners && u.db.versions == w.db.versions
    && var a, b := w.db.executions[id], u.db.executions[id];
       && (a.state == Prepared) == (mode == Change) && a.activeAccount.Some?
       && b == a.(state := if a.state == Prepared then Prepared else Unknown, leaseOwner := token,
                  leaseUntil := b.leaseUntil, revision := b.revision)
       && u.executors[token] == Executor(id, mode, b.state == Prepared, false, Claimed)
  }

  lemma StartEffect(w: World, token: nat, id: nat, mode: Mode)
    requires FlightsOwned(w) && MayClaim(w, token, id, mode)
    ensures Claims(w, Next(w, Start(token, id, mode)), token, id, mode)
  {
  }

  lemma StartKeepsItself(w: World, u: World, token: nat, id: nat, mode: Mode)
    requires ProtocolOk(w) && Claims(w, u, token, id, mode) && (mode == KeepOriginal ==> RemoteStopped(w, id))
    requires Distinct(w.db, w.db.executions[id])
    ensures ExecutorOk(u, token) && RowOk(u, id)
  {
    hide ProtocolOk, C.VersionsLater, RemoteStopped, AppliedFor;
    RowOf(w, id);
    assert SameFlights(w, u);
    SameApplied(w, u, id);
    if mode == KeepOriginal { StoreStepKeepsStopped(w, u, token, id, id); }
  }

  lemma RowOf(w: World, id: nat)
    requires ProtocolOk(w) && id in w.db.executions
    ensures RowOk(w, id)
  {
  }

  lemma BeforeKeeps(w: World, token: nat, granted: bool)
    requires ProtocolOk(w)
    ensures ProtocolOk(Next(w, Before(token, granted)))
  {
    hide ProtocolOk, R.Perform, R.Commits, MayWork, NextCall, SecretsReadable;
    if Is(w, token, Ready) {
      var id := w.executors[token].execution;
      if Arming(w, token, granted) {
        ArmKeeps(w, token, granted);
      } else {
        var u := At(w, token, Unsent);
        assert Next(w, Before(token, granted)) == u;
        LocalMoveKeeps(w, token, Unsent);
      }
    }
  }

  /** The callback is granted and its record commits. */
  ghost predicate Arming(w: World, token: nat, granted: bool) {
    Is(w, token, Ready) && Granted(w, token, granted) && R.Commits(w.db, R.BeforeChange(w.executors[token].execution, token))
  }

  /** Only one executor ever gets here: the row leaves prepared in the same transaction. */
  lemma ArmKeeps(w: World, token: nat, granted: bool)
    requires ProtocolOk(w) && Arming(w, token, granted)
    ensures ProtocolOk(Next(w, Before(token, granted)))
  {
    var id := w.executors[token].execution;
    var u := Next(w, Before(token, granted));
    ArmEffect(w, token, granted);
    ArmKeepsItself(w, u, token, w.executors[token].execution);
    StoreStepKeepsExecutors(w, u, token, id);
    StoreStepKeepsRows(w, u, token, id);
    SameIdle(w, u, token, id);
    OneArmed(w, token, granted);
  }

  /** The executor armed itself and its row left prepared. */
  ghost predicate Arms(w: World, u: World, token: nat, id: nat) {
    && Is(w, token, Ready) && w.executors[token].execution == id && StoreStep(w, u, token, id)
    && u.db.owners == w.db.owners && u.db.versions == w.db.versions
    && w.db.executions[id].state == Prepared && u.db.executions[id].state == Changing
    && u.db.executions[id].leaseOwner == token
    && u.db.executions[id].activeAccount == w.db.executions[id].activeAccount && w.db.executions[id].activeAccount.Some?
    && u.executors[token] == w.executors[token].(pc := Armed, committed := true)
  }

  lemma ArmEffect(w: World, token: nat, granted: bool)
    requires Arming(w, token, granted) && token != 0
    ensures Arms(w, Next(w, Before(token, granted)), token, w.executors[token].execution)
  {
  }

  lemma ArmKeepsItself(w: World, u: World, token: nat, id: nat)
    requires ProtocolOk(w) && Arms(w, u, token, id)
    ensures ExecutorOk(u, token) && RowOk(u, id)
  {
    assert ExecutorOk(w, token) && RowOk(w, id);
    assert SameFlights(w, u);
    SameApplied(w, u, id);
  }

  lemma OneArmed(w: World, token: nat, granted: bool)
    requires ExecutorsOk(w) && FlightsOwned(w) && OneCommitted(w.executors) && Arming(w, token, granted)
    ensures FlightsOwned(Next(w, Before(token, granted))) && OneCommitted(Next(w, Before(token, granted)).executors)
  {
    assert ExecutorOk(w, token);
    ArmEffect(w, token, granted);
    var id := w.executors[token].execution;
    forall s | s in w.executors && w.executors[s].execution == id ensures !w.executors[s].committed {
      assert ExecutorOk(w, s);
    }
  }

  // ---- The remote system ----

  /** The mutation sent by `token` for execution `id` reached the remote system. */
  ghost predicate Delivered(w: World, u: World, token: nat, id: nat) {
    && token in w.executors && w.executors[token].execution == id
    && token in w.flights && w.flights[token] == InFlight
    && id in w.db.executions
    && w.db.executions[id].candidate in w.db.versions
    && u.db == w.db && u.executors == w.executors
    && u.flights == w.flights[token := Applied]
    && u.remote == w.remote[Account(w.db.executions[id].account) := w.db.versions[w.db.executions[id].candidate].secret]
  }

  lemma DeliverKeeps(w: World, token: nat)
    requires WorldOk(w)
    ensures ProtocolOk(Next(w, Deliver(token)))
  {
    var u := Next(w, Deliver(token));
    if u != w {
      var id := w.executors[token].execution;
      assert Delivered(w, u, token, id);
      assert w.db.executions[id].activeAccount.Some? by { assert RowOk(w, id); }
      DeliverKeepsExecutors(w, u, token, id);
      DeliverKeepsRows(w, u, token, id);
      DeliverKeepsIdle(w, u, token, id);
    }
  }

  lemma DeliverKeepsIdle(w: World, u: World, token: nat, id: nat)
    requires Delivered(w, u, token, id) && IdleOwnersOk(w.db, w.remote) && w.db.executions[id].activeAccount.Some?
    ensures IdleOwnersOk(u.db, u.remote)
  {
  }

  lemma DeliverApplies(w: World, u: World, token: nat, id: nat, i: nat)
    requires Delivered(w, u, token, id)
    ensures AppliedFor(u, i) <==> (AppliedFor(w, i) || i == id)
  {
    if AppliedFor(w, i) {
      var t :| t in w.executors && w.executors[t].execution == i && t in w.flights && w.flights[t] == Applied;
      assert t in u.executors && u.executors[t].execution == i && t in u.flights && u.flights[t] == Applied;
    }
    if i == id {
      assert token in u.executors && u.executors[token].execution == i && token in u.flights && u.flights[token] == Applied;
    }
    if AppliedFor(u, i) && i != id {
      var t :| t in u.executors && u.executors[t].execution == i && t in u.flights && u.flights[t] == Applied;
      assert t in w.executors && w.executors[t].execution == i && t in w.flights && w.flights[t] == Applied;
    }
  }

  lemma DeliverKeepsStopped(w: World, u: World, token: nat, id: nat, i: nat)
    requires Delivered(w, u, token, id)
    ensures !RemoteStopped(w, id)
    ensures RemoteStopped(w, i) ==> RemoteStopped(u, i)
  {
  }

  lemma DeliverKeepsExecutors(w: World, u: World, token: nat, id: nat)
    requires ExecutorsOk(w) && Delivered(w, u, token, id) && w.db.executions[id].activeAccount.Some?
    ensures ExecutorsOk(u)
  {
    forall s | s in u.executors ensures ExecutorOk(u, s) {
      assert ExecutorOk(w, s);
      DeliverApplies(w, u, token, id, u.executors[s].execution);
      DeliverKeepsStopped(w, u, token, id, u.executors[s].execution);
    }
  }

  lemma DeliverKeepsRows(w: World, u: World, token: nat, id: nat)
    requires RowsOk(w) && V.VaultOk(w.db) && Delivered(w, u, token, id) && w.db.executions[id].activeAccount.Some?
    ensures RowsOk(u)
  {
    forall i | i in u.db.executions ensures RowOk(u, i) {
      assert RowOk(w, i);
      DeliverApplies(w, u, token, id, i);
      DeliverKeepsStopped(w, u, token, id, i);
      if i != id && w.db.executions[i].activeAccount.Some? { V.OthersElsewhere(w.db, id, i); }
    }
  }

  // ---- What an executor records ----

  /** Executor t's store call committed. */
  ghost predicate Recorded(w: World, u: World, t: nat, call: R.Call, pc: Pc) {
    && t in w.executors && R.WritesOneRow(call) && call.id == w.executors[t].execution
    && R.Commits(w.db, call)
    && u == At(w, t, pc).(db := R.Perform(w.db, call).db)
  }

  lemma RecordedIsStoreStep(w: World, u: World, t: nat, call: R.Call, pc: Pc)
    requires WorldOk(w) && Recorded(w, u, t, call, pc) && pc != Armed
    ensures StoreStep(w, u, t, call.id)
    ensures R.Transition(call, w.db.executions[call.id], u.db.executions[call.id], w.db.now)
  {
    hide V.VaultOk, ProtocolOk, ExecutorOk, R.Perform, R.Commits, C.VersionsLater;
    RecorderToken(w, t);
    R.CommittedCallsTransition(w.db, call);
    R.CallMovesRowsForward(w.db, call);
    R.CallMovesVersionsForward(w.db, call);
    R.RowsAreConsistent(w.db);
    R.CallKeepsVault(w.db, call);
    R.RowsAreConsistent(u.db);
  }

  lemma RecorderToken(w: World, t: nat)
    requires ProtocolOk(w) && t in w.executors
    ensures t != 0
  {
    assert ExecutorOk(w, t);
  }

  lemma TokensKept(w: World, u: World, t: nat, id: nat)
    requires FlightsOwned(w) && OneCommitted(w.executors) && StoreStep(w, u, t, id)
    requires t in w.executors && u.executors[t].committed == w.executors[t].committed
    ensures FlightsOwned(u) && OneCommitted(u.executors)
  {
  }

  /** Recording a result while the execution stays active. */
  lemma ProgressRecordedKeeps(w: World, u: World, t: nat, call: R.Call, pc: Pc)
    requires WorldOk(w) && Recorded(w, u, t, call, pc) && pc != Armed
    requires call.ChangeResult? || call.CandidateResult?
    requires ExecutorOk(u, t) && call.id in u.db.executions && RowOk(u, call.id)
    ensures ProtocolOk(u)
  {
    var id := call.id;
    RecordedIsStoreStep(w, u, t, call, pc);
    StoreStepKeepsExecutors(w, u, t, id);
    StoreStepKeepsRows(w, u, t, id);
    ProgressLeavesOwners(w, u, t, call, pc);
    SameIdle(w, u, t, id);
    TokensKept(w, u, t, id);
  }

  lemma ProgressLeavesOwners(w: World, u: World, t: nat, call: R.Call, pc: Pc)
    requires Recorded(w, u, t, call, pc)
    requires call.ChangeResult? || call.CandidateResult?
    ensures u.db.owners == w.db.owners && u.db.versions == w.db.versions
  {
  }

  /** The change was acknowledged or remains uncertain. */
  lemma ChangeResultKeeps(w: World, u: World, t: nat, changed: bool)
    requires WorldOk(w) && t in w.executors && w.executors[t].pc == Replied(changed)
    requires Recorded(w, u, t, R.ChangeResult(w.executors[t].execution, t, changed), if changed then Pc.Verifying else Stopped)
    ensures ProtocolOk(u)
  {
    var id := w.executors[t].execution;
    var call := R.ChangeResult(id, t, changed);
    var pc := if changed then Pc.Verifying else Stopped;
    RecordedIsStoreStep(w, u, t, call, pc);
    assert ExecutorOk(w, t) && RowOk(w, id);
    ProgressLeavesOwners(w, u, t, call, pc);
    ItselfAfterProgress(w, u, t, id);
    ProgressRecordedKeeps(w, u, t, call, pc);
  }

  /** The candidate was accepted by the remote system, or not. */
  lemma CandidateResultKeeps(w: World, u: World, t: nat, accepted: bool)
    requires WorldOk(w) && t in w.executors && w.executors[t].pc == Seen(accepted) && w.executors[t].mode != KeepOriginal
    requires Recorded(w, u, t, R.CandidateResult(w.executors[t].execution, t, accepted), if accepted then Publishing else Stopped)
    ensures ProtocolOk(u)
  {
    var call := R.CandidateResult(w.executors[t].execution, t, accepted);
    var pc := if accepted then Publishing else Stopped;
    RecordedIsStoreStep(w, u, t, call, pc);
    CandidateResultItself(w, u, t, accepted);
    ProgressRecordedKeeps(w, u, t, call, pc);
  }

  lemma CandidateResultItself(w: World, u: World, t: nat, accepted: bool)
    requires t in w.executors && w.executors[t].pc == Seen(accepted) && w.executors[t].mode != KeepOriginal
    requires ExecutorOk(w, t) && RowOk(w, w.executors[t].execution)
    requires Recorded(w, u, t, R.CandidateResult(w.executors[t].execution, t, accepted), if accepted then Publishing else Stopped)
    requires StoreStep(w, u, t, w.executors[t].execution)
    ensures ExecutorOk(u, t) && RowOk(u, w.executors[t].execution)
  {
    var id := w.executors[t].execution;
    var call := R.CandidateResult(id, t, accepted);
    R.CommittedCallsTransition(w.db, call);
    ProgressLeavesOwners(w, u, t, call, if accepted then Publishing else Stopped);
    ItselfAfterProgress(w, u, t, id);
  }

  /** Moving on with the same lease in an active state that is not Changing. */
  lemma ItselfAfterProgress(w: World, u: World, t: nat, id: nat)
    requires StoreStep(w, u, t, id) && t in w.executors
    requires ExecutorOk(w, t) && RowOk(w, id)
    requires u.executors[t] == w.executors[t].(pc := u.executors[t].pc)
    requires u.db.owners == w.db.owners && u.db.versions == w.db.versions
    requires var a, b, pc := w.db.executions[id], u.db.executions[id], u.executors[t].pc;
      && a.state != Prepared && a.activeAccount.Some? && b.activeAccount == a.activeAccount
      && b.leaseOwner == t
      && b.state != Changing && (b.state == Verified ==> AppliedFor(w, id))
      && (pc == Stopped || (w.executors[t].mode != KeepOriginal
            && (pc == Pc.Verifying || (pc == Publishing && AppliedFor(w, id)))
            && (w.executors[t].fromPrepared ==> w.executors[t].committed)))
    ensures ExecutorOk(u, t) && RowOk(u, id)
  {
    assert SameFlights(w, u);
    SameApplied(w, u, id);
  }

  /** Closing an execution is safe when nothing of it is under way and the vault resolves to the remote secret. */
  ghost predicate SafeToClose(w: World, u: World, t: nat, id: nat) {
    && StoreStep(w, u, t, id)
    && t in w.executors && u.executors[t] == w.executors[t].(pc := Stopped)
    && Terminal(u.db.executions[id].state)
    && u.db.executions[id].activeAccount.None?
    && u.db.executions[id].leaseOwner == 0
    && RemoteStopped(w, id)
    && u.db.owners.Keys == w.db.owners.Keys
    && var account := Account(w.db.executions[id].account);
       && account in w.remote && C.Resolve(u.db, account) == Some(w.remote[account])
       && forall o :: o in u.db.owners && o != account ==> C.Resolve(u.db, o) == C.Resolve(w.db, o)
  }

  lemma ClosingKeeps(w: World, u: World, t: nat, id: nat)
    requires ProtocolOk(w) && SafeToClose(w, u, t, id)
    ensures ProtocolOk(u)
  {
    ItselfAfterClosing(w, u, t, id);
    StoreStepKeepsExecutors(w, u, t, id);
    StoreStepKeepsRows(w, u, t, id);
    TokensKept(w, u, t, id);
    ClosingKeepsIdle(w, u, t, id);
  }

  lemma ItselfAfterClosing(w: World, u: World, t: nat, id: nat)
    requires ExecutorsOk(w) && SafeToClose(w, u, t, id)
    ensures ExecutorOk(u, t) && RowOk(u, id)
  {
    hide C.VersionsLater, C.Resolve, AppliedFor, RemoteStopped, ExecutorsOk, ExecutorOk, RowOk;
    ClosingHasExecutor(w, t);
    ClosedExecutor(w, u, t, id);
    ClosedRow(w, u, t, id);
  }

  lemma ClosedExecutor(w: World, u: World, t: nat, id: nat)
    requires SafeToClose(w, u, t, id) && ExecutorOk(w, t)
    ensures ExecutorOk(u, t)
  {
    hide C.VersionsLater, C.Resolve, AppliedFor, RemoteStopped;
  }

  lemma ClosedRow(w: World, u: World, t: nat, id: nat)
    requires SafeToClose(w, u, t, id)
    ensures RowOk(u, id)
  {
    hide C.VersionsLater, C.Resolve, AppliedFor, RemoteStopped;
    assert SameFlights(w, u);
    SameApplied(w, u, id);
    ClosedIsStopped(w, u, t, id);
  }

  lemma ClosedIsStopped(w: World, u: World, t: nat, id: nat)
    requires SafeToClose(w, u, t, id)
    ensures RemoteStopped(u, id)
  {
    hide C.VersionsLater, C.Resolve;
  }

  lemma ClosingHasExecutor(w: World, t: nat)
    requires ExecutorsOk(w) && t in w.executors
    ensures ExecutorOk(w, t)
  {
  }

  lemma ClosingKeepsIdle(w: World, u: World, t: nat, id: nat)
    requires IdleOwnersOk(w.db, w.remote) && SafeToClose(w, u, t, id)
    ensures IdleOwnersOk(u.db, u.remote)
  {
    forall owner | owner in u.db.owners && owner != Account(w.db.executions[id].account) && V.Idle(u.db, owner)
      ensures V.Idle(w.db, owner)
    {
      forall i | i in w.db.executions && w.db.executions[i].activeAccount.Some?
        ensures Account(w.db.executions[i].account) != owner
      {
        if i != id { assert u.db.executions[i] == w.db.executions[i]; }
      }
    }
  }

  /** No executor of a prepared execution has sent anything. */
  lemma PreparedIsStopped(w: World, id: nat)
    requires ExecutorsOk(w) && id in w.db.executions && w.db.executions[id].state == Prepared
    ensures RemoteStopped(w, id) && !AppliedFor(w, id)
  {
    forall t | t in w.executors && w.executors[t].execution == id
      ensures !w.executors[t].committed && t !in w.flights && w.executors[t].pc != Armed
    {
      assert ExecutorOk(w, t);
    }
  }

  /** Only the committed executor can have sent, so its own report speaks for the whole execution. */
  lemma CommitterSpeaks(w: World, t: nat, id: nat)
    requires ExecutorsOk(w) && OneCommitted(w.executors)
    requires t in w.executors && w.executors[t].execution == id && w.executors[t].committed
    requires w.executors[t].pc == Unsent || w.executors[t].pc == Rejected
    ensures RemoteStopped(w, id) && !AppliedFor(w, id)
  {
    assert ExecutorOk(w, t);
    forall s | s in w.executors && w.executors[s].execution == id && s != t
      ensures !w.executors[s].committed && s !in w.flights && w.executors[s].pc != Armed
    {
      assert ExecutorOk(w, s);
    }
  }

  /** An applied mutation was sent by the committed executor, and no other can send. */
  lemma AppliedIsStopped(w: World, id: nat)
    requires ExecutorsOk(w) && OneCommitted(w.executors) && AppliedFor(w, id)
    ensures RemoteStopped(w, id)
  {
    var t :| t in w.executors && w.executors[t].execution == id && t in w.flights && w.flights[t] == Applied;
    assert ExecutorOk(w, t);
    forall s | s in w.executors && w.executors[s].execution == id && s != t
      ensures !w.executors[s].committed && s !in w.flights && w.executors[s].pc != Armed
    {
      assert ExecutorOk(w, s);
    }
  }

  /** An active execution that applied nothing left the remote system with the version its account resolves to. */
  lemma UnchangedResolves(w: World, id: nat)
    requires WorldOk(w) && id in w.db.executions && w.db.executions[id].activeAccount.Some? && !AppliedFor(w, id)
    ensures var account := Account(w.db.executions[id].account);
      account in w.db.owners && account in w.remote && C.Resolve(w.db, account) == Some(w.remote[account])
  {
    assert RowOk(w, id) && V.Held(w.db, w.db.executions[id]);
  }

  /** Closing without touching what owners resolve to. */
  lemma CloseUnchanged(w: World, u: World, t: nat, id: nat)
    requires ProtocolOk(w) && StoreStep(w, u, t, id)
    requires t in w.executors && u.executors[t] == w.executors[t].(pc := Stopped)
    requires RemoteStopped(w, id)
    requires Terminal(u.db.executions[id].state) && u.db.executions[id].activeAccount.None? && u.db.executions[id].leaseOwner == 0
    requires u.db.owners == w.db.owners && forall o :: o in u.db.owners ==> C.Resolve(u.db, o) == C.Resolve(w.db, o)
    requires var account := Account(w.db.executions[id].account);
      account in w.db.owners && account in w.remote && C.Resolve(w.db, account) == Some(w.remote[account])
    ensures ProtocolOk(u)
  {
    ClosingKeeps(w, u, t, id);
  }

  lemma FinishKeeps(w: World, u: World, t: nat, call: R.Call)
    requires WorldOk(w) && Recorded(w, u, t, call, Stopped)
    requires (call.FinishUnsent? && w.executors[t].pc == Unsent) || (call.RejectChange? && w.executors[t].pc == Rejected)
    requires call.owner == t
    ensures ProtocolOk(u)
  {
    RecordedIsStoreStep(w, u, t, call, Stopped);
    FinishIsQuiet(w, t, call);
    UnchangedResolves(w, call.id);
    FinishLeavesOwners(w, call);
    FinishedRow(w, u, t, call);
    CloseUnchanged(w, u, t, call.id);
  }

  lemma FinishIsQuiet(w: World, t: nat, call: R.Call)
    requires ProtocolOk(w) && t in w.executors && (call.FinishUnsent? || call.RejectChange?)
    requires call.id == w.executors[t].execution && call.owner == t
    requires (call.FinishUnsent? && w.executors[t].pc == Unsent) || (call.RejectChange? && w.executors[t].pc == Rejected)
    requires R.Commits(w.db, call)
    ensures call.id in w.db.executions && w.db.executions[call.id].activeAccount.Some?
    ensures RemoteStopped(w, call.id) && !AppliedFor(w, call.id)
  {
    R.CommittedCallsTransition(w.db, call);
    var id := call.id;
    if w.db.executions[id].state == Prepared {
      PreparedIsStopped(w, id);
    } else {
      assert RowOk(w, id);
      CommitterSpeaks(w, t, id);
    }
  }

  lemma FinishLeavesOwners(w: World, call: R.Call)
    requires call.FinishUnsent? || call.RejectChange?
    ensures var db := R.Perform(w.db, call).db;
      db.owners == w.db.owners && forall o :: o in db.owners ==> C.Resolve(db, o) == C.Resolve(w.db, o)
  {
  }

  lemma FinishedRow(w: World, u: World, t: nat, call: R.Call)
    requires V.VaultOk(w.db) && Recorded(w, u, t, call, Stopped)
    requires call.FinishUnsent? || call.RejectChange? || call.PreserveOriginal?
      || (call.Publish? && call.id in w.db.executions && w.db.executions[call.id].state != Completed)
    ensures call.id in u.db.executions && u.db.executions[call.id].activeAccount.None?
    ensures Terminal(u.db.executions[call.id].state) && u.db.executions[call.id].leaseOwner == 0
  {
    R.CommittedCallsTransition(w.db, call);
    R.CallKeepsVault(w.db, call);
    assert V.RowConsistent(u.db.executions[call.id]);
  }

  lemma PreserveKeeps(w: World, u: World, t: nat)
    requires WorldOk(w) && t in w.executors && w.executors[t].pc == Seen(true) && w.executors[t].mode == KeepOriginal
    requires Recorded(w, u, t, R.PreserveOriginal(w.executors[t].execution, t), Stopped)
    ensures ProtocolOk(u)
  {
    hide V.VaultOk, C.VersionsLater, StoreStep, R.Transition;
    var id := w.executors[t].execution;
    var call := R.PreserveOriginal(id, t);
    RecordedIsStoreStep(w, u, t, call, Stopped);
    assert ExecutorOk(w, t);
    UnchangedResolves(w, id);
    FinishedRow(w, u, t, call);
    PreserveLeavesResolution(w, id, t);
    CloseUnchanged(w, u, t, id);
  }

  /** Retaining a pending version cannot change what any owner resolves to. */
  lemma PreserveLeavesResolution(w: World, id: nat, t: nat)
    requires V.VaultOk(w.db) && E.PreserveOriginal(w.db, id, t).reply.Ok?
    ensures var db := E.PreserveOriginal(w.db, id, t).db;
      db.owners == w.db.owners && forall o :: o in db.owners ==> C.Resolve(db, o) == C.Resolve(w.db, o)
  {
    var row := w.db.executions[id];
    assert V.ReferencesAreActive(w.db);
  }

  lemma PublishRecordedKeeps(w: World, u: World, t: nat)
    requires WorldOk(w) && t in w.executors && w.executors[t].pc == Publishing
    requires Recorded(w, u, t, R.Publish(w.executors[t].execution, t), Stopped)
    requires w.db.executions[w.executors[t].execution].state != Completed
    ensures ProtocolOk(u)
  {
    hide WorldOk, ProtocolOk, SafeToClose, V.VaultOk;
    PublishIsSafe(w, u, t);
    PartsOf(w);
    ClosingKeeps(w, u, t, w.executors[t].execution);
  }

  lemma PartsOf(w: World)
    requires WorldOk(w)
    ensures ProtocolOk(w) && V.VaultOk(w.db) && ExecutorsOk(w) && OneCommitted(w.executors)
  {
  }

  lemma PublishIsSafe(w: World, u: World, t: nat)
    requires WorldOk(w) && t in w.executors && w.executors[t].pc == Publishing
    requires Recorded(w, u, t, R.Publish(w.executors[t].execution, t), Stopped)
    requires w.db.executions[w.executors[t].execution].state != Completed
    ensures SafeToClose(w, u, t, w.executors[t].execution)
  {
    hide WorldOk, ProtocolOk, ExecutorsOk, OneCommitted, StoreStep, R.Transition, AppliedFor, RemoteStopped,
         V.VaultOk, E.Publish;
    var id := w.executors[t].execution;
    PartsOf(w);
    RecordedIsStoreStep(w, u, t, R.Publish(id, t), Stopped);
    R.PublishSucceedsExactly(w.db, id, t);
    RowOf(w, id);
    AppliedIsStopped(w, id);
    PublishedResolves(w.db, id, t);
    FinishedRow(w, u, t, R.Publish(id, t));
  }

  /** After a publish the account resolves to the candidate, every other owner as before. */
  lemma PublishedResolves(db: Db, id: nat, t: nat)
    requires V.VaultOk(db) && E.Publish(db, id, t).reply.Ok? && db.executions[id].state != Completed
    ensures var after := E.Publish(db, id, t).db;
      var row := db.executions[id];
      && after.owners.Keys == db.owners.Keys
      && row.candidate in db.versions
      && C.Resolve(after, Account(row.account)) == Some(db.versions[row.candidate].secret)
      && forall o :: o in after.owners && o != Account(row.account) ==> C.Resolve(after, o) == C.Resolve(db, o)
  {
    hide C.PublishVersion, V.ExecutionsOk, V.ActiveIsReferenced;
    var row := db.executions[id];
    var account := Account(row.account);
    C.PublishIsCompareAndSwap(db, account, db.owners[account].auth, row.previous, row.candidate);
    assert V.ReferencesAreActive(db);
  }

  /** A recorded call that commits, other than a publish of an already completed row. */
  ghost predicate RecordsCall(w: World, u: World, t: nat, call: R.Call, code: string) {
    && t in w.executors && NextCall(w.executors[t], t, code) == Some(call)
    && R.Commits(w.db, call)
    && u == At(w, t, AfterCall(w.executors[t], true)).(db := R.Perform(w.db, call).db)
    && (call.Publish? ==> call.id in w.db.executions && w.db.executions[call.id].state != Completed)
  }

  lemma FinishRecordKeeps(w: World, u: World, t: nat, call: R.Call, code: string)
    requires WorldOk(w) && RecordsCall(w, u, t, call, code)
    requires call.FinishUnsent? || call.RejectChange?
    ensures ProtocolOk(u)
  {
    hide WorldOk, ProtocolOk;
    assert Recorded(w, u, t, call, Stopped);
    FinishKeeps(w, u, t, call);
  }

  lemma ChangeRecordKeeps(w: World, u: World, t: nat, call: R.Call, code: string)
    requires WorldOk(w) && RecordsCall(w, u, t, call, code) && call.ChangeResult?
    ensures ProtocolOk(u)
  {
    hide WorldOk, ProtocolOk;
    var pc := if call.changed then Pc.Verifying else Stopped;
    assert w.executors[t].pc == Replied(call.changed);
    assert Recorded(w, u, t, call, pc);
    ChangeResultKeeps(w, u, t, call.changed);
  }

  lemma CandidateRecordKeeps(w: World, u: World, t: nat, call: R.Call, code: string)
    requires WorldOk(w) && RecordsCall(w, u, t, call, code) && call.CandidateResult?
    ensures ProtocolOk(u)
  {
    hide WorldOk, ProtocolOk;
    var pc := if call.verified then Publishing else Stopped;
    assert w.executors[t].pc == Seen(call.verified);
    assert Recorded(w, u, t, call, pc);
    CandidateResultKeeps(w, u, t, call.verified);
  }

  lemma PublishRecordKeeps(w: World, u: World, t: nat, call: R.Call, code: string)
    requires WorldOk(w) && RecordsCall(w, u, t, call, code) && call.Publish?
    ensures ProtocolOk(u)
  {
    hide WorldOk, ProtocolOk;
    var id := w.executors[t].execution;
    assert w.executors[t].pc == Publishing && call == R.Publish(id, t);
    PublishRecordedKeeps(w, u, t);
  }

  lemma PreserveRecordKeeps(w: World, u: World, t: nat, call: R.Call, code: string)
    requires WorldOk(w) && RecordsCall(w, u, t, call, code) && call.PreserveOriginal?
    ensures ProtocolOk(u)
  {
    hide WorldOk, ProtocolOk;
    assert w.executors[t].pc == Seen(true);
    assert Recorded(w, u, t, call, Stopped);
    PreserveKeeps(w, u, t);
  }

  lemma RecordedNothing(w: World, token: nat, code: string)
    requires token in w.executors && NextCall(w.executors[token], token, code).Some?
    requires var call := NextCall(w.executors[token], token, code).value;
      !R.Commits(w.db, call)
      || (call.Publish? && call.id in w.db.executions && w.db.executions[call.id].state == Completed)
    ensures Next(w, Record(token, code)) == At(w, token, Stopped)
  {
    R.CommittedCallsTransition(w.db, NextCall(w.executors[token], token, code).value);
  }

  lemma RecordKeeps(w: World, token: nat, code: string)
    requires WorldOk(w)
    ensures ProtocolOk(Next(w, Record(token, code)))
  {
    hide ProtocolOk, R.Perform, V.VaultOk;
    var u := Next(w, Record(token, code));
    if token in w.executors && NextCall(w.executors[token], token, code).Some? {
      var call := NextCall(w.executors[token], token, code).value;
      if !R.Commits(w.db, call)
         || (call.Publish? && call.id in w.db.executions && w.db.executions[call.id].state == Completed) {
        RecordedNothing(w, token, code);
        LocalMoveKeeps(w, token, Stopped);
      } else {
        RecordIsCall(w, token, call, code);
        if call.FinishUnsent? || call.RejectChange? {
          FinishRecordKeeps(w, u, token, call, code);
        } else if call.ChangeResult? {
          ChangeRecordKeeps(w, u, token, call, code);
        } else if call.CandidateResult? {
          CandidateRecordKeeps(w, u, token, call, code);
        } else if call.Publish? {
          PublishRecordKeeps(w, u, token, call, code);
        } else {
          PreserveRecordKeeps(w, u, token, call, code);
        }
      }
    }
  }

  lemma RecordIsCall(w: World, token: nat, call: R.Call, code: string)
    requires token in w.executors && NextCall(w.executors[token], token, code) == Some(call) && R.Commits(w.db, call)
    requires !(call.Publish? && call.id in w.db.executions && w.db.executions[call.id].state == Completed)
    ensures RecordsCall(w, Next(w, Record(token, code)), token, call, code)
    ensures call.FinishUnsent? || call.RejectChange? || call.ChangeResult? || call.CandidateResult? || call.Publish? || call.PreserveOriginal?
  {
    hide C.VersionsLater, R.Perform, E.HoldsLease, MayWork, MayClaim, Granted, SecretsReadable, OutsideCall, RemoteAfter;
    if call.Publish? { R.CommittedCallsTransition(w.db, call); }
  }

  // ---- The writers outside the protocol ----

  /** What changed outside: `who` now resolves to what the remote system was told, everyone else as before. */
  ghost predicate OutsideStep(w: World, u: World, who: Owner) {
    && u.executors == w.executors && u.flights == w.flights
    && u.db.executions == w.db.executions
    && C.VersionsLater(w.db, u.db)
    && u.db.owners.Keys <= w.db.owners.Keys + {who}
    && (forall o :: o in u.db.owners && o != who ==>
          o in w.db.owners && C.Resolve(u.db, o) == C.Resolve(w.db, o) && (o in w.remote ==> o in u.remote && u.remote[o] == w.remote[o]))
    && (who in u.db.owners && V.Idle(u.db, who) ==> who in u.remote && C.Resolve(u.db, who) == Some(u.remote[who]))
    && (who in u.db.owners ==> who in u.remote)
    && (forall id :: id in w.db.executions && w.db.executions[id].activeAccount.Some? ==>
          var account := Account(w.db.executions[id].account);
          account in w.remote ==> account in u.remote && u.remote[account] == w.remote[account])
  }

  lemma OutsideStepKeeps(w: World, u: World, who: Owner)
    requires ProtocolOk(w) && OutsideStep(w, u, who)
    ensures ProtocolOk(u)
  {
    hide ExecutorsOk, RowsOk, IdleOwnersOk, OutsideStep, OneCommitted;
    OutsideKeepsExecutors(w, u, who);
    OutsideKeepsRows(w, u, who);
    OutsideKeepsIdle(w, u, who);
  }

  lemma OutsideKeepsExecutors(w: World, u: World, who: Owner)
    requires ExecutorsOk(w) && OutsideStep(w, u, who)
    ensures ExecutorsOk(u) && u.executors == w.executors && u.flights == w.flights
  {
    hide AppliedFor, RemoteStopped, C.VersionsLater;
    assert SameFlights(w, u);
    forall t | t in u.executors ensures ExecutorOk(u, t) {
      assert ExecutorOk(w, t);
      SameApplied(w, u, u.executors[t].execution);
      SameStopped(w, u, u.executors[t].execution);
    }
  }

  lemma OutsideKeepsIdle(w: World, u: World, who: Owner)
    requires IdleOwnersOk(w.db, w.remote) && OutsideStep(w, u, who)
    ensures IdleOwnersOk(u.db, u.remote)
  {
    hide C.VersionsLater, C.Resolve;
  }

  lemma SameStopped(w: World, u: World, id: nat)
    requires u.executors == w.executors && u.flights == w.flights
    ensures RemoteStopped(u, id) <==> RemoteStopped(w, id)
  {
  }

  lemma OutsideKeepsRows(w: World, u: World, who: Owner)
    requires RowsOk(w) && OutsideStep(w, u, who)
    ensures RowsOk(u)
  {
    assert SameFlights(w, u);
    forall id | id in u.db.executions ensures RowOk(u, id) {
      assert RowOk(w, id);
      SameApplied(w, u, id);
      SameStopped(w, u, id);
    }
  }

  /** No owner outside a lawful writer's reach: it was idle, so no active execution depends on its remote secret. */
  lemma WrittenOwnerIsIdle(db: Db, call: R.Call)
    requires V.VaultOk(db) && R.Commits(db, call)
    requires call.CreateOwner? || (call.UpdateCredential? && call.edit.secret.Some?)
    ensures V.Idle(db, call.who)
  {
    if call.CreateOwner? { V.UnknownIsIdle(db, call.who); } else { V.UnmanagedOrFreeIsIdle(db, call.who); }
  }

  lemma WriterIsOutsideStep(w: World, call: R.Call)
    requires WorldOk(w) && R.Commits(w.db, call)
    requires call.CreateOwner? || (call.UpdateCredential? && call.edit.secret.Some?)
    ensures OutsideStep(w, Next(w, Outside(call)), call.who)
  {
    WrittenOwnerIsIdle(w.db, call);
    R.CallMovesVersionsForward(w.db, call);
    if call.CreateOwner? {
      CreateResolves(w.db, call.who, call.auth, call.secret, call.newVersion);
    } else {
      UpdateResolves(w.db, call.who, call.edit, call.newVersion);
    }
  }

  lemma QuietIsOutsideStep(w: World, u: World, who: Owner)
    requires IdleOwnersOk(w.db, w.remote)
    requires u == w.(db := u.db, cleared := u.cleared) && u.db.executions == w.db.executions
    requires C.VersionsLater(w.db, u.db) && SameResolution(w.db, u.db)
    ensures OutsideStep(w, u, who)
  {
    assert V.Idle(u.db, who) <==> V.Idle(w.db, who);
  }

  lemma OtherWritersKeep(w: World, call: R.Call)
    requires WorldOk(w) && OutsideCall(call) && !call.Prepare?
    ensures ProtocolOk(Next(w, Outside(call)))
  {
    var u := Next(w, Outside(call));
    if R.Commits(w.db, call) && (call.CreateOwner? || (call.UpdateCredential? && call.edit.secret.Some?)) {
      WriterIsOutsideStep(w, call);
      OutsideStepKeeps(w, u, call.who);
    } else {
      QuietWriters(w, call);
      QuietIsOutsideStep(w, u, Gateway(0));
      OutsideStepKeeps(w, u, Gateway(0));
    }
  }

  lemma QuietWriters(w: World, call: R.Call)
    requires V.VaultOk(w.db) && OutsideCall(call) && !call.Prepare?
    requires !R.Commits(w.db, call) || !(call.CreateOwner? || (call.UpdateCredential? && call.edit.secret.Some?))
    ensures var u := Next(w, Outside(call));
      && u == w.(db := u.db) && u.db.executions == w.db.executions
      && C.VersionsLater(w.db, u.db) && SameResolution(w.db, u.db)
  {
    hide V.VaultOk, R.Perform, C.VersionsLater, SameResolution;
    R.CallMovesVersionsForward(w.db, call);
    R.OtherCallsSaveNoRow(w.db, call);
    SecretsStay(w.db, call);
  }

  lemma SecretsStay(db: Db, call: R.Call)
    requires V.VaultOk(db) && OutsideCall(call) && !call.Prepare?
    requires !R.Commits(db, call) || !(call.CreateOwner? || (call.UpdateCredential? && call.edit.secret.Some?))
    ensures SameResolution(db, R.Perform(db, call).db)
  {
    hide C.Adopt, C.RemoveManagement, C.SetEnabled, C.Resolve, C.Persist;
    match call
    case CreateOwner(who, auth, secret, newVersion) =>
    case UpdateCredential(who, edit, newVersion) => UpdateResolves(db, who, edit, newVersion);
    case Adopt(account, newVersion) => AdoptResolves(db, account, newVersion);
    case RemoveManagement(account, revision) => RemoveManagementResolves(db, account, revision);
    case SetEnabled(account, revision, enabled, assetPresent) => SetEnabledResolves(db, account, revision, enabled, assetPresent);
    case Retarget(change) => SameCredentials(db, T.Apply(db, change).db);
    case DeleteOwner(who, allowed) => DeletionResolves(db, who, allowed);
    case Tick(elapsed) => SameCredentials(db, R.Perform(db, call).db);
  }

  lemma SameCredentials(db: Db, after: Db)
    requires after.owners == db.owners && after.versions == db.versions
    ensures SameResolution(db, after)
  {
  }

  lemma DeletionResolves(db: Db, who: Owner, allowed: bool)
    ensures SameResolution(db, T.DeleteOwner(db, who, allowed).db)
  {
  }

  // ---- Preparing ----

  /** A new execution row, its pending candidate, and nothing else. */
  ghost predicate PreparedNew(w: World, u: World, id: nat) {
    && u == w.(db := u.db)
    && id !in w.db.executions && id in u.db.executions
    && u.db.executions == w.db.executions[id := u.db.executions[id]]
    && u.db.owners == w.db.owners
    && (forall v :: v in w.db.versions ==> v in u.db.versions && u.db.versions[v] == w.db.versions[v])
    && var row := u.db.executions[id];
       && row.state == Prepared && row.leaseOwner == 0
       && row.activeAccount == Some(row.account)
       && Account(row.account) in w.db.owners
       && row.previous == w.db.owners[Account(row.account)].reference && row.previous != 0
       && row.candidate in u.db.versions
       && V.Idle(w.db, Account(row.account))
  }

  lemma PrepareIsNew(w: World, call: R.Call)
    requires V.VaultOk(w.db) && call.Prepare? && R.Perform(w.db, call).db != w.db
    ensures PreparedNew(w, Next(w, Outside(call)), call.newId)
  {
    var owner := Account(call.input.account);
    forall i | i in w.db.executions && w.db.executions[i].activeAccount.Some?
      ensures Account(w.db.executions[i].account) != owner
    {
      assert V.RowConsistent(w.db.executions[i]);
    }
  }

  lemma PreparedKeeps(w: World, u: World, id: nat)
    requires WorldOk(w) && PreparedNew(w, u, id)
    ensures ProtocolOk(u)
  {
    assert SameFlights(w, u);
    forall t | t in u.executors ensures ExecutorOk(u, t) {
      assert ExecutorOk(w, t);
      SameApplied(w, u, u.executors[t].execution);
      SameStopped(w, u, u.executors[t].execution);
    }
    PreparedKeepsRows(w, u, id);
    PreparedKeepsIdle(w, u, id);
  }

  lemma PreparedKeepsRows(w: World, u: World, id: nat)
    requires WorldOk(w) && PreparedNew(w, u, id)
    ensures RowsOk(u)
  {
    assert SameFlights(w, u);
    forall i | i in u.db.executions ensures RowOk(u, i) {
      SameApplied(w, u, i);
      SameStopped(w, u, i);
      if i != id {
        assert RowOk(w, i);
      } else {
        forall t | t in w.executors ensures w.executors[t].execution != id { assert ExecutorOk(w, t); }
        var row := u.db.executions[id];
        assert C.Readable(w.db, Account(row.account), row.previous, Active);
      }
    }
  }

  lemma PreparedKeepsIdle(w: World, u: World, id: nat)
    requires V.VaultOk(w.db) && IdleOwnersOk(w.db, w.remote) && PreparedNew(w, u, id)
    ensures IdleOwnersOk(u.db, u.remote)
  {
    forall owner | owner in u.db.owners && V.Idle(u.db, owner)
      ensures C.Resolve(u.db, owner) == Some(u.remote[owner])
    {
      assert V.Idle(w.db, owner) by {
        forall i | i in w.db.executions && w.db.executions[i].activeAccount.Some?
          ensures Account(w.db.executions[i].account) != owner
        {
          assert u.db.executions[i] == w.db.executions[i];
        }
      }
      var r := w.db.owners[owner].reference;
      if r != 0 { assert C.Readable(w.db, owner, r, Active); }
    }
  }
}
