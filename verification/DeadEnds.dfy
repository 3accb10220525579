/** When an execution can no longer be ended: nothing in the tables lets anybody work on it again, and nobody who was
 let through before can still finish it, or its account was deleted. Such a state is never left. */
module DeadEnds {
  import opened Basics
  import opened Tables
  import C = CredentialSpec
  import E = ExecutionSpec
  import T = TargetSpec
  import V = VaultInvariant
  import R = VaultRuns
  import opened TargetInvariant
  import opened PasswordProtocol
  import opened ProtocolInvariant
  import opened HolderPositions
  import N = NoLockOutTheorem

  // ---- Who can still finish ----

  /** The secret that is authenticated with can turn out to be the one the remote system accepts: the previous one if
   the mutation was not applied, the candidate if it was or may still be. */
  ghost predicate CanComeTrue(w: World, id: nat, mode: Mode) {
    if mode == KeepOriginal then !AppliedFor(w, id) else AppliedFor(w, id) || !RemoteStopped(w, id)
  }

  /** From here the program goes on to an end of the execution without being let through again. */
  ghost predicate Promising(x: Executor, comes: bool) {
    match x.pc
    case Claimed => x.fromPrepared
    case Authorized => x.fromPrepared || comes
    case Verifying => comes
    case Seen(accepted) => accepted
    case Replied(changed) => changed
    case Stopped => false
    case _ => true
  }

  /** This executor holds the lease and can still bring the execution to an end. */
  ghost predicate Carries(w: World, id: nat, t: nat)
    requires id in w.db.executions
  {
    && t in w.executors && w.executors[t].execution == id && E.HoldsLease(w.db.executions[id], t, w.db.now)
    && Promising(w.executors[t], CanComeTrue(w, id, w.executors[t].mode))
  }

  ghost predicate NobodyCarries(w: World, id: nat)
    requires id in w.db.executions
  {
    forall t :: !Carries(w, id, t)
  }

  /** This executor was let through to start the change and has not claimed the row yet. */
  predicate ClearedToStart(w: World, id: nat, t: nat) {
    t != 0 && t in w.cleared && t !in w.executors && w.cleared[t] == Clearance(id, Change)
  }

  ghost predicate UnderWay(w: World, id: nat)
    requires id in w.db.executions
  {
    || (exists t :: Carries(w, id, t))
    || (w.db.executions[id].state == Prepared && exists t :: ClearedToStart(w, id, t))
  }

  /** Somebody can still be let through, or somebody who was let through before can still finish. */
  ghost predicate WithinReach(w: World, id: nat)
    requires id in w.db.executions
  {
    Workable(w.db, w.db.executions[id]) || UnderWay(w, id)
  }

  /** The condition: it has ended, or its account still exists and the execution is within somebody's reach. */
  ghost predicate StillOpen(w: World, id: nat)
    requires id in w.db.executions
  {
    || Terminal(w.db.executions[id].state)
    || (Exists(w.db, Account(w.db.executions[id].account)) && WithinReach(w, id))
  }

  /** Out of everybody's reach. */
  ghost predicate Shut(w: World, id: nat) {
    Reached(w) && id in w.db.executions && !Terminal(w.db.executions[id].state) && !WithinReach(w, id)
  }

  /** Active, and its account was deleted. */
  ghost predicate Orphaned(w: World, id: nat) {
    && V.VaultOk(w.db) && id in w.db.executions && !Terminal(w.db.executions[id].state)
    && !Exists(w.db, Account(w.db.executions[id].account))
  }

  ghost predicate Stuck(w: World, id: nat) {
    Reached(w) && id in w.db.executions && !StillOpen(w, id)
  }

  // ---- Parts of a world without a way in ----

  lemma ShutParts(w: World, id: nat)
    requires Shut(w, id)
    ensures WorldOk(w) && V.VaultOk(w.db) && ProtocolOk(w) && HoldersPlaced(w) && ModesMatch(w)
    ensures id in w.db.executions && !Terminal(w.db.executions[id].state) && !Workable(w.db, w.db.executions[id])
    ensures w.db.executions[id].activeAccount.Some? && TargetHeld(w.db, w.db.executions[id])
    ensures NobodyCarries(w, id)
    ensures w.db.executions[id].state == Prepared ==> forall t :: !ClearedToStart(w, id, t)
  {
    assert V.RowConsistent(w.db.executions[id]);
  }

  ghost predicate NoNewClearance(w: World, u: World) {
    && w.executors.Keys <= u.executors.Keys
    && forall t :: t in u.cleared ==> t in w.cleared && u.cleared[t] == w.cleared[t]
  }

  lemma StaysShut(w: World, u: World, id: nat)
    requires Shut(w, id) && Reached(u) && id in u.db.executions && NoNewClearance(w, u)
    requires !Terminal(u.db.executions[id].state) && !Workable(u.db, u.db.executions[id])
    requires u.db.executions[id].state == Prepared ==> w.db.executions[id].state == Prepared
    requires NobodyCarries(u, id)
    ensures Shut(u, id)
  {
    hide Reached, Workable, Carries;
    forall t | u.db.executions[id].state == Prepared ensures !ClearedToStart(u, id, t) {
      assert ClearedToStart(u, id, t) ==> ClearedToStart(w, id, t);
    }
  }

  // ---- The tables ----

  /** A call cannot make the row workable unless it takes it out of prepared. */
  lemma CallLeavesUnworkable(db: Db, call: R.Call, id: nat)
    requires V.VaultOk(db) && id in db.executions && db.executions[id].activeAccount.Some?
    requires TargetHeld(db, db.executions[id]) && !Workable(db, db.executions[id])
    requires id in R.Perform(db, call).db.executions
    requires db.executions[id].state == Prepared ==> R.Perform(db, call).db.executions[id].state == Prepared
    ensures !Workable(R.Perform(db, call).db, R.Perform(db, call).db.executions[id])
  {
    hide V.VaultOk, R.Perform, TargetHeld, Workable, OwnersLater, AssetsLater, BindingsLater, R.RowLater;
    RowOfActive(db, id);
    CallMovesTargets(db, call, db.executions[id].account);
    StillActiveWasActive(db, call, id);
    if db.executions[id].state != Prepared { NotBackToPrepared(db.executions[id], R.Perform(db, call).db.executions[id]); }
    LostForGood(db, R.Perform(db, call).db, db.executions[id], R.Perform(db, call).db.executions[id]);
  }

  lemma NotBackToPrepared(a: Execution, b: Execution)
    requires R.RowLater(a, b) && a.state != Prepared
    ensures b.state != Prepared
  {
  }

  /** Calls that write another row, or none. */
  lemma OtherRowStays(db: Db, call: R.Call, id: nat)
    requires V.VaultOk(db) && id in db.executions && !(R.WritesOneRow(call) && call.id == id)
    ensures var after := R.Perform(db, call).db; id in after.executions && after.executions[id] == db.executions[id]
  {
    hide V.VaultOk, R.Perform;
    if call.Prepare? {
      R.PrepareAddsUnsentRow(db, call);
    } else if R.WritesOneRow(call) {
      R.CommittedCallsTransition(db, call);
    } else {
      R.OtherCallsSaveNoRow(db, call);
    }
  }

  // ---- What can still come true ----

  /** Nothing new of this execution is under way to the remote system, and what was applied stays applied. */
  ghost predicate NoneSooner(w: World, u: World, id: nat) {
    forall mode :: CanComeTrue(u, id, mode) ==> CanComeTrue(w, id, mode)
  }

  lemma SameFlightsNoneSooner(w: World, u: World, id: nat)
    requires SameFlights(w, u) && (RemoteStopped(w, id) ==> RemoteStopped(u, id))
    ensures NoneSooner(w, u, id)
  {
    hide RemoteStopped, AppliedFor;
    SameApplied(w, u, id);
  }

  lemma UntouchedNoneSooner(w: World, u: World, id: nat)
    requires u.executors == w.executors && u.flights == w.flights
    ensures NoneSooner(w, u, id)
  {
    hide RemoteStopped, AppliedFor;
    SameApplied(w, u, id);
    SameStopped(w, u, id);
  }

  // ---- Who does not carry ----

  /** The row and the others are as before; executor t, if it holds the lease, does not promise anything. */
  lemma NoneCarries(w: World, u: World, id: nat, t: nat)
    requires id in w.db.executions && id in u.db.executions && u.db.executions[id] == w.db.executions[id] && w.db.now <= u.db.now
    requires NobodyCarries(w, id)
    requires NoneSooner(w, u, id)
    requires forall s :: s in u.executors && s != t ==> s in w.executors && u.executors[s] == w.executors[s]
    requires t in u.executors && u.executors[t].execution == id && E.HoldsLease(w.db.executions[id], t, w.db.now) ==>
      !Promising(u.executors[t], CanComeTrue(u, id, u.executors[t].mode))
    ensures NobodyCarries(u, id)
  {
    hide CanComeTrue;
    forall s ensures !Carries(u, id, s) {
      assert s != t && Carries(u, id, s) ==> Carries(w, id, s);
    }
  }

  /** The row was saved under the name of t, and t promises nothing. */
  lemma NoneCarriesAfterSave(u: World, id: nat, t: nat)
    requires id in u.db.executions && u.db.executions[id].leaseOwner == t
    requires t in u.executors ==> !Promising(u.executors[t], CanComeTrue(u, id, u.executors[t].mode))
    ensures NobodyCarries(u, id)
  {
    hide CanComeTrue;
  }

  lemma NoneCarriesStill(w: World, u: World, id: nat)
    requires id in w.db.executions && id in u.db.executions && u.db.executions[id] == w.db.executions[id] && w.db.now <= u.db.now
    requires NobodyCarries(w, id) && NoneSooner(w, u, id) && u.executors == w.executors
    ensures NobodyCarries(u, id)
  {
    hide CanComeTrue;
    forall s ensures !Carries(u, id, s) {
      assert Carries(u, id, s) ==> Carries(w, id, s);
    }
  }

  // ---- Event by event ----

  /** A recovery that was claimed is not let through. */
  lemma RecoveryIsDenied(w: World, id: nat, t: nat, granted: bool)
    requires HoldersPlaced(w) && ModesMatch(w) && Is(w, t, Claimed) && w.executors[t].execution == id && !w.executors[t].fromPrepared
    requires id in w.db.executions && !Workable(w.db, w.db.executions[id]) && E.HoldsLease(w.db.executions[id], t, w.db.now)
    ensures !Granted(w, t, granted)
  {
    hide Workable;
    assert Placed(w.executors[t], t, w.db.executions[id]);
    if MayWork(w.db, id, w.executors[t].mode) { WorkNeedsTarget(w.db, w.db.executions[id]); }
  }

  /** A secret that cannot come true is not accepted. */
  lemma FalseSecretIsRejected(w: World, id: nat, t: nat, accepted: bool)
    requires ProtocolOk(w) && t in w.executors && w.executors[t].execution == id && !CanComeTrue(w, id, w.executors[t].mode)
    requires id in w.db.executions && w.db.executions[id].activeAccount.Some? && Truthful(w, Verify(t, accepted))
    ensures !accepted
  {
    hide ProtocolOk, AppliedFor, RemoteStopped, FlightMatches;
    RowOf(w, id);
    ExecutorOf(w, t);
  }

  lemma LocalEventPromisesNothing(w: World, e: Event, id: nat)
    requires ProtocolOk(w) && HoldersPlaced(w) && ModesMatch(w) && Truthful(w, e) && N.LocalEvent(e)
    requires id in w.db.executions && !Workable(w.db, w.db.executions[id]) && w.db.executions[id].activeAccount.Some?
    requires e.token in w.executors && w.executors[e.token].execution == id && !Carries(w, id, e.token)
    requires E.HoldsLease(w.db.executions[id], e.token, w.db.now)
    ensures var u := Next(w, e);
      e.token in u.executors && !Promising(u.executors[e.token], CanComeTrue(w, id, w.executors[e.token].mode))
  {
    hide ProtocolOk, HoldersPlaced, ModesMatch, Workable, Granted, CanComeTrue, Truthful, SecretsReadable, MayClaim,
         R.Perform, R.Commits, E.HoldsLease;
    if e.Authorize? && Is(w, e.token, Claimed) && !w.executors[e.token].fromPrepared { RecoveryIsDenied(w, id, e.token, e.granted); }
    if e.Verify? && !CanComeTrue(w, id, w.executors[e.token].mode) { FalseSecretIsRejected(w, id, e.token, e.accepted); }
  }

  lemma LocalNoneSooner(w: World, e: Event, id: nat)
    requires ProtocolOk(w) && (N.LocalEvent(e) || e.Crash?)
    ensures NoneSooner(w, Next(w, e), id)
  {
    hide ProtocolOk, Next, AppliedFor;
    LocalEventIsMove(w, e);
    LocalFlights(w, e);
    SameFlightsNoneSooner(w, Next(w, e), id);
  }

  lemma LocalFlights(w: World, e: Event)
    requires N.LocalEvent(e) || e.Crash?
    ensures Next(w, e).flights == w.flights && NoNewClearance(w, Next(w, e))
  {
    hide R.Perform, R.Commits, NextCall, AfterCall, SecretsReadable, Granted, MayClaim;
  }

  lemma LocalNoneCarries(w: World, e: Event, id: nat)
    requires ProtocolOk(w) && HoldersPlaced(w) && ModesMatch(w) && Truthful(w, e) && N.LocalEvent(e)
    requires id in w.db.executions && !Workable(w.db, w.db.executions[id]) && w.db.executions[id].activeAccount.Some?
    requires NobodyCarries(w, id)
    ensures Next(w, e).db == w.db && NobodyCarries(Next(w, e), id)
  {
    hide Next, Workable, ProtocolOk, HoldersPlaced, ModesMatch, Moves, NoneSooner, Truthful, E.HoldsLease, Promising,
         CanComeTrue;
    var u := Next(w, e);
    LocalEventIsMove(w, e);
    LocalNoneSooner(w, e, id);
    if e.token in w.executors && w.executors[e.token].execution == id && E.HoldsLease(w.db.executions[id], e.token, w.db.now) {
      LocalEventPromisesNothing(w, e, id);
      StillNoPromise(w, u, id, e.token);
    }
    NoneCarries(w, u, id, e.token);
  }

  lemma LocalStaysShut(w: World, e: Event, id: nat)
    requires Shut(w, id) && Assumed(w, e) && N.LocalEvent(e)
    ensures Shut(Next(w, e), id)
  {
    hide Shut, Next, NobodyCarries, Carries, Workable, Reached, WorldOk, ProtocolOk, HoldersPlaced, ModesMatch,
         NoNewClearance;
    ShutParts(w, id);
    ReachedOf(w, id);
    NextKeepsReached(w, e);
    LocalFlights(w, e);
    LocalNoneCarries(w, e, id);
    StaysShut(w, Next(w, e), id);
  }

  lemma ReachedOf(w: World, id: nat)
    requires Shut(w, id)
    ensures Reached(w)
  {
  }

  lemma StillNoPromise(w: World, u: World, id: nat, t: nat)
    requires NoneSooner(w, u, id) && t in w.executors && t in u.executors && u.executors[t].mode == w.executors[t].mode
    requires !Promising(u.executors[t], CanComeTrue(w, id, w.executors[t].mode))
    ensures !Promising(u.executors[t], CanComeTrue(u, id, u.executors[t].mode))
  {
    hide CanComeTrue;
  }

  lemma CrashEffect(w: World, token: nat)
    ensures var u := Next(w, Crash(token));
      && u.db == w.db && u.flights == w.flights && NoNewClearance(w, u)
      && u.executors == if token in w.executors then w.executors[token := w.executors[token].(pc := Stopped)] else w.executors
  {
    hide R.Perform, R.Commits, NextCall, AfterCall, SecretsReadable, Granted, MayClaim, MayWork;
  }

  lemma CrashStaysShut(w: World, token: nat, id: nat)
    requires Shut(w, id)
    ensures Shut(Next(w, Crash(token)), id)
  {
    hide Shut, Next, NobodyCarries, Carries, Workable, Reached, WorldOk, ProtocolOk, HoldersPlaced, ModesMatch,
         NoneSooner, NoNewClearance, CanComeTrue, E.HoldsLease;
    ShutParts(w, id);
    ReachedOf(w, id);
    NextKeepsReached(w, Crash(token));
    LocalNoneSooner(w, Crash(token), id);
    CrashEffect(w, token);
    NoneCarries(w, Next(w, Crash(token)), id, token);
    StaysShut(w, Next(w, Crash(token)), id);
  }

  lemma SendEffect(w: World, token: nat)
    requires Is(w, token, Armed)
    ensures var u := Next(w, Send(token));
      && u == At(w, token, Sent).(flights := w.flights[token := InFlight]) && NoNewClearance(w, u)
  {
    hide R.Perform, R.Commits, NextCall, AfterCall, SecretsReadable, Granted, MayClaim, MayWork;
  }

  lemma SendNoneSooner(w: World, token: nat, id: nat)
    requires Is(w, token, Armed) && token !in w.flights
    ensures NoneSooner(w, Next(w, Send(token)), id)
  {
    hide AppliedFor;
    SendAppliesNothing(w, token, id);
    var u := Next(w, Send(token));
    if RemoteStopped(w, id) { assert RemoteStopped(u, id); }
  }

  lemma ArmedHolderCarries(w: World, id: nat, t: nat)
    requires id in w.db.executions && Is(w, t, Armed) && w.executors[t].execution == id && E.HoldsLease(w.db.executions[id], t, w.db.now)
    ensures Carries(w, id, t)
  {
  }

  lemma SendStaysShut(w: World, token: nat, id: nat)
    requires Shut(w, id) && Is(w, token, Armed)
    ensures Shut(Next(w, Send(token)), id)
  {
    hide Shut, Next, NobodyCarries, Carries, Workable, Reached, WorldOk, ProtocolOk, HoldersPlaced, ModesMatch,
         NoneSooner, NoNewClearance, CanComeTrue, E.HoldsLease;
    ShutParts(w, id);
    ReachedOf(w, id);
    NextKeepsReached(w, Send(token));
    ExecutorOf(w, token);
    SendNoneSooner(w, token, id);
    SendEffect(w, token);
    if w.executors[token].execution == id && E.HoldsLease(w.db.executions[id], token, w.db.now) { ArmedHolderCarries(w, id, token); }
    NoneCarries(w, Next(w, Send(token)), id, token);
    StaysShut(w, Next(w, Send(token)), id);
  }

  // ---- The network ----

  lemma NetworkNoneSooner(w: World, e: Event, id: nat)
    requires e.Deliver? || e.Lose?
    ensures NoneSooner(w, Next(w, e), id)
  {
    hide AppliedFor;
    var u := Next(w, e);
    if e.Lose? {
      LoseAppliesNothing(w, e.token, id);
      if RemoteStopped(w, id) { assert RemoteStopped(u, id); }
    } else if u != w {
      DeliverApplies(w, u, e.token, w.executors[e.token].execution, id);
      DeliverKeepsStopped(w, u, e.token, w.executors[e.token].execution, id);
    }
  }

  lemma NetworkEffect(w: World, e: Event)
    requires e.Deliver? || e.Lose?
    ensures var u := Next(w, e); u.db == w.db && u.executors == w.executors && NoNewClearance(w, u)
  {
    hide R.Perform, R.Commits, NextCall, AfterCall, SecretsReadable, Granted, MayClaim, MayWork;
  }

  lemma NetworkStaysShut(w: World, e: Event, id: nat)
    requires Shut(w, id) && (e.Deliver? || e.Lose?)
    ensures Shut(Next(w, e), id)
  {
    hide Shut, Next, NobodyCarries, Carries, Workable, Reached, WorldOk, ProtocolOk, HoldersPlaced, ModesMatch,
         NoneSooner, NoNewClearance, CanComeTrue;
    ShutParts(w, id);
    ReachedOf(w, id);
    NextKeepsReached(w, e);
    NetworkNoneSooner(w, e, id);
    NetworkEffect(w, e);
    NoneCarriesStill(w, Next(w, e), id);
    StaysShut(w, Next(w, e), id);
  }

  // ---- Clearances and claims ----

  /** Nobody is let through any more. */
  lemma NotCleared(w: World, id: nat)
    requires id in w.db.executions && !Workable(w.db, w.db.executions[id]) && w.db.executions[id].state == Prepared
    ensures !MayWork(w.db, id, Change)
  {
    hide Workable;
    if MayWork(w.db, id, Change) { WorkNeedsTarget(w.db, w.db.executions[id]); }
  }

  lemma ClearStaysShut(w: World, e: Event, id: nat)
    requires Shut(w, id) && e.Clear?
    ensures Shut(Next(w, e), id)
  {
    hide Shut, NobodyCarries, Carries, Workable, Reached, WorldOk, ProtocolOk, HoldersPlaced, ModesMatch,
         CanComeTrue, NoneSooner, MayWork, R.Perform, R.Commits, MayClaim, Granted, NextCall, SecretsReadable;
    ShutParts(w, id);
    ReachedOf(w, id);
    NextKeepsReached(w, e);
    var u := Next(w, e);
    UntouchedNoneSooner(w, u, id);
    NoneCarriesStill(w, u, id);
    if w.db.executions[id].state == Prepared { NotCleared(w, id); }
    ClearedStaysShut(w, u, id);
  }

  lemma ClearedStaysShut(w: World, u: World, id: nat)
    requires Shut(w, id) && Reached(u) && u == w.(cleared := u.cleared) && NobodyCarries(u, id)
    requires w.db.executions[id].state == Prepared ==>
      forall t :: t in u.cleared && u.cleared[t] == Clearance(id, Change) ==> t in w.cleared && w.cleared[t] == u.cleared[t]
    ensures Shut(u, id)
  {
    hide Reached, Workable, Carries;
    forall t | u.db.executions[id].state == Prepared ensures !ClearedToStart(u, id, t) {
      assert ClearedToStart(u, id, t) ==> ClearedToStart(w, id, t);
    }
  }

  /** A prepared row that is claimed was claimed by an executor cleared for it. */
  lemma ClaimedByCleared(w: World, token: nat, id: nat, mode: Mode)
    requires MayClaim(w, token, id, mode)
    ensures id in w.db.executions && (w.db.executions[id].state == Prepared ==> ClearedToStart(w, id, token))
  {
  }

  lemma StartClearances(w: World, token: nat, id: nat, mode: Mode)
    ensures NoNewClearance(w, Next(w, Start(token, id, mode)))
  {
    hide R.Perform, R.Commits, NextCall, SecretsReadable, Granted, MayWork;
  }

  lemma ClaimStaysShut(w: World, token: nat, id: nat, mode: Mode)
    requires Shut(w, id) && MayClaim(w, token, id, mode) && Reached(Next(w, Start(token, id, mode)))
    ensures Shut(Next(w, Start(token, id, mode)), id)
  {
    hide Shut, Next, NobodyCarries, Carries, Workable, WorldOk, HoldersPlaced, ModesMatch, CanComeTrue, Reached,
         MayClaim, R.Perform, RowsOk, ExecutorsOk, IdleOwnersOk, OneCommitted, NoNewClearance;
    ShutParts(w, id);
    var u := Next(w, Start(token, id, mode));
    ClaimedByCleared(w, token, id, mode);
    StartEffect(w, token, id, mode);
    StartClearances(w, token, id, mode);
    ClaimPerforms(w, token, id, mode);
    CallLeavesUnworkable(w.db, R.Claim(id, token, mode != Change), id);
    NoneCarriesAfterSave(u, id, token);
    StaysShut(w, u, id);
  }

  lemma ClaimPerforms(w: World, token: nat, id: nat, mode: Mode)
    requires MayClaim(w, token, id, mode)
    ensures Next(w, Start(token, id, mode)).db == R.Perform(w.db, R.Claim(id, token, mode != Change)).db
  {
  }

  lemma StoreStepOf(w: World, u: World, t: nat, other: nat)
    requires StoreStep(w, u, t, other)
    ensures SameFlights(w, u) && t in u.executors && u.executors[t].execution == other && u.executors == w.executors[t := u.executors[t]]
  {
  }

  lemma ElsewhereNoneCarries(w: World, u: World, t: nat, other: nat, id: nat)
    requires StoreStep(w, u, t, other) && other != id && u.db.now == w.db.now
    requires id in w.db.executions && id in u.db.executions && u.db.executions[id] == w.db.executions[id] && NobodyCarries(w, id)
    ensures NobodyCarries(u, id)
  {
    hide NobodyCarries, CanComeTrue, RemoteStopped, StoreStep, SameFlights, NoneSooner, Promising, E.HoldsLease;
    StoreStepOf(w, u, t, other);
    if RemoteStopped(w, id) { StoreStepKeepsStopped(w, u, t, other, id); }
    SameFlightsNoneSooner(w, u, id);
    NoneCarries(w, u, id, t);
  }

  /** A step of an executor that works on another execution. */
  lemma ElsewhereStaysShut(w: World, u: World, t: nat, other: nat, call: R.Call, id: nat)
    requires Shut(w, id) && Reached(u) && StoreStep(w, u, t, other) && other != id && NoNewClearance(w, u)
    requires u.db == R.Perform(w.db, call).db && R.WritesOneRow(call) && call.id == other && u.db.now == w.db.now
    ensures Shut(u, id)
  {
    hide Shut, NobodyCarries, Carries, Workable, WorldOk, HoldersPlaced, ModesMatch, Reached, CanComeTrue, R.Perform,
         ProtocolOk, NoNewClearance, StoreStep;
    ShutParts(w, id);
    OtherRowStays(w.db, call, id);
    CallLeavesUnworkable(w.db, call, id);
    ElsewhereNoneCarries(w, u, t, other, id);
    StaysShut(w, u, id);
  }

  lemma StartStaysShut(w: World, token: nat, i: nat, mode: Mode, id: nat)
    requires Shut(w, id) && Reached(Next(w, Start(token, i, mode)))
    ensures Shut(Next(w, Start(token, i, mode)), id)
  {
    hide Shut, Next, NobodyCarries, Carries, Workable, WorldOk, HoldersPlaced, ModesMatch, CanComeTrue, Reached,
         R.Perform, NoNewClearance, StoreStep, MayClaim;
    var u := Next(w, Start(token, i, mode));
    ShutParts(w, id);
    StartClearances(w, token, i, mode);
    if !MayClaim(w, token, i, mode) {
      RefusedStaysShut(w, token, i, mode, id);
    } else if i == id {
      ClaimStaysShut(w, token, id, mode);
    } else {
      StartIsStoreStep(w, token, i, mode);
      ClaimPerforms(w, token, i, mode);
      NowOfClaim(w.db, i, token, mode != Change);
      ElsewhereStaysShut(w, u, token, i, R.Claim(i, token, mode != Change), id);
    }
  }

  lemma RefusedStaysShut(w: World, token: nat, i: nat, mode: Mode, id: nat)
    requires Shut(w, id) && Reached(Next(w, Start(token, i, mode))) && !MayClaim(w, token, i, mode)
    ensures Shut(Next(w, Start(token, i, mode)), id)
  {
    hide Shut, Next, NobodyCarries, Carries, Workable, WorldOk, HoldersPlaced, ModesMatch, CanComeTrue, Reached,
         NoNewClearance, NoneSooner, MayClaim;
    var u := Next(w, Start(token, i, mode));
    ShutParts(w, id);
    StartClearances(w, token, i, mode);
    StartRefused(w, token, i, mode);
    UntouchedNoneSooner(w, u, id);
    NoneCarriesStill(w, u, id);
    StaysShut(w, u, id);
  }

  lemma StartRefused(w: World, token: nat, id: nat, mode: Mode)
    requires !MayClaim(w, token, id, mode)
    ensures var u := Next(w, Start(token, id, mode)); u == w.(cleared := u.cleared)
  {
  }

  lemma NowOfClaim(db: Db, id: nat, token: nat, reconcile: bool)
    ensures R.Perform(db, R.Claim(id, token, reconcile)).db.now == db.now
  {
  }

  // ---- The store calls of an executor ----

  lemma PausedNoneSooner(w: World, t: nat, pc: Pc, id: nat)
    requires t in w.executors && pc != Armed
    ensures NoneSooner(w, At(w, t, pc), id)
  {
    hide RemoteStopped, AppliedFor;
    if RemoteStopped(w, id) { StillStopped(w, t, pc, id); }
    SameFlightsNoneSooner(w, At(w, t, pc), id);
  }

  lemma PausedNoneCarries(w: World, t: nat, pc: Pc, id: nat)
    requires id in w.db.executions && NobodyCarries(w, id) && t in w.executors && pc != Armed
    requires w.executors[t].execution == id && E.HoldsLease(w.db.executions[id], t, w.db.now) ==> pc == Stopped
    ensures NobodyCarries(At(w, t, pc), id)
  {
    hide NobodyCarries, Carries, CanComeTrue, NoneSooner, E.HoldsLease;
    PausedNoneSooner(w, t, pc, id);
    NoneCarries(w, At(w, t, pc), id, t);
  }

  /** An executor that stops, or gives up before it sends, without the lease of this execution. */
  lemma PausedStaysShut(w: World, u: World, t: nat, pc: Pc, id: nat)
    requires Shut(w, id) && Reached(u) && t in w.executors && u == At(w, t, pc) && pc != Armed
    requires w.executors[t].execution == id && E.HoldsLease(w.db.executions[id], t, w.db.now) ==> pc == Stopped
    ensures Shut(u, id)
  {
    hide Shut, NobodyCarries, Carries, Workable, WorldOk, HoldersPlaced, ModesMatch, CanComeTrue, Reached,
         ProtocolOk, E.HoldsLease;
    ShutParts(w, id);
    PausedNoneCarries(w, t, pc, id);
    StaysShut(w, u, id);
  }

  lemma ReadyHolderCarries(w: World, id: nat, t: nat)
    requires id in w.db.executions && Is(w, t, Ready) && w.executors[t].execution == id && E.HoldsLease(w.db.executions[id], t, w.db.now)
    ensures Carries(w, id, t)
  {
  }

  lemma BeforeStaysShut(w: World, token: nat, granted: bool, id: nat)
    requires Shut(w, id) && Reached(Next(w, Before(token, granted))) && Is(w, token, Ready)
    ensures Shut(Next(w, Before(token, granted)), id)
  {
    hide Shut, Next, NobodyCarries, Carries, Workable, WorldOk, HoldersPlaced, ModesMatch, CanComeTrue, Reached,
         R.Perform, NoNewClearance, C.VersionsLater, MayWork, Promising;
    var u := Next(w, Before(token, granted));
    var other := w.executors[token].execution;
    ShutParts(w, id);
    ExecutorOf(w, token);
    if Arming(w, token, granted) {
      ArmEffect(w, token, granted);
      BeforePerforms(w, token, granted);
      if other == id { ReadyHolderCarries(w, id, token); }
      ElsewhereStaysShut(w, u, token, other, R.BeforeChange(other, token), id);
    } else {
      BeforeRefused(w, token, granted);
      if other == id && E.HoldsLease(w.db.executions[id], token, w.db.now) { ReadyHolderCarries(w, id, token); }
      PausedStaysShut(w, u, token, Unsent, id);
    }
  }

  lemma BeforePerforms(w: World, token: nat, granted: bool)
    requires Arming(w, token, granted)
    ensures var u := Next(w, Before(token, granted));
      var call := R.BeforeChange(w.executors[token].execution, token);
      && u.db == R.Perform(w.db, call).db && u.db.now == w.db.now && NoNewClearance(w, u)
      && call.id in w.db.executions && E.HoldsLease(w.db.executions[call.id], token, w.db.now)
  {
    hide MayWork, E.BindingRefusal;
  }

  /** A call of an executor that promises nothing leaves the row uncertain, in its own name. */
  lemma HopelessCall(x: Executor, t: nat, code: string, comes: bool, a: Execution, b: Execution, now: int)
    requires NextCall(x, t, code).Some? && R.WritesOneRow(NextCall(x, t, code).value)
    requires R.Transition(NextCall(x, t, code).value, a, b, now) && a.state != Completed && !Promising(x, comes)
    ensures E.HoldsLease(a, t, now) && a.state != Prepared && b.state == Unknown && b.leaseOwner == t && AfterCall(x, true) == Stopped
  {
  }

  lemma PromisingHolderCarries(w: World, id: nat, t: nat)
    requires id in w.db.executions && t in w.executors && w.executors[t].execution == id && !Carries(w, id, t)
    requires E.HoldsLease(w.db.executions[id], t, w.db.now)
    ensures !Promising(w.executors[t], CanComeTrue(w, id, w.executors[t].mode))
  {
  }

  lemma RecordHolds(w: World, t: nat, code: string)
    requires Records(w, t, code)
    ensures var id := w.executors[t].execution;
      id in w.db.executions && E.HoldsLease(w.db.executions[id], t, w.db.now)
  {
    hide R.Perform, R.Commits, E.HoldsLease, Next;
    R.CommittedCallsTransition(w.db, NextCall(w.executors[t], t, code).value);
  }

  /** What a recorded call does to the world, and to the row of its executor. */
  lemma RecordEffect(w: World, t: nat, code: string)
    requires Records(w, t, code)
    ensures var call := NextCall(w.executors[t], t, code).value;
      var u := Next(w, Record(t, code));
      && R.WritesOneRow(call) && call.id == w.executors[t].execution && call.id in w.db.executions && call.id in u.db.executions
      && Recorded(w, u, t, call, AfterCall(w.executors[t], true)) && NoNewClearance(w, u) && u.db.now == w.db.now
      && R.Transition(call, w.db.executions[call.id], u.db.executions[call.id], w.db.now)
      && AfterCall(w.executors[t], true) != Armed
  {
    hide R.Transition, R.Commits, E.HoldsLease;
    var call := NextCall(w.executors[t], t, code).value;
    R.CommittedCallsTransition(w.db, call);
    RecordIsCall(w, t, call, code);
  }

  lemma OwnRecordStaysShut(w: World, t: nat, code: string, id: nat)
    requires Shut(w, id) && Records(w, t, code) && w.executors[t].execution == id && Reached(Next(w, Record(t, code)))
    ensures Shut(Next(w, Record(t, code)), id)
  {
    hide Shut, Next, NobodyCarries, Carries, Workable, WorldOk, HoldersPlaced, ModesMatch, CanComeTrue, Reached,
         R.Perform, NoNewClearance, C.VersionsLater, MayWork, Promising, R.Transition, ProtocolOk, NextCall,
         AfterCall, E.HoldsLease;
    var u := Next(w, Record(t, code));
    ShutParts(w, id);
    RecordHolds(w, t, code);
    RecordEffect(w, t, code);
    PromisingHolderCarries(w, id, t);
    HopelessCall(w.executors[t], t, code, CanComeTrue(w, id, w.executors[t].mode), w.db.executions[id], u.db.executions[id], w.db.now);
    CallLeavesUnworkable(w.db, NextCall(w.executors[t], t, code).value, id);
    StoppedPromisesNothing(u.executors[t], CanComeTrue(u, id, u.executors[t].mode));
    NoneCarriesAfterSave(u, id, t);
    StaysShut(w, u, id);
  }

  lemma StoppedPromisesNothing(x: Executor, comes: bool)
    requires x.pc == Stopped
    ensures !Promising(x, comes)
  {
  }

  lemma RecordStaysShut(w: World, t: nat, code: string, id: nat)
    requires Shut(w, id) && Reached(Next(w, Record(t, code)))
    ensures Shut(Next(w, Record(t, code)), id)
  {
    hide Shut, Next, NobodyCarries, Carries, Workable, WorldOk, HoldersPlaced, ModesMatch, CanComeTrue, Reached,
         R.Perform, NoNewClearance, C.VersionsLater, MayWork, Promising, R.Transition, ProtocolOk, NextCall,
         AfterCall, E.HoldsLease, StoreStep, Recorded, Records;
    var u := Next(w, Record(t, code));
    ShutParts(w, id);
    if !Records(w, t, code) {
      RecordsNothing(w, t, code);
      if u != w { PausedStaysShut(w, u, t, Stopped, id); }
    } else {
      RecorderExists(w, t, code);
      if w.executors[t].execution == id {
        OwnRecordStaysShut(w, t, code, id);
      } else {
        OtherRecordStaysShut(w, t, code, id);
      }
    }
  }

  lemma OtherRecordStaysShut(w: World, t: nat, code: string, id: nat)
    requires Shut(w, id) && Records(w, t, code) && w.executors[t].execution != id && Reached(Next(w, Record(t, code)))
    ensures Shut(Next(w, Record(t, code)), id)
  {
    hide Shut, Next, NobodyCarries, Carries, Workable, WorldOk, HoldersPlaced, ModesMatch, CanComeTrue, Reached,
         R.Perform, NoNewClearance, C.VersionsLater, MayWork, Promising, R.Transition, ProtocolOk, NextCall,
         AfterCall, E.HoldsLease, StoreStep;
    ShutParts(w, id);
    RecordEffect(w, t, code);
    var call := NextCall(w.executors[t], t, code).value;
    var u := Next(w, Record(t, code));
    RecordedIsStoreStep(w, u, t, call, AfterCall(w.executors[t], true));
    ElsewhereStaysShut(w, u, t, call.id, call, id);
  }

  // ---- The others, and every event ----

  lemma OutsideStaysShut(w: World, call: R.Call, id: nat)
    requires Shut(w, id) && Reached(Next(w, Outside(call)))
    ensures Shut(Next(w, Outside(call)), id)
  {
    hide Shut, NobodyCarries, Carries, Workable, WorldOk, HoldersPlaced, ModesMatch, CanComeTrue, NoneSooner,
         Reached, R.Perform, R.Commits, RemoteAfter, ProtocolOk, MayClaim, Granted, SecretsReadable, NextCall;
    var u := Next(w, Outside(call));
    ShutParts(w, id);
    if OutsideCall(call) {
      OtherRowStays(w.db, call, id);
      CallLeavesUnworkable(w.db, call, id);
      TimeForward(w.db, call);
      UntouchedNoneSooner(w, u, id);
      NoneCarriesStill(w, u, id);
      StaysShut(w, u, id);
    }
  }

  lemma TimeForward(db: Db, call: R.Call)
    requires OutsideCall(call)
    ensures db.now <= R.Perform(db, call).db.now
  {
    hide C.CreateOwner, C.UpdateCredential, C.Adopt, C.RemoveManagement, C.SetEnabled, T.Apply, E.BindingRefusal,
         E.InputComplete;
  }

  /** No event of anybody brings it within reach again. */
  lemma {:induction false} NextStaysShut(w: World, e: Event, id: nat)
    requires Shut(w, id) && Assumed(w, e)
    ensures Shut(Next(w, e), id)
  {
    hide Shut, Next, Assumed, Reached, WorldOk;
    ReachedOf(w, id);
    NextKeepsReached(w, e);
    match e
    case Outside(call) => OutsideStaysShut(w, call, id);
    case Clear(_, _, _, _) => ClearStaysShut(w, e, id);
    case Start(token, i, mode) => StartStaysShut(w, token, i, mode, id);
    case Before(token, granted) =>
      if Is(w, token, Ready) { BeforeStaysShut(w, token, granted, id); } else { Idle(w, e); }
    case Send(token) =>
      if Is(w, token, Armed) { SendStaysShut(w, token, id); } else { Idle(w, e); }
    case Deliver(_) => NetworkStaysShut(w, e, id);
    case Lose(_) => NetworkStaysShut(w, e, id);
    case Record(token, code) => RecordStaysShut(w, token, code, id);
    case Crash(token) => CrashStaysShut(w, token, id);
    case _ => LocalStaysShut(w, e, id);
  }

  lemma Idle(w: World, e: Event)
    requires (e.Before? && !Is(w, e.token, Ready)) || (e.Send? && !Is(w, e.token, Armed))
    ensures Next(w, e) == w
  {
    hide R.Perform, R.Commits, MayWork, NextCall, SecretsReadable, OutsideCall, RemoteAfter;
  }

  // ---- A deleted account ----

  /** Without its account no call ends an execution. */
  lemma OrphanIsRefused(db: Db, call: R.Call)
    requires R.WritesOneRow(call) && !call.Claim? && call.id in db.executions && db.executions[call.id].state != Completed
    requires !Exists(db, Account(db.executions[call.id].account))
    ensures !R.Commits(db, call)
  {
    hide E.HoldsLease, C.PublishVersion, C.Readable, E.BindingRefusal;
  }

  lemma OrphanStays(db: Db, call: R.Call, id: nat)
    requires V.VaultOk(db) && id in db.executions && !Terminal(db.executions[id].state)
    requires !Exists(db, Account(db.executions[id].account))
    ensures var after := R.Perform(db, call).db;
      id in after.executions && !Terminal(after.executions[id].state) && after.executions[id].account == db.executions[id].account
  {
    hide V.VaultOk, R.Perform, R.Commits;
    StillActiveWasActive(db, call, id);
    if R.WritesOneRow(call) && call.id == id {
      R.CommittedCallsTransition(db, call);
      if !call.Claim? { OrphanIsRefused(db, call); }
    } else {
      OtherRowStays(db, call, id);
    }
  }

  lemma OrphanedParts(w: World, id: nat)
    requires Orphaned(w, id)
    ensures V.VaultOk(w.db) && id in w.db.executions && w.db.executions[id].activeAccount.Some?
    ensures Account(w.db.executions[id].account) in w.db.owners && w.db.owners[Account(w.db.executions[id].account)].deleted
  {
    assert V.RowConsistent(w.db.executions[id]);
    assert V.Held(w.db, w.db.executions[id]);
  }

  lemma {:induction false} NextStaysOrphaned(w: World, e: Event, id: nat)
    requires Orphaned(w, id)
    ensures Orphaned(Next(w, e), id)
  {
    hide Next, V.VaultOk, N.CallOf, R.Perform;
    OrphanedParts(w, id);
    N.NextKeepsVault(w, e);
    N.EventPerforms(w, e);
    if N.CallOf(w, e).Some? {
      var call := N.CallOf(w, e).value;
      RowOfActive(w.db, id);
      CallMovesTargets(w.db, call, w.db.executions[id].account);
      OrphanStays(w.db, call, id);
    }
  }

  /** Whatever happens, even if every reply lies: an execution whose account was deleted never ends. */
  lemma {:induction false} OrphanedForGood(w: World, events: seq<Event>, id: nat)
    requires Orphaned(w, id)
    ensures Orphaned(Run(w, events), id)
    decreases |events|
  {
    hide Orphaned, Next;
    if events != [] {
      var n := |events| - 1;
      OrphanedForGood(w, events[..n], id);
      NextStaysOrphaned(Run(w, events[..n]), events[n], id);
    }
  }

  // ---- Dead ends ----

  lemma VaultOfReached(w: World)
    requires Reached(w)
    ensures V.VaultOk(w.db)
  {
  }

  /** A dead end is one of the two. */
  lemma StuckIsEither(w: World, id: nat)
    requires Reached(w)
    ensures Stuck(w, id) <==> Shut(w, id) || Orphaned(w, id)
  {
    hide Reached, WithinReach, V.VaultOk;
    VaultOfReached(w);
  }

  /** No event of anybody leads out of a dead end. */
  lemma {:induction false} NextStaysStuck(w: World, e: Event, id: nat)
    requires Stuck(w, id) && Assumed(w, e)
    ensures Stuck(Next(w, e), id)
  {
    hide StillOpen, Shut, Orphaned, Next, Assumed, Reached;
    StuckIsEither(w, id);
    NextKeepsReached(w, e);
    if Shut(w, id) { NextStaysShut(w, e, id); } else { NextStaysOrphaned(w, e, id); }
    StuckIsEither(Next(w, e), id);
  }

  lemma {:induction false} RunStaysStuck(w: World, events: seq<Event>, id: nat)
    requires Stuck(w, id) && AssumedThroughout(w, events)
    ensures Stuck(Run(w, events), id)
    decreases |events|
  {
    hide Stuck, Assumed, Next;
    if events != [] {
      var n := |events| - 1;
      N.AssumedPrefix(w, events, n);
      RunStaysStuck(w, events[..n], id);
      NextStaysStuck(Run(w, events[..n]), events[n], id);
    }
  }
}
