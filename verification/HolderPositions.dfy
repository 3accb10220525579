/** Where the lease holder of an active execution can stand, given the state of the row: the program and the durable
 state machine never drift apart. */
module HolderPositions {
  import opened Basics
  import opened Tables
  import C = CredentialSpec
  import E = ExecutionSpec
  import T = TargetSpec
  import V = VaultInvariant
  import R = VaultRuns
  import opened TargetInvariant
  import opened PasswordProtocol
  import opened ProtocolInvariant
  import N = NoLockOutTheorem

  /** The state of the row while its holder stands here. */
  predicate Fits(x: Executor, state: ExecutionState) {
    match x.pc
    case Claimed => state == (if x.fromPrepared then Prepared else Unknown)
    case Authorized => state == (if x.fromPrepared then Prepared else Unknown)
    case Ready => state == Prepared
    case Unsent => state == (if x.committed then Changing else Prepared)
    case Verifying => state == (if x.committed then ExecutionState.Verifying else Unknown)
    case Seen(_) => state == (if x.committed then ExecutionState.Verifying else Unknown)
    case Publishing => state == Verified
    case Stopped => true
    case _ => state == Changing
  }

  predicate Placed(x: Executor, t: nat, row: Execution) {
    row.activeAccount.Some? && row.leaseOwner == t ==> Fits(x, row.state)
  }

  ghost predicate HoldersPlaced(w: World) {
    forall t :: t in w.executors && w.executors[t].execution in w.db.executions ==>
      Placed(w.executors[t], t, w.db.executions[w.executors[t].execution])
  }

  /** An executor that claimed a prepared row was asked for the change itself, any other for a recovery. */
  ghost predicate ModesMatch(w: World) {
    forall t :: t in w.executors ==> (w.executors[t].fromPrepared <==> w.executors[t].mode == Change)
  }

  /** Clearances are for executions that exist. */
  ghost predicate ClearedKnown(w: World) {
    forall t :: t in w.cleared ==> w.cleared[t].execution in w.db.executions
  }

  /** Everything known about a world that was reached. */
  ghost predicate Reached(w: World) {
    && WorldOk(w) && RowsDistinct(w.db) && TargetsHeld(w.db)
    && HoldersPlaced(w) && ModesMatch(w) && ClearedKnown(w)
  }

  lemma InitialIsReached(w: World)
    requires Initial(w)
    ensures Reached(w)
  {
    InitialIsOk(w);
  }

  // ---- Moves of one executor ----

  /** The moves that leave the row alone. */
  predicate Moves(x: Executor, pc: Pc) {
    || pc == Stopped
    || (x.pc == Claimed && pc == Authorized)
    || (x.pc == Claimed && x.fromPrepared && !x.committed && pc == Unsent)
    || (x.pc == Authorized && x.fromPrepared && pc == Ready)
    || (x.pc == Authorized && !x.fromPrepared && !x.committed && pc == Pc.Verifying)
    || (x.pc == Ready && !x.committed && pc == Unsent)
    || (x.pc == Armed && x.committed && pc == Unsent)
    || (x.pc == Armed && pc == Sent)
    || (x.pc == Sent && (pc == Rejected || pc.Replied?))
    || (x.pc == Pc.Verifying && pc.Seen?)
  }

  lemma MoveKeepsPlaced(w: World, u: World, t: nat, pc: Pc)
    requires HoldersPlaced(w) && t in w.executors && Moves(w.executors[t], pc)
    requires u.executors == w.executors[t := w.executors[t].(pc := pc)] && u.db == w.db
    ensures HoldersPlaced(u)
  {
    forall s | s in u.executors && u.executors[s].execution in u.db.executions
      ensures Placed(u.executors[s], s, u.db.executions[u.executors[s].execution])
    {
      assert Placed(w.executors[s], s, w.db.executions[w.executors[s].execution]);
    }
  }

  /** The event moved at most one executor, by such a move. */
  ghost predicate MovedBy(w: World, u: World, t: nat) {
    || (u.executors == w.executors && u.db == w.db)
    || (&& t in w.executors && t in u.executors && Moves(w.executors[t], u.executors[t].pc)
        && u.executors == w.executors[t := w.executors[t].(pc := u.executors[t].pc)] && u.db == w.db)
  }

  lemma EarlyEventIsMove(w: World, e: Event)
    requires e.Authorize? || e.Read? || e.GiveUp?
    requires e.token in w.executors ==> FlightMatches(w.executors[e.token], FlightOf(w, e.token))
    requires e.token in w.executors && !w.executors[e.token].fromPrepared ==> !w.executors[e.token].committed
    ensures MovedBy(w, Next(w, e), e.token)
  {
    hide R.Perform, R.Commits, NextCall, AfterCall, SecretsReadable, Granted, MayClaim, MayWork, OutsideCall, RemoteAfter;
  }

  lemma LateEventIsMove(w: World, e: Event)
    requires e.Send? || e.Reply? || e.Verify? || e.Crash?
    ensures MovedBy(w, Next(w, e), e.token)
  {
    hide R.Perform, R.Commits, NextCall, AfterCall, SecretsReadable, Granted, MayClaim, MayWork, OutsideCall, RemoteAfter;
  }

  lemma LocalEventIsMove(w: World, e: Event)
    requires ProtocolOk(w) && (N.LocalEvent(e) || e.Send? || e.Crash?)
    ensures MovedBy(w, Next(w, e), e.token)
  {
    hide ProtocolOk, Next, MovedBy, FlightMatches, AppliedFor, RemoteStopped;
    if e.Authorize? || e.Read? || e.GiveUp? {
      if e.token in w.executors { ExecutorOf(w, e.token); }
      EarlyEventIsMove(w, e);
    } else {
      LateEventIsMove(w, e);
    }
  }

  lemma LocalKeepsPlaced(w: World, e: Event)
    requires ProtocolOk(w) && HoldersPlaced(w) && (N.LocalEvent(e) || e.Send? || e.Crash?)
    ensures HoldersPlaced(Next(w, e))
  {
    hide ProtocolOk, Next, Moves;
    LocalEventIsMove(w, e);
    var u := Next(w, e);
    if u.executors != w.executors { MoveKeepsPlaced(w, u, e.token, u.executors[e.token].pc); }
  }

  // ---- Saves of one row ----

  /** Executor t saved row `id`, and the holder it names afterwards, if any, is itself. */
  ghost predicate Saved(w: World, u: World, t: nat, id: nat) {
    && t in u.executors && u.executors[t].execution == id && u.executors == w.executors[t := u.executors[t]]
    && id in u.db.executions && (forall i :: i in w.db.executions && i != id ==> i in u.db.executions && u.db.executions[i] == w.db.executions[i])
    && (u.db.executions[id].activeAccount.Some? ==> u.db.executions[id].leaseOwner == t)
    && Placed(u.executors[t], t, u.db.executions[id])
  }

  lemma SaveKeepsPlaced(w: World, u: World, t: nat, id: nat)
    requires ExecutorsOk(w) && HoldersPlaced(w) && Saved(w, u, t, id)
    ensures HoldersPlaced(u)
  {
    hide Fits;
    forall s | s in u.executors && u.executors[s].execution in u.db.executions
      ensures Placed(u.executors[s], s, u.db.executions[u.executors[s].execution])
    {
      if s != t && u.executors[s].execution != id {
        assert ExecutorOk(w, s);
        assert Placed(w.executors[s], s, w.db.executions[w.executors[s].execution]);
      }
    }
  }

  lemma StartKeepsPlaced(w: World, token: nat, id: nat, mode: Mode)
    requires ProtocolOk(w) && HoldersPlaced(w)
    ensures HoldersPlaced(Next(w, Start(token, id, mode)))
  {
    hide AppliedFor, RemoteStopped, RowsOk, IdleOwnersOk, C.VersionsLater;
    var u := Next(w, Start(token, id, mode));
    if MayClaim(w, token, id, mode) {
      StartEffect(w, token, id, mode);
      SaveKeepsPlaced(w, u, token, id);
    }
  }

  lemma BeforeRefused(w: World, token: nat, granted: bool)
    requires !Arming(w, token, granted)
    ensures Next(w, Before(token, granted)) == if Is(w, token, Ready) then At(w, token, Unsent) else w
  {
    hide R.Perform, R.Commits, MayWork, NextCall, SecretsReadable, OutsideCall, RemoteAfter;
  }

  lemma BeforeKeepsPlaced(w: World, token: nat, granted: bool)
    requires ProtocolOk(w) && HoldersPlaced(w)
    ensures HoldersPlaced(Next(w, Before(token, granted)))
  {
    hide ProtocolOk, HoldersPlaced, Next, AppliedFor, RemoteStopped, R.Perform, R.Commits, MayWork, C.VersionsLater;
    var u := Next(w, Before(token, granted));
    if Arming(w, token, granted) {
      ExecutorOf(w, token);
      ArmEffect(w, token, granted);
      ExecutorsOf(w);
      SaveKeepsPlaced(w, u, token, w.executors[token].execution);
    } else {
      BeforeRefused(w, token, granted);
      if Is(w, token, Ready) {
        ExecutorOf(w, token);
        MoveKeepsPlaced(w, u, token, Unsent);
      }
    }
  }

  lemma ExecutorsOf(w: World)
    requires ProtocolOk(w)
    ensures ExecutorsOk(w)
  {
  }

  /** The executor's next call commits and changes something. */
  ghost predicate Records(w: World, t: nat, code: string) {
    && t in w.executors && NextCall(w.executors[t], t, code).Some?
    && var call := NextCall(w.executors[t], t, code).value;
       R.Commits(w.db, call) && !(call.Publish? && call.id in w.db.executions && w.db.executions[call.id].state == Completed)
  }

  lemma CallFits(x: Executor, t: nat, code: string, a: Execution, b: Execution, now: int)
    requires NextCall(x, t, code).Some? && R.WritesOneRow(NextCall(x, t, code).value)
    requires R.Transition(NextCall(x, t, code).value, a, b, now) && (x.pc == Replied(true) ==> x.committed)
    requires NextCall(x, t, code).value.Publish? ==> a.state != Completed
    ensures b.activeAccount.Some? ==> b.leaseOwner == t
    ensures Placed(x.(pc := AfterCall(x, true)), t, b)
  {
    hide E.HoldsLease;
  }

  /** Such a call saves the row with the executor itself as the holder, where its program goes next. */
  lemma RecordSaves(w: World, t: nat, code: string)
    requires Records(w, t, code) && FlightMatches(w.executors[t], FlightOf(w, t))
    ensures Saved(w, Next(w, Record(t, code)), t, w.executors[t].execution)
  {
    hide R.Perform, R.Commits, R.Transition, Placed, Next, MayWork, MayClaim, Granted, SecretsReadable, OutsideCall,
         RemoteAfter;
    var call := NextCall(w.executors[t], t, code).value;
    R.CommittedCallsTransition(w.db, call);
    RecordIsCall(w, t, call, code);
    CallFits(w.executors[t], t, code, w.db.executions[call.id], Next(w, Record(t, code)).db.executions[call.id], w.db.now);
  }

  /** Any other leaves the store alone and at most ends the executor. */
  lemma RecordsNothing(w: World, t: nat, code: string)
    requires !Records(w, t, code)
    ensures Next(w, Record(t, code)) == w || (t in w.executors && Next(w, Record(t, code)) == At(w, t, Stopped))
  {
    hide R.Perform, R.Commits, MayWork, SecretsReadable, OutsideCall, RemoteAfter;
    if t in w.executors && NextCall(w.executors[t], t, code).Some? { RecordedNothing(w, t, code); }
  }

  lemma RecorderExists(w: World, t: nat, code: string)
    requires Records(w, t, code)
    ensures t in w.executors
  {
  }

  lemma RecordKeepsPlaced(w: World, t: nat, code: string)
    requires WorldOk(w) && HoldersPlaced(w)
    ensures HoldersPlaced(Next(w, Record(t, code)))
  {
    hide WorldOk, ProtocolOk, HoldersPlaced, Records, Next, AppliedFor, RemoteStopped, Saved;
    ProtocolPart(w);
    if Records(w, t, code) {
      RecorderExists(w, t, code);
      ExecutorOf(w, t);
      ExecutorsOf(w);
      RecordSaves(w, t, code);
      SaveKeepsPlaced(w, Next(w, Record(t, code)), t, w.executors[t].execution);
    } else {
      RecordsNothing(w, t, code);
      if Next(w, Record(t, code)) != w { MoveKeepsPlaced(w, Next(w, Record(t, code)), t, Stopped); }
    }
  }

  lemma ProtocolPart(w: World)
    requires WorldOk(w)
    ensures ProtocolOk(w) && V.VaultOk(w.db)
  {
  }

  lemma OutsideKeepsPlaced(w: World, call: R.Call)
    requires WorldOk(w) && HoldersPlaced(w)
    ensures HoldersPlaced(Next(w, Outside(call)))
  {
    hide WorldOk, R.Perform, Fits, RemoteAfter;
    ProtocolPart(w);
    var u := Next(w, Outside(call));
    if OutsideCall(call) {
      R.RowsAreConsistent(w.db);
      if call.Prepare? { R.PrepareAddsUnsentRow(w.db, call); } else { R.OtherCallsSaveNoRow(w.db, call); }
      forall s | s in u.executors && u.executors[s].execution in u.db.executions
        ensures Placed(u.executors[s], s, u.db.executions[u.executors[s].execution])
      {
        ExecutorOf(w, s);
      }
    }
  }

  lemma NextKeepsPlaced(w: World, e: Event)
    requires WorldOk(w) && HoldersPlaced(w)
    ensures HoldersPlaced(Next(w, e))
  {
    hide WorldOk, ProtocolOk, HoldersPlaced, R.Perform, R.Commits, MayClaim, Granted, NextCall, AfterCall, SecretsReadable;
    ProtocolPart(w);
    match e
    case Outside(call) => OutsideKeepsPlaced(w, call);
    case Clear(_, _, _, _) => SameKeepsPlaced(w, Next(w, e));
    case Start(token, id, mode) => StartKeepsPlaced(w, token, id, mode);
    case Before(token, granted) => BeforeKeepsPlaced(w, token, granted);
    case Record(token, code) => RecordKeepsPlaced(w, token, code);
    case Deliver(_) => SameKeepsPlaced(w, Next(w, e));
    case Lose(_) => SameKeepsPlaced(w, Next(w, e));
    case _ => LocalKeepsPlaced(w, e);
  }

  lemma SameKeepsPlaced(w: World, u: World)
    requires HoldersPlaced(w) && u.executors == w.executors && u.db == w.db
    ensures HoldersPlaced(u)
  {
  }

  // ---- Reached worlds ----

  lemma NextKeepsTargets(w: World, e: Event)
    requires V.VaultOk(w.db) && TargetsHeld(w.db)
    ensures TargetsHeld(Next(w, e).db)
  {
    hide V.VaultOk, TargetsHeld, R.Perform, R.Commits, SecretsReadable;
    match e
    case Outside(call) => CallKeepsTargets(w.db, call);
    case Start(token, id, mode) => CallKeepsTargets(w.db, R.Claim(id, token, mode != Change));
    case Before(token, granted) =>
      if token in w.executors { CallKeepsTargets(w.db, R.BeforeChange(w.executors[token].execution, token)); }
    case Record(token, code) =>
      if token in w.executors && NextCall(w.executors[token], token, code).Some? {
        CallKeepsTargets(w.db, NextCall(w.executors[token], token, code).value);
      }
    case _ =>
  }

  lemma NextKeepsModes(w: World, e: Event)
    requires ModesMatch(w)
    ensures ModesMatch(Next(w, e))
  {
    hide Next, R.Perform, R.Commits, MayClaim;
    if !e.Start? {
      OthersKeepModes(w, e);
    } else {
      StartedExecutors(w, e);
      if !MayClaim(w, e.token, e.execution, e.mode) { return; }
      assert R.Commits(w.db, R.Claim(e.execution, e.token, e.mode != Change)) by { ClaimCommits(w, e.token, e.execution, e.mode); }
      ClaimMatches(w.db, e.execution, e.token, e.mode);
    }
  }

  lemma OthersKeepModes(w: World, e: Event)
    requires ModesMatch(w) && !e.Start?
    ensures ModesMatch(Next(w, e))
  {
    hide R.Perform, R.Commits, MayClaim, MayWork, NextCall, AfterCall, SecretsReadable, OutsideCall, RemoteAfter, Granted;
  }

  lemma StartedExecutors(w: World, e: Event)
    requires e.Start?
    ensures Next(w, e).executors ==
      if !MayClaim(w, e.token, e.execution, e.mode) then w.executors
      else
        var after := R.Perform(w.db, R.Claim(e.execution, e.token, e.mode != Change)).db;
        w.executors[e.token := Executor(e.execution, e.mode,
          e.execution in after.executions && after.executions[e.execution].state == Prepared, false, Claimed)]
  {
    hide R.Perform, MayWork;
    if MayClaim(w, e.token, e.execution, e.mode) { ClaimMatches(w.db, e.execution, e.token, e.mode); }
  }

  lemma ClaimCommits(w: World, token: nat, id: nat, mode: Mode)
    requires MayClaim(w, token, id, mode)
    ensures R.Commits(w.db, R.Claim(id, token, mode != Change))
  {
  }

  lemma ClaimMatches(db: Db, id: nat, token: nat, mode: Mode)
    requires R.Commits(db, R.Claim(id, token, mode != Change))
    ensures var after := R.Perform(db, R.Claim(id, token, mode != Change)).db;
      id in after.executions && (after.executions[id].state == Prepared <==> mode == Change)
  {
  }

  lemma RowsRemain(w: World, e: Event)
    requires V.VaultOk(w.db)
    ensures w.db.executions.Keys <= Next(w, e).db.executions.Keys
  {
    hide V.VaultOk, R.Perform, R.Commits, SecretsReadable, MayWork, R.RowLater;
    match e
    case Outside(call) => R.CallMovesRowsForward(w.db, call);
    case Start(token, id, mode) => R.CallMovesRowsForward(w.db, R.Claim(id, token, mode != Change));
    case Before(token, granted) =>
      if token in w.executors { R.CallMovesRowsForward(w.db, R.BeforeChange(w.executors[token].execution, token)); }
    case Record(token, code) =>
      if token in w.executors && NextCall(w.executors[token], token, code).Some? {
        R.CallMovesRowsForward(w.db, NextCall(w.executors[token], token, code).value);
      }
    case _ =>
  }

  lemma NextKeepsCleared(w: World, e: Event)
    requires V.VaultOk(w.db) && ClearedKnown(w)
    ensures ClearedKnown(Next(w, e))
  {
    hide V.VaultOk, R.Perform, R.Commits, SecretsReadable, NextCall, AfterCall, OutsideCall, RemoteAfter, Granted, T.MayWork;
    RowsRemain(w, e);
  }

  lemma NextKeepsReached(w: World, e: Event)
    requires Reached(w) && Assumed(w, e)
    ensures Reached(Next(w, e))
  {
    hide WorldOk, RowsDistinct, TargetsHeld, HoldersPlaced, ModesMatch, ClearedKnown, Next, Assumed;
    ProtocolPart(w);
    N.NextKeeps(w, e);
    NextKeepsTargets(w, e);
    NextKeepsPlaced(w, e);
    NextKeepsModes(w, e);
    NextKeepsCleared(w, e);
  }

  lemma {:induction false} RunKeepsReached(w: World, events: seq<Event>)
    requires Reached(w) && AssumedThroughout(w, events)
    ensures Reached(Run(w, events))
    decreases |events|
  {
    hide Reached, Assumed, Next;
    if events != [] {
      var n := |events| - 1;
      N.AssumedPrefix(w, events, n);
      RunKeepsReached(w, events[..n]);
      NextKeepsReached(Run(w, events[..n]), events[n]);
    }
  }
}
