/** Exactly when an execution can still be ended. */
module Endings {
  import opened Basics
  import opened Tables
  import C = CredentialSpec
  import E = ExecutionSpec
  import T = TargetSpec
  import V = VaultInvariant
  import R = VaultRuns
  import opened TargetInvariant
  import opened PasswordProtocol
  import opened ProtocolInvariant
  import opened HolderPositions
  import opened DeadEnds
  import N = NoLockOutTheorem

  /** This continuation ends the execution, and the stated assumptions hold throughout it. */
  ghost predicate Ends(w: World, events: seq<Event>, id: nat) {
    AssumedThroughout(w, events) && id in Run(w, events).db.executions && Terminal(Run(w, events).db.executions[id].state)
  }

  ghost predicate CanEnd(w: World, id: nat) {
    exists events :: Ends(w, events, id)
  }

  /** One event earlier. */
  lemma CanEndBefore(w: World, e: Event, id: nat)
    requires Assumed(w, e) && CanEnd(Next(w, e), id)
    ensures CanEnd(w, id)
  {
    hide Next, Assumed, AssumedThroughout;
    var later :| Ends(Next(w, e), later, id);
    EmptyRun(w);
    Extend(w, [], e);
    assert [] + [e] == [e];
    RunConcat(w, [e], later);
    AssumedConcat(w, [e], later);
    assert Ends(w, [e] + later, id);
  }

  lemma EndedCanEnd(w: World, id: nat)
    requires id in w.db.executions && Terminal(w.db.executions[id].state)
    ensures CanEnd(w, id)
  {
    EmptyRun(w);
    assert Ends(w, [], id);
  }

  // ---- An executor that carries ----

  /** Executor t holds the lease of this execution, whose account exists, and stands here. */
  ghost predicate Holding(w: World, id: nat, t: nat, pc: Pc) {
    && Reached(w) && t in w.executors && w.executors[t].pc == pc && w.executors[t].execution == id
    && id in w.db.executions && E.HoldsLease(w.db.executions[id], t, w.db.now)
    && Exists(w.db, Account(w.db.executions[id].account))
  }

  lemma HoldingParts(w: World, id: nat, t: nat, pc: Pc)
    requires Holding(w, id, t, pc)
    ensures WorldOk(w) && V.VaultOk(w.db) && ProtocolOk(w) && ExecutorOk(w, t) && RowOk(w, id) && t != 0
    ensures Fits(w.executors[t], w.db.executions[id].state)
    ensures w.executors[t].fromPrepared <==> w.executors[t].mode == Change
    ensures w.db.executions[id].activeAccount.Some?
  {
    assert Placed(w.executors[t], t, w.db.executions[id]);
    ExecutorOf(w, t);
    RowOf(w, id);
  }

  /** A step of the program that leaves the store alone. */
  lemma Forth(w: World, e: Event, id: nat, t: nat, pc: Pc, next: Pc)
    requires Holding(w, id, t, pc) && Assumed(w, e) && Next(w, e) == At(w, t, next)
    ensures Holding(Next(w, e), id, t, next)
    ensures forall mode :: CanComeTrue(Next(w, e), id, mode) <== CanComeTrue(w, id, mode) && next != Stopped && pc != Armed
  {
    hide Reached, Next, Assumed, E.HoldsLease, AppliedFor, RemoteStopped;
    NextKeepsReached(w, e);
    SameApplied(w, Next(w, e), id);
    if RemoteStopped(Next(w, e), id) && pc != Armed { AlsoStopped(w, t, next, id); }
  }

  lemma AlsoStopped(w: World, t: nat, next: Pc, id: nat)
    requires t in w.executors && w.executors[t].pc != Armed && RemoteStopped(At(w, t, next), id)
    ensures RemoteStopped(w, id)
  {
    var u := At(w, t, next);
    forall s | s in w.executors && w.executors[s].execution == id
      ensures w.executors[s].pc != Armed && (s in w.flights ==> w.flights[s] != InFlight)
    {
      assert s in u.executors && u.executors[s].execution == id;
    }
  }

  /** The calls that close the row, at the store. */
  lemma ClosesAtStore(db: Db, x: Executor, id: nat, t: nat, code: string)
    requires V.VaultOk(db) && t != 0 && id in db.executions && x.execution == id && E.HoldsLease(db.executions[id], t, db.now)
    requires Exists(db, Account(db.executions[id].account))
    requires Fits(x, db.executions[id].state) && 0 < |code| <= 64 && (x.committed ==> x.mode != KeepOriginal)
    requires x.pc == Unsent || x.pc == Rejected || x.pc == Publishing || (x.pc == Seen(true) && x.mode == KeepOriginal)
    ensures NextCall(x, t, code).Some?
    ensures var call := NextCall(x, t, code).value;
      R.Commits(db, call) && id in R.Perform(db, call).db.executions && Terminal(R.Perform(db, call).db.executions[id].state)
  {
    hide V.VaultOk, E.Publish, E.PreserveOriginal;
    R.PublishSucceedsExactly(db, id, t);
    R.PreserveOriginalSucceedsExactly(db, id, t);
    RowHeld(db, id);
    R.CommittedCallsTransition(db, NextCall(x, t, code).value);
  }

  lemma RowHeld(db: Db, id: nat)
    requires V.VaultOk(db) && id in db.executions && db.executions[id].activeAccount.Some?
    ensures V.Held(db, db.executions[id]) && id in db.audits && id != 0
    ensures C.Readable(db, Account(db.executions[id].account), db.executions[id].previous, Active)
  {
    assert V.Held(db, db.executions[id]);
  }

  lemma CloserEnds(w: World, id: nat, t: nat, pc: Pc)
    requires Holding(w, id, t, pc)
    requires pc == Unsent || pc == Rejected || pc == Publishing || (pc == Seen(true) && w.executors[t].mode == KeepOriginal)
    ensures CanEnd(w, id)
  {
    hide Holding, Reached, V.VaultOk, WorldOk, ProtocolOk, R.Perform, R.Commits, CanEnd, RowOk, AppliedFor,
         RemoteStopped, AssumedThroughout;
    HoldingParts(w, id, t, pc);
    HolderOf(w, id, t, pc);
    ClosesAtStore(w.db, w.executors[t], id, t, "done");
    EndedCanEnd(Next(w, Record(t, "done")), id);
    CanEndBefore(w, Record(t, "done"), id);
  }

  lemma HolderOf(w: World, id: nat, t: nat, pc: Pc)
    requires Holding(w, id, t, pc)
    ensures t in w.executors && w.executors[t].pc == pc && w.executors[t].execution == id
    ensures id in w.db.executions && E.HoldsLease(w.db.executions[id], t, w.db.now)
    ensures Exists(w.db, Account(w.db.executions[id].account))
  {
  }

  /** Publishing what was accepted, or keeping the original that was. */
  lemma SeenEnds(w: World, id: nat, t: nat)
    requires Holding(w, id, t, Seen(true))
    ensures CanEnd(w, id)
  {
    hide Holding, Reached, WorldOk, ProtocolOk, CanEnd, RowOk, AppliedFor, RemoteStopped, Next, E.HoldsLease;
    HolderOf(w, id, t, Seen(true));
    if w.executors[t].mode == KeepOriginal {
      CloserEnds(w, id, t, Seen(true));
    } else {
      CandidateWorks(w, id, t);
      CloserEnds(Next(w, Record(t, "")), id, t, Publishing);
      CanEndBefore(w, Record(t, ""), id);
    }
  }

  lemma CandidateWorks(w: World, id: nat, t: nat)
    requires Holding(w, id, t, Seen(true)) && w.executors[t].mode != KeepOriginal
    ensures Assumed(w, Record(t, "")) && Holding(Next(w, Record(t, "")), id, t, Publishing)
  {
    hide Reached, WorldOk, ProtocolOk, V.VaultOk, RowOk, AppliedFor, RemoteStopped, ExecutorOk;
    HoldingParts(w, id, t, Seen(true));
    RowHeld(w.db, id);
    NextKeepsReached(w, Record(t, ""));
  }

  /** The secret this executor tests is the one the remote system accepts. */
  lemma TrueSecret(w: World, id: nat, t: nat)
    requires Holding(w, id, t, Pc.Verifying)
    requires if w.executors[t].mode == KeepOriginal then !AppliedFor(w, id) else AppliedFor(w, id)
    ensures Assumed(w, Verify(t, true))
  {
    hide Reached, WorldOk, ProtocolOk, V.VaultOk, AppliedFor, RemoteStopped, ExecutorOk;
    HoldingParts(w, id, t, Pc.Verifying);
  }

  lemma VerifyingNowEnds(w: World, id: nat, t: nat)
    requires Holding(w, id, t, Pc.Verifying)
    requires if w.executors[t].mode == KeepOriginal then !AppliedFor(w, id) else AppliedFor(w, id)
    ensures CanEnd(w, id)
  {
    hide Holding, Assumed, CanEnd, AppliedFor, R.Perform, R.Commits, MayWork, NextCall, SecretsReadable, OutsideCall,
         RemoteAfter;
    HolderOf(w, id, t, Pc.Verifying);
    TrueSecret(w, id, t);
    Forth(w, Verify(t, true), id, t, Pc.Verifying, Seen(true));
    SeenEnds(Next(w, Verify(t, true)), id, t);
    CanEndBefore(w, Verify(t, true), id);
  }

  /** What is on its way may still arrive. */
  lemma InFlightEnds(w: World, id: nat, t: nat, r: nat)
    requires Holding(w, id, t, Pc.Verifying) && w.executors[t].mode != KeepOriginal
    requires r in w.executors && w.executors[r].execution == id && r in w.flights && w.flights[r] == InFlight
    ensures CanEnd(w, id)
  {
    hide Holding, CanEnd, AppliedFor;
    DeliveryWorks(w, id, t, Pc.Verifying, r);
    VerifyingNowEnds(Next(w, Deliver(r)), id, t);
    CanEndBefore(w, Deliver(r), id);
  }

  lemma DeliveryWorks(w: World, id: nat, t: nat, pc: Pc, r: nat)
    requires Holding(w, id, t, pc)
    requires r in w.executors && w.executors[r].execution == id && r in w.flights && w.flights[r] == InFlight
    ensures Assumed(w, Deliver(r))
    ensures var u := Next(w, Deliver(r));
      && Holding(u, id, t, pc) && AppliedFor(u, id) && u.executors == w.executors && u.flights == w.flights[r := Applied]
  {
    hide Reached, WorldOk, ProtocolOk, V.VaultOk, RowOk, RemoteStopped, ExecutorOk;
    HoldingParts(w, id, t, pc);
    RowHeld(w.db, id);
    NextKeepsReached(w, Deliver(r));
    var u := Next(w, Deliver(r));
    assert r in u.executors && u.executors[r].execution == id && r in u.flights && u.flights[r] == Applied;
  }

  lemma SendWorks(w: World, id: nat, t: nat, pc: Pc, r: nat)
    requires Holding(w, id, t, pc) && Is(w, r, Armed) && w.executors[r].execution == id && pc != Armed
    ensures Assumed(w, Send(r))
    ensures var u := Next(w, Send(r));
      && Holding(u, id, t, pc) && u.executors[t] == w.executors[t]
      && r in u.executors && u.executors[r].execution == id && r in u.flights && u.flights[r] == InFlight
  {
    hide Reached, WorldOk, ProtocolOk, V.VaultOk, RowOk, RemoteStopped, AppliedFor, ExecutorOk;
    NextKeepsReached(w, Send(r));
  }

  lemma VerifyingEnds(w: World, id: nat, t: nat)
    requires Holding(w, id, t, Pc.Verifying) && CanComeTrue(w, id, w.executors[t].mode)
    ensures CanEnd(w, id)
  {
    hide Holding, CanEnd, AppliedFor, Assumed, Next;
    HolderOf(w, id, t, Pc.Verifying);
    if w.executors[t].mode == KeepOriginal || AppliedFor(w, id) {
      VerifyingNowEnds(w, id, t);
    } else {
      var r :| r in w.executors && w.executors[r].execution == id && (w.executors[r].pc == Armed || (r in w.flights && w.flights[r] == InFlight));
      if r in w.flights && w.flights[r] == InFlight {
        InFlightEnds(w, id, t, r);
      } else {
        SendWorks(w, id, t, Pc.Verifying, r);
        InFlightEnds(Next(w, Send(r)), id, t, r);
        CanEndBefore(w, Send(r), id);
      }
    }
  }

  /** Before the mutation is sent the executor can always give it up. */
  lemma UnsentEnds(w: World, id: nat, t: nat, pc: Pc)
    requires Holding(w, id, t, pc) && (pc == Ready || pc == Armed)
    ensures CanEnd(w, id)
  {
    hide Holding, CanEnd, R.Perform, R.Commits, MayWork, NextCall, SecretsReadable, OutsideCall, RemoteAfter;
    HolderOf(w, id, t, pc);
    Forth(w, GiveUp(t), id, t, pc, Unsent);
    CloserEnds(Next(w, GiveUp(t)), id, t, Unsent);
    CanEndBefore(w, GiveUp(t), id);
  }

  lemma AuthorizedEnds(w: World, id: nat, t: nat)
    requires Holding(w, id, t, Authorized) && (w.executors[t].fromPrepared || CanComeTrue(w, id, w.executors[t].mode))
    ensures CanEnd(w, id)
  {
    hide Holding, CanEnd, R.Perform, R.Commits, MayWork, NextCall, OutsideCall, RemoteAfter, C.Readable, CanComeTrue;
    HolderOf(w, id, t, Authorized);
    CanRead(w, id, t);
    var next := if w.executors[t].fromPrepared then Ready else Pc.Verifying;
    Forth(w, Read(t), id, t, Authorized, next);
    if w.executors[t].fromPrepared {
      UnsentEnds(Next(w, Read(t)), id, t, Ready);
    } else {
      VerifyingEnds(Next(w, Read(t)), id, t);
    }
    CanEndBefore(w, Read(t), id);
  }

  /** A claimed change is let through, or refused by the tables: either way the execution can be ended unsent. */
  lemma ClaimedEnds(w: World, id: nat, t: nat)
    requires Holding(w, id, t, Claimed) && w.executors[t].fromPrepared
    ensures CanEnd(w, id)
  {
    hide Holding, CanEnd, R.Perform, R.Commits, MayWork, NextCall, SecretsReadable, OutsideCall, RemoteAfter;
    HolderOf(w, id, t, Claimed);
    var e := Authorize(t, true);
    Forth(w, e, id, t, Claimed, if Granted(w, t, true) then Authorized else Unsent);
    if Granted(w, t, true) { AuthorizedEnds(Next(w, e), id, t); } else { CloserEnds(Next(w, e), id, t, Unsent); }
    CanEndBefore(w, e, id);
  }

  lemma CanRead(w: World, id: nat, t: nat)
    requires Holding(w, id, t, Authorized)
    ensures SecretsReadable(w.db, w.db.executions[id], w.executors[t])
  {
    hide Reached, WorldOk, ProtocolOk, V.VaultOk, RowOk, ExecutorOk;
    HoldingParts(w, id, t, Authorized);
    RowHeld(w.db, id);
  }

  /** An acknowledged change goes on to its verification. */
  lemma RepliedEnds(w: World, id: nat, t: nat)
    requires Holding(w, id, t, Replied(true))
    ensures CanEnd(w, id)
  {
    hide Holding, CanEnd, Next, Assumed, AppliedFor;
    AcknowledgementWorks(w, id, t);
    VerifyingNowEnds(Next(w, Record(t, "")), id, t);
    CanEndBefore(w, Record(t, ""), id);
  }

  lemma AcknowledgementWorks(w: World, id: nat, t: nat)
    requires Holding(w, id, t, Replied(true))
    ensures Assumed(w, Record(t, ""))
    ensures var u := Next(w, Record(t, ""));
      Holding(u, id, t, Pc.Verifying) && AppliedFor(u, id) && u.executors[t].mode != KeepOriginal
  {
    hide Reached, WorldOk, ProtocolOk, V.VaultOk, RowOk, RemoteStopped;
    HoldingParts(w, id, t, Replied(true));
    RowHeld(w.db, id);
    NextKeepsReached(w, Record(t, ""));
    var u := Next(w, Record(t, ""));
    assert t in u.executors && u.executors[t].execution == id && t in u.flights && u.flights[t] == Applied;
  }

  /** A sent mutation arrives or is lost, and a truthful reply says which. */
  lemma SentEnds(w: World, id: nat, t: nat)
    requires Holding(w, id, t, Sent)
    ensures CanEnd(w, id)
  {
    hide Holding, CanEnd, Next, Assumed, AppliedFor;
    SentFlies(w, id, t);
    HolderOf(w, id, t, Sent);
    if w.flights[t] == InFlight {
      DeliveryWorks(w, id, t, Sent, t);
      AnsweredEnds(Next(w, Deliver(t)), id, t);
      CanEndBefore(w, Deliver(t), id);
    } else {
      AnsweredEnds(w, id, t);
    }
  }

  lemma SentFlies(w: World, id: nat, t: nat)
    requires Holding(w, id, t, Sent)
    ensures t in w.flights
  {
    HoldingParts(w, id, t, Sent);
  }

  lemma AnsweredEnds(w: World, id: nat, t: nat)
    requires Holding(w, id, t, Sent) && t in w.flights && w.flights[t] != InFlight
    ensures CanEnd(w, id)
  {
    hide Holding, CanEnd, R.Perform, R.Commits, MayWork, NextCall, SecretsReadable, OutsideCall, RemoteAfter;
    HolderOf(w, id, t, Sent);
    var applied := w.flights[t] == Applied;
    var e := Reply(t, if applied then Answer.Changed else ConfirmedUnchanged);
    Forth(w, e, id, t, Sent, if applied then Replied(true) else Rejected);
    if applied { RepliedEnds(Next(w, e), id, t); } else { CloserEnds(Next(w, e), id, t, Rejected); }
    CanEndBefore(w, e, id);
  }

  /** Whoever carries an execution can end it, while its account exists. */
  lemma CarrierEnds(w: World, id: nat, t: nat)
    requires Reached(w) && id in w.db.executions && Carries(w, id, t) && Exists(w.db, Account(w.db.executions[id].account))
    ensures CanEnd(w, id)
  {
    hide Reached, CanEnd, CanComeTrue, Next, Assumed, E.HoldsLease;
    match w.executors[t].pc
    case Claimed => ClaimedEnds(w, id, t);
    case Authorized => AuthorizedEnds(w, id, t);
    case Ready => UnsentEnds(w, id, t, Ready);
    case Armed => UnsentEnds(w, id, t, Armed);
    case Sent => SentEnds(w, id, t);
    case Unsent => CloserEnds(w, id, t, Unsent);
    case Rejected => CloserEnds(w, id, t, Rejected);
    case Replied(_) => RepliedEnds(w, id, t);
    case Verifying => VerifyingEnds(w, id, t);
    case Seen(_) => SeenEnds(w, id, t);
    case Publishing => CloserEnds(w, id, t, Publishing);
    case Stopped =>
  }

  // ---- Getting through again ----

  /** Active, its lease out, and nothing of it under way to the remote system. */
  ghost predicate Free(w: World, id: nat) {
    && Reached(w) && id in w.db.executions && w.db.executions[id].activeAccount.Some? && RemoteStopped(w, id)
    && !After(w.db.executions[id].leaseUntil, w.db.now) && Exists(w.db, Account(w.db.executions[id].account))
  }

  /** What a new executor of a free execution should be asked for. */
  ghost function RightMode(w: World, id: nat): Mode
    requires id in w.db.executions
  {
    if w.db.executions[id].state == Prepared then Change else if AppliedFor(w, id) then Reconcile else KeepOriginal
  }

  lemma FreeParts(w: World, id: nat)
    requires Free(w, id)
    ensures WorldOk(w) && V.VaultOk(w.db) && ProtocolOk(w) && id in w.db.executions && w.db.executions[id].activeAccount.Some?
    ensures V.Held(w.db, w.db.executions[id]) && TargetHeld(w.db, w.db.executions[id]) && id != 0
    ensures !Terminal(w.db.executions[id].state) && Exists(w.db, Account(w.db.executions[id].account))
  {
    RowHeld(w.db, id);
    assert V.RowConsistent(w.db.executions[id]);
  }

  /** A claim by a new executor that was cleared. */
  lemma ClaimWorks(w: World, id: nat, t: nat, mode: Mode)
    requires Free(w, id) && t != 0 && t !in w.executors && t in w.cleared && w.cleared[t] == Clearance(id, mode)
    requires w.db.executions[id].state == Prepared <==> mode == Change
    ensures Assumed(w, Start(t, id, mode))
    ensures var u := Next(w, Start(t, id, mode));
      && Holding(u, id, t, Claimed) && u.executors[t] == Executor(id, mode, mode == Change, false, Claimed)
      && (AppliedFor(u, id) <==> AppliedFor(w, id))
      && u.db.owners == w.db.owners && u.db.bindings == w.db.bindings && u.db.assets == w.db.assets
      && u.db.executions[id].account == w.db.executions[id].account && u.db.executions[id].binding == w.db.executions[id].binding
      && u.db.executions[id].bindingRevision == w.db.executions[id].bindingRevision && u.db.executions[id].scope == w.db.executions[id].scope
      && u.db.executions[id].accountRevision == w.db.executions[id].accountRevision
  {
    hide Reached, WorldOk, ProtocolOk, V.VaultOk, TargetHeld, V.Held, AppliedFor, RemoteStopped;
    FreeParts(w, id);
    ReachedOfFree(w, id);
    NextKeepsReached(w, Start(t, id, mode));
    TokensHaveNoFlight(w, t);
    SameApplied(w, Next(w, Start(t, id, mode)), id);
  }

  lemma ReachedOfFree(w: World, id: nat)
    requires Free(w, id)
    ensures Reached(w)
  {
  }

  lemma TokensHaveNoFlight(w: World, t: nat)
    requires ProtocolOk(w) && t !in w.executors
    ensures t !in w.flights
  {
  }

  lemma ClearedEnds(w: World, id: nat, t: nat)
    requires Free(w, id) && ClearedToStart(w, id, t) && w.db.executions[id].state == Prepared
    ensures CanEnd(w, id)
  {
    hide Free, Holding, CanEnd, Next, Assumed, AppliedFor;
    ClaimWorks(w, id, t, Change);
    var u := Next(w, Start(t, id, Change));
    ClaimedEnds(u, id, t);
    CanEndBefore(w, Start(t, id, Change), id);
  }

  lemma ClearWorks(w: World, id: nat, t: nat, mode: Mode)
    requires Free(w, id) && t != 0 && t !in w.executors && t !in w.cleared && MayWork(w.db, id, mode)
    ensures Assumed(w, Clear(t, id, mode, true))
    ensures var u := Next(w, Clear(t, id, mode, true));
      Free(u, id) && u == w.(cleared := w.cleared[t := Clearance(id, mode)]) && (AppliedFor(u, id) <==> AppliedFor(w, id))
  {
    hide Reached, MayWork, AppliedFor;
    NextKeepsReached(w, Clear(t, id, mode, true));
    SameApplied(w, Next(w, Clear(t, id, mode, true)), id);
    SameStopped(w, Next(w, Clear(t, id, mode, true)), id);
  }

  /** Whoever is let through to a free execution ends it. */
  lemma LetThroughEnds(w: World, id: nat)
    requires Free(w, id) && T.MayWork(w.db, w.db.executions[id], w.db.executions[id].state != Prepared)
    ensures CanEnd(w, id)
  {
    hide Free, Holding, CanEnd, Next, Assumed, AppliedFor, T.MayWork, RemoteStopped;
    FreeParts(w, id);
    var mode := RightMode(w, id);
    var t := Unused(w.executors.Keys + w.cleared.Keys);
    ClearWorks(w, id, t, mode);
    var u := Next(w, Clear(t, id, mode, true));
    if mode == Change {
      ClearedEnds(u, id, t);
    } else {
      RecoveryEnds(u, id, t, mode);
    }
    CanEndBefore(w, Clear(t, id, mode, true), id);
  }

  lemma RecoveryEnds(w: World, id: nat, t: nat, mode: Mode)
    requires Free(w, id) && t != 0 && t !in w.executors && t in w.cleared && w.cleared[t] == Clearance(id, mode)
    requires w.db.executions[id].state != Prepared && mode == (if AppliedFor(w, id) then Reconcile else KeepOriginal)
    requires MayWork(w.db, id, mode)
    ensures CanEnd(w, id)
  {
    hide Free, Holding, CanEnd, AppliedFor, RemoteStopped, R.Perform, R.Commits, NextCall, SecretsReadable,
         OutsideCall, RemoteAfter, E.HoldsLease, MayClaim;
    ClaimWorks(w, id, t, mode);
    var u := Next(w, Start(t, id, mode));
    HolderOf(u, id, t, Claimed);
    assert MayWork(u.db, id, mode);
    Forth(u, Authorize(t, true), id, t, Claimed, Authorized);
    AuthorizedEnds(Next(u, Authorize(t, true)), id, t);
    CanEndBefore(u, Authorize(t, true), id);
    CanEndBefore(w, Start(t, id, mode), id);
  }

  // ---- Putting account, binding and asset right ----

  /** Another writer's call that leaves executions and clock alone keeps the execution free and what it should be asked for. */
  lemma RepairWorks(w: World, call: R.Call, id: nat)
    requires Free(w, id) && (call.Retarget? || call.SetEnabled?)
    ensures Assumed(w, Outside(call))
    ensures var u := Next(w, Outside(call));
      && Free(u, id) && u.db == R.Perform(w.db, call).db && u.db.executions[id] == w.db.executions[id]
  {
    hide Reached, R.Perform, R.Commits, RemoteAfter, AppliedFor;
    NextKeepsReached(w, Outside(call));
    R.OtherCallsSaveNoRow(w.db, call);
    SameNow(w.db, call);
    SameExistence(w.db, call, Account(w.db.executions[id].account));
    SameStopped(w, Next(w, Outside(call)), id);
  }

  lemma SameNow(db: Db, call: R.Call)
    requires call.Retarget? || call.SetEnabled?
    ensures R.Perform(db, call).db.now == db.now
  {
    hide T.Apply;
  }

  lemma SameExistence(db: Db, call: R.Call, owner: Owner)
    requires call.Retarget? || call.SetEnabled?
    ensures Exists(R.Perform(db, call).db, owner) <==> Exists(db, owner)
  {
    hide T.Apply;
  }

  lemma RepairEnds(w: World, call: R.Call, id: nat)
    requires Free(w, id) && (call.Retarget? || call.SetEnabled?)
    requires CanEnd(Next(w, Outside(call)), id)
    ensures CanEnd(w, id)
  {
    hide Free, CanEnd, Next, Assumed;
    RepairWorks(w, call, id);
    CanEndBefore(w, Outside(call), id);
  }

  /** Nothing was revised: at most the asset has to be moved back to where the binding has it. */
  lemma UnrevisedEnds(w: World, id: nat)
    requires Free(w, id) && Unrevised(w.db, w.db.executions[id]) && Workable(w.db, w.db.executions[id])
    ensures CanEnd(w, id)
  {
    hide Free, CanEnd, Next, Assumed, R.Perform, T.MayWork, V.VaultOk, WorldOk, ProtocolOk;
    FreeParts(w, id);
    var b := w.db.bindings[w.db.executions[id].binding];
    var call := R.Retarget(T.EditAsset(b.asset, b.route));
    RepairWorks(w, call, id);
    MovedAssetFits(w.db, w.db.executions[id]);
    LetThroughEnds(Next(w, Outside(call)), id);
    RepairEnds(w, call, id);
  }

  lemma MovedAssetFits(db: Db, row: Execution)
    requires V.Held(db, row) && TargetHeld(db, row) && Unrevised(db, row) && Workable(db, row) && Exists(db, Account(row.account))
    ensures var b := db.bindings[row.binding];
      var after := R.Perform(db, R.Retarget(T.EditAsset(b.asset, b.route))).db;
      T.MayWork(after, row, false) && T.MayWork(after, row, true)
  {
  }

  /** The account, binding and asset of an execution under recovery, with its scope. */
  ghost predicate Recovering(w: World, id: nat) {
    && Free(w, id) && w.db.executions[id].state != Prepared && w.db.executions[id].scope.Some?
    && w.db.executions[id].binding in w.db.bindings && T.AssetLives(w.db, w.db.bindings[w.db.executions[id].binding].asset)
    && T.OnlyAsset(w.db, w.db.executions[id].account, w.db.bindings[w.db.executions[id].binding].asset)
  }

  /** The last repair: the configuration. */
  lemma ConfigureEnds(w: World, id: nat)
    requires Recovering(w, id)
    requires var row := w.db.executions[id];
      && T.LoadRefusal(w.db, row.account, row.binding).None?
      && w.db.bindings[row.binding].route.host == row.scope.value.host
      && w.db.bindings[row.binding].route.gateway == row.scope.value.gateway
    ensures CanEnd(w, id)
  {
    hide Free, CanEnd, Next, Assumed, R.Perform, T.MayWork, V.VaultOk, WorldOk, ProtocolOk;
    FreeParts(w, id);
    var row := w.db.executions[id];
    var call := R.Retarget(T.Configure(row.binding, w.db.bindings[row.binding].revision, row.scope.value.config, true));
    RepairWorks(w, call, id);
    ConfiguredFits(w.db, row);
    LetThroughEnds(Next(w, Outside(call)), id);
    RepairEnds(w, call, id);
  }

  lemma ConfiguredFits(db: Db, row: Execution)
    requires TargetHeld(db, row) && row.scope.Some? && T.LoadRefusal(db, row.account, row.binding).None?
    requires T.OnlyAsset(db, row.account, db.bindings[row.binding].asset)
    requires db.bindings[row.binding].route.host == row.scope.value.host && db.bindings[row.binding].route.gateway == row.scope.value.gateway
    ensures var call := R.Retarget(T.Configure(row.binding, db.bindings[row.binding].revision, row.scope.value.config, true));
      T.MayWork(R.Perform(db, call).db, row, true)
  {
  }

  /** Before it the binding is reviewed, against an asset that is where it was. */
  lemma ReviewEnds(w: World, id: nat)
    requires Recovering(w, id)
    requires var row := w.db.executions[id];
      var route := w.db.assets[w.db.bindings[row.binding].asset].route;
      && Account(row.account) in w.db.owners && w.db.owners[Account(row.account)].enabled
      && route.host == row.scope.value.host && route.gateway == row.scope.value.gateway
    ensures CanEnd(w, id)
  {
    hide Free, CanEnd, Next, Assumed, R.Perform, V.VaultOk, WorldOk, ProtocolOk;
    FreeParts(w, id);
    var row := w.db.executions[id];
    var call := R.Retarget(T.Review(row.binding, w.db.bindings[row.binding].revision, true, true));
    RepairWorks(w, call, id);
    ReviewedFits(w.db, row);
    ConfigureEnds(Next(w, Outside(call)), id);
    RepairEnds(w, call, id);
  }

  lemma ReviewedFits(db: Db, row: Execution)
    requires V.Held(db, row) && TargetHeld(db, row) && T.AssetLives(db, db.bindings[row.binding].asset)
    requires db.owners[Account(row.account)].enabled && Exists(db, Account(row.account))
    ensures var b := db.bindings[row.binding];
      var after := R.Perform(db, R.Retarget(T.Review(row.binding, b.revision, true, true))).db;
      && T.LoadRefusal(after, row.account, row.binding).None? && row.binding in after.bindings
      && after.bindings[row.binding].route == db.assets[b.asset].route && after.bindings[row.binding].asset == b.asset
      && after.assets == db.assets && (T.OnlyAsset(db, row.account, b.asset) ==> T.OnlyAsset(after, row.account, b.asset))
  {
  }

  /** Before that the asset is moved back. */
  lemma MoveEnds(w: World, id: nat)
    requires Recovering(w, id)
    requires var row := w.db.executions[id]; Account(row.account) in w.db.owners && w.db.owners[Account(row.account)].enabled
    ensures CanEnd(w, id)
  {
    hide Free, CanEnd, Next, Assumed, R.Perform, V.VaultOk, WorldOk, ProtocolOk;
    FreeParts(w, id);
    var row := w.db.executions[id];
    var asset := w.db.bindings[row.binding].asset;
    var route := Route(row.scope.value.host, row.scope.value.gateway, w.db.bindings[row.binding].route.protocols);
    var call := R.Retarget(T.EditAsset(asset, route));
    RepairWorks(w, call, id);
    MovedAsset(w.db, asset, route);
    ReviewEnds(Next(w, Outside(call)), id);
    RepairEnds(w, call, id);
  }

  lemma MovedAsset(db: Db, asset: nat, route: Route)
    requires T.AssetLives(db, asset)
    ensures var after := R.Perform(db, R.Retarget(T.EditAsset(asset, route))).db;
      after == db.(assets := db.assets[asset := Asset(route, false)])
  {
  }

  /** And first of all the account is enabled. */
  lemma EnableEnds(w: World, id: nat)
    requires Recovering(w, id)
    ensures CanEnd(w, id)
  {
    hide Free, CanEnd, Next, Assumed, R.Perform, V.VaultOk, WorldOk, ProtocolOk;
    FreeParts(w, id);
    var owner := Account(w.db.executions[id].account);
    if w.db.owners[owner].enabled {
      MoveEnds(w, id);
    } else {
      var call := R.SetEnabled(owner.id, w.db.owners[owner].revision, true, true);
      RepairWorks(w, call, id);
      Enabled(w.db, owner.id);
      MoveEnds(Next(w, Outside(call)), id);
      RepairEnds(w, call, id);
    }
  }

  lemma Enabled(db: Db, account: nat)
    requires Exists(db, Account(account)) && db.owners[Account(account)].managed && db.owners[Account(account)].revision != 0
    requires !db.owners[Account(account)].enabled
    ensures var after := R.Perform(db, R.SetEnabled(account, db.owners[Account(account)].revision, true, true)).db;
      && Account(account) in after.owners && after.owners[Account(account)].enabled
      && after.bindings == db.bindings && after.assets == db.assets
  {
  }

  /** A workable execution that is free can be ended. */
  lemma FreeEnds(w: World, id: nat)
    requires Free(w, id) && Workable(w.db, w.db.executions[id])
    ensures CanEnd(w, id)
  {
    hide Free, CanEnd;
    FreeParts(w, id);
    if Unrevised(w.db, w.db.executions[id]) { UnrevisedEnds(w, id); } else { EnableEnds(w, id); }
  }

  // ---- Becoming free ----

  /** Something of this executor can still reach the remote system. */
  predicate CanReach(w: World, t: nat)
    requires t in w.executors
  {
    w.executors[t].pc == Armed || (t in w.flights && w.flights[t] == InFlight)
  }

  lemma OnlyCommittedReach(w: World, t: nat)
    requires ProtocolOk(w) && t in w.executors && CanReach(w, t)
    ensures w.executors[t].committed && (w.executors[t].pc == Armed <==> t !in w.flights)
  {
    assert ExecutorOk(w, t);
  }

  lemma AtMostOneReaches(w: World, id: nat, t: nat)
    requires ProtocolOk(w) && t in w.executors && w.executors[t].execution == id && CanReach(w, t)
    ensures forall s :: s in w.executors && w.executors[s].execution == id && s != t ==> !CanReach(w, s)
  {
    OnlyCommittedReach(w, t);
    forall s | s in w.executors && w.executors[s].execution == id && CanReach(w, s)
      ensures s == t
    {
      OnlyCommittedReach(w, s);
    }
  }

  /** One event puts an end to whatever could still reach the remote system. */
  lemma OneEventSilences(w: World, id: nat) returns (e: Event)
    requires ProtocolOk(w) && !RemoteStopped(w, id)
    ensures Assumed(w, e) && RemoteStopped(Next(w, e), id) && Next(w, e).db == w.db
  {
    hide ProtocolOk, R.Perform, R.Commits, NextCall, AfterCall, SecretsReadable, MayWork, OutsideCall, RemoteAfter;
    var t :| t in w.executors && w.executors[t].execution == id && CanReach(w, t);
    OnlyCommittedReach(w, t);
    AtMostOneReaches(w, id, t);
    e := if w.executors[t].pc == Armed then Crash(t) else Lose(t);
    var u := Next(w, e);
    forall s | s in u.executors && u.executors[s].execution == id
      ensures u.executors[s].pc != Armed && !(s in u.flights && u.flights[s] == InFlight)
    {
      assert s != t ==> !CanReach(w, s);
    }
  }

  lemma TickPasses(w: World, elapsed: nat)
    ensures Next(w, Outside(R.Tick(elapsed))) == w.(db := w.db.(now := w.db.now + elapsed)) && Assumed(w, Outside(R.Tick(elapsed)))
  {
  }

  /** The lease runs out. */
  lemma Outlive(w: World, id: nat) returns (e: Event)
    requires Reached(w) && id in w.db.executions && w.db.executions[id].activeAccount.Some? && RemoteStopped(w, id)
    requires Exists(w.db, Account(w.db.executions[id].account))
    ensures Assumed(w, e) && Free(Next(w, e), id)
    ensures var u := Next(w, e); u == w.(db := w.db.(now := u.db.now))
  {
    hide Reached, RemoteStopped, Next, Assumed;
    var lease := w.db.executions[id].leaseUntil;
    var elapsed: nat := if lease.Some? && lease.value > w.db.now then lease.value - w.db.now else 0;
    e := Outside(R.Tick(elapsed));
    TickPasses(w, elapsed);
    NextKeepsReached(w, e);
    SameStopped(w, Next(w, e), id);
  }

  lemma StoppedIfPrepared(w: World, id: nat)
    requires Reached(w) && id in w.db.executions && w.db.executions[id].state == Prepared
    ensures RemoteStopped(w, id)
  {
    ExecutorsOf(w);
    PreparedIsStopped(w, id);
  }

  lemma ActiveUnlessTerminal(w: World, id: nat)
    requires Reached(w) && id in w.db.executions && !Terminal(w.db.executions[id].state)
    ensures w.db.executions[id].activeAccount.Some? && ProtocolOk(w)
  {
    assert V.RowConsistent(w.db.executions[id]);
  }

  lemma StoppedWorkableEnds(w: World, id: nat)
    requires Reached(w) && id in w.db.executions && w.db.executions[id].activeAccount.Some? && RemoteStopped(w, id)
    requires Exists(w.db, Account(w.db.executions[id].account))
    requires Workable(w.db, w.db.executions[id])
    ensures CanEnd(w, id)
  {
    hide Reached, RemoteStopped, Free, CanEnd, Next, Assumed;
    var wait := Outlive(w, id);
    FreeEnds(Next(w, wait), id);
    CanEndBefore(w, wait, id);
  }

  lemma WorkableEnds(w: World, id: nat)
    requires Reached(w) && id in w.db.executions && w.db.executions[id].activeAccount.Some? && Workable(w.db, w.db.executions[id])
    requires Exists(w.db, Account(w.db.executions[id].account))
    ensures CanEnd(w, id)
  {
    hide Reached, RemoteStopped, Free, CanEnd, Next, Assumed, Workable;
    if RemoteStopped(w, id) {
      StoppedWorkableEnds(w, id);
    } else {
      assert ProtocolOk(w) by { ProtocolOfReached(w); }
      var silence := OneEventSilences(w, id);
      NextKeepsReached(w, silence);
      StoppedWorkableEnds(Next(w, silence), id);
      CanEndBefore(w, silence, id);
    }
  }

  lemma ProtocolOfReached(w: World)
    requires Reached(w)
    ensures ProtocolOk(w)
  {
  }

  lemma ClearedPreparedEnds(w: World, id: nat, t: nat)
    requires Reached(w) && id in w.db.executions && w.db.executions[id].state == Prepared && w.db.executions[id].activeAccount.Some?
    requires ClearedToStart(w, id, t) && Exists(w.db, Account(w.db.executions[id].account))
    ensures CanEnd(w, id)
  {
    hide Reached, RemoteStopped, Free, CanEnd, Next, Assumed;
    StoppedIfPrepared(w, id);
    var wait := Outlive(w, id);
    ClearedEnds(Next(w, wait), id, t);
    CanEndBefore(w, wait, id);
  }

  // ---- The theorem ----

  lemma OpenEnds(w: World, id: nat)
    requires Reached(w) && id in w.db.executions && StillOpen(w, id)
    ensures CanEnd(w, id)
  {
    hide Reached, CanEnd, Workable, Carries, ClearedToStart;
    if Terminal(w.db.executions[id].state) {
      EndedCanEnd(w, id);
    } else {
      ActiveUnlessTerminal(w, id);
      if Workable(w.db, w.db.executions[id]) {
        WorkableEnds(w, id);
      } else if t :| Carries(w, id, t) {
        CarrierEnds(w, id, t);
      } else {
        var t :| ClearedToStart(w, id, t);
        ClearedPreparedEnds(w, id, t);
      }
    }
  }

  lemma StuckCannotEnd(w: World, id: nat)
    requires Stuck(w, id)
    ensures !CanEnd(w, id)
  {
    hide Stuck, Assumed;
    forall events ensures !Ends(w, events, id) {
      if AssumedThroughout(w, events) {
        RunStaysStuck(w, events, id);
        StuckIsActive(Run(w, events), id);
      }
    }
  }

  lemma StuckIsActive(w: World, id: nat)
    requires Stuck(w, id)
    ensures id in w.db.executions && !Terminal(w.db.executions[id].state)
  {
  }

  /** In every reachable world: some continuation ends the execution, with the assumptions kept and permission given to
   whoever asks, if and only if it has ended, or its account exists and somebody can still be let through to it, or
   somebody who was let through before still can finish. */
  lemma {:induction false} EndsExactly(w: World, history: seq<Event>, id: nat)
    requires Initial(w) && AssumedThroughout(w, history) && id in Run(w, history).db.executions
    ensures CanEnd(Run(w, history), id) <==> StillOpen(Run(w, history), id)
  {
    hide Reached, CanEnd, StillOpen, Assumed, AssumedThroughout;
    InitialIsReached(w);
    RunKeepsReached(w, history);
    var now := Run(w, history);
    if StillOpen(now, id) {
      OpenEnds(now, id);
    } else {
      assert Stuck(now, id);
      StuckCannotEnd(now, id);
    }
  }
}
