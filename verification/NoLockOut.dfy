/** The main theorems about the password-change protocol, over every interleaving. */
module NoLockOutTheorem {
  import opened Basics
  import opened Tables
  import C = CredentialSpec
  import E = ExecutionSpec
  import V = VaultInvariant
  import R = VaultRuns
  import TI = TargetInvariant
  import opened PasswordProtocol
  import opened ProtocolInvariant

  lemma NextKeepsVault(w: World, e: Event)
    requires V.VaultOk(w.db)
    ensures V.VaultOk(Next(w, e).db)
  {
    hide V.VaultOk, R.Perform, R.Commits, MayWork, SecretsReadable, Granted;
    match e
    case Outside(call) => R.CallKeepsVault(w.db, call);
    case Start(token, id, mode) => R.CallKeepsVault(w.db, R.Claim(id, token, mode != Change));
    case Before(token, granted) =>
      if token in w.executors { R.CallKeepsVault(w.db, R.BeforeChange(w.executors[token].execution, token)); }
    case Record(token, code) =>
      if token in w.executors && NextCall(w.executors[token], token, code).Some? {
        R.CallKeepsVault(w.db, NextCall(w.executors[token], token, code).value);
      }
    case _ =>
  }

  lemma OutsideKeeps(w: World, call: R.Call)
    requires WorldOk(w)
    ensures ProtocolOk(Next(w, Outside(call)))
  {
    var u := Next(w, Outside(call));
    if OutsideCall(call) {
      if !call.Prepare? {
        OtherWritersKeep(w, call);
      } else if R.Perform(w.db, call).db != w.db {
        PrepareIsNew(w, call);
        PreparedKeeps(w, u, call.newId);
      } else {
        assert u == w;
      }
    }
  }

  /** One step of anyone: executor, competing writer, clock or network. */
  lemma {:induction false} NextKeepsWorld(w: World, e: Event)
    requires WorldOk(w) && Truthful(w, e) && ClaimsDistinct(w, e)
    ensures WorldOk(Next(w, e))
  {
    hide Next, ProtocolOk, V.VaultOk, Truthful, ClaimsDistinct;
    NextKeepsVault(w, e);
    match e
    case Outside(call) => OutsideKeeps(w, call);
    case Clear(token, id, mode, granted) => ClearKeeps(w, token, id, mode, granted);
    case Start(token, id, mode) => StartKeeps(w, token, id, mode);
    case Authorize(token, granted) => AuthorizeKeeps(w, token, granted);
    case Read(token) => ReadKeeps(w, token);
    case GiveUp(token) => GiveUpKeeps(w, token);
    case Before(token, granted) => BeforeKeeps(w, token, granted);
    case Send(token) => SendKeeps(w, token);
    case Deliver(token) => DeliverKeeps(w, token);
    case Lose(token) => LoseKeeps(w, token);
    case Reply(token, answer) => ReplyKeeps(w, token, answer);
    case Verify(token, accepted) => VerifyKeeps(w, token, accepted);
    case Record(token, code) => RecordKeeps(w, token, code);
    case Crash(token) => CrashKeeps(w, token);
  }

  // ---- Candidates stay as distinct as they were prepared ----

  lemma CallKeepsDistinct(db: Db, call: R.Call, id: nat)
    requires V.VaultOk(db) && id in db.executions && Distinct(db, db.executions[id])
    ensures var after := R.Perform(db, call).db; id in after.executions && Distinct(after, after.executions[id])
  {
    hide V.VaultOk, R.Perform;
    R.CallMovesRowsForward(db, call);
    R.CallMovesVersionsForward(db, call);
  }

  /** The call an event makes on the store, if it makes one. */
  ghost function CallOf(w: World, e: Event): Option<R.Call> {
    match e
    case Outside(call) => if OutsideCall(call) then Some(call) else None
    case Start(token, id, mode) => if MayClaim(w, token, id, mode) then Some(R.Claim(id, token, mode != Change)) else None
    case Before(token, granted) => if Arming(w, token, granted) then Some(R.BeforeChange(w.executors[token].execution, token)) else None
    case Record(token, code) => if token in w.executors then NextCall(w.executors[token], token, code) else None
    case _ => None
  }

  lemma EventPerforms(w: World, e: Event)
    ensures Next(w, e).db == if CallOf(w, e).Some? then R.Perform(w.db, CallOf(w, e).value).db else w.db
  {
    hide R.Perform, R.Commits, MayWork, NextCall, SecretsReadable;
  }

  lemma NextKeepsOneDistinct(w: World, e: Event, id: nat)
    requires V.VaultOk(w.db) && id in w.db.executions && Distinct(w.db, w.db.executions[id])
    ensures id in Next(w, e).db.executions && Distinct(Next(w, e).db, Next(w, e).db.executions[id])
  {
    hide V.VaultOk, Next, Distinct, CallOf, R.Perform;
    EventPerforms(w, e);
    if CallOf(w, e).Some? { CallKeepsDistinct(w.db, CallOf(w, e).value, id); }
  }

  /** A new row is a preparation's, and an active one was active before. */
  lemma ActiveRowsOf(w: World, e: Event, id: nat)
    requires V.VaultOk(w.db) && id in Next(w, e).db.executions && Next(w, e).db.executions[id].activeAccount.Some?
    ensures if id in w.db.executions then w.db.executions[id].activeAccount.Some?
      else e.Outside? && e.call.Prepare? && OutsideCall(e.call) && id == e.call.newId && R.Perform(w.db, e.call).db != w.db
  {
    hide V.VaultOk, Next, R.Perform, R.RowLater, CallOf;
    EventPerforms(w, e);
    if CallOf(w, e).Some? {
      var call := CallOf(w, e).value;
      if id in w.db.executions {
        TI.StillActiveWasActive(w.db, call, id);
      } else {
        TI.OnlyPrepareAdds(w.db, call, id);
        PrepareIsOutside(w, e);
      }
    }
  }

  lemma PrepareIsOutside(w: World, e: Event)
    ensures CallOf(w, e).Some? && CallOf(w, e).value.Prepare? ==> e == Outside(CallOf(w, e).value) && OutsideCall(e.call)
  {
    hide R.Perform, R.Commits, MayClaim, Arming;
  }

  lemma FreshIsDistinct(w: World, call: R.Call)
    requires V.VaultOk(w.db) && call.Prepare? && FreshCandidate(w, Outside(call)) && R.Perform(w.db, call).db != w.db
    ensures var after := R.Perform(w.db, call).db;
      call.newId in after.executions && Distinct(after, after.executions[call.newId])
  {
    var owner := Account(call.input.account);
    assert C.Readable(w.db, owner, w.db.owners[owner].reference, Active);
  }

  lemma NextKeepsDistinct(w: World, e: Event)
    requires V.VaultOk(w.db) && RowsDistinct(w.db) && FreshCandidate(w, e)
    ensures RowsDistinct(Next(w, e).db)
  {
    hide V.VaultOk, Next, R.Perform, Distinct, FreshCandidate;
    var u := Next(w, e);
    forall id | id in u.db.executions && u.db.executions[id].activeAccount.Some? ensures Distinct(u.db, u.db.executions[id]) {
      ActiveRowsOf(w, e, id);
      if id in w.db.executions {
        NextKeepsOneDistinct(w, e, id);
      } else {
        FreshIsDistinct(w, e.call);
        OutsidePerforms(w, e.call);
      }
    }
  }

  lemma OutsidePerforms(w: World, call: R.Call)
    requires OutsideCall(call)
    ensures Next(w, Outside(call)).db == R.Perform(w.db, call).db
  {
    hide R.Perform, R.Commits;
  }

  /** The invariant behind the theorems, with every active candidate distinct. */
  lemma {:induction false} NextKeeps(w: World, e: Event)
    requires WorldOk(w) && RowsDistinct(w.db) && Assumed(w, e)
    ensures WorldOk(Next(w, e)) && RowsDistinct(Next(w, e).db)
  {
    hide WorldOk, Next, RowsDistinct, FreshCandidate, Truthful;
    ClaimsOfDistinct(w, e);
    NextKeepsWorld(w, e);
    PartsOf(w);
    NextKeepsDistinct(w, e);
  }

  lemma ClaimsOfDistinct(w: World, e: Event)
    requires RowsDistinct(w.db)
    ensures ClaimsDistinct(w, e)
  {
    hide Distinct;
  }

  lemma AssumedPrefix(w: World, events: seq<Event>, n: nat)
    requires AssumedThroughout(w, events) && n <= |events|
    ensures AssumedThroughout(w, events[..n])
  {
    forall k | 0 <= k < n ensures Assumed(Run(w, events[..n][..k]), events[..n][k]) {
      assert events[..n][..k] == events[..k];
    }
  }

  lemma {:induction false} RunKeeps(w: World, events: seq<Event>)
    requires WorldOk(w) && RowsDistinct(w.db) && AssumedThroughout(w, events)
    ensures WorldOk(Run(w, events)) && RowsDistinct(Run(w, events).db)
    decreases |events|
  {
    if events != [] {
      var n := |events| - 1;
      AssumedPrefix(w, events, n);
      RunKeeps(w, events[..n]);
      NextKeeps(Run(w, events[..n]), events[n]);
    }
  }

  /** No lock-out: after any run, whatever crashed, expired or got lost, the vault holds the secret the remote
   system accepts, and an account without an active execution resolves to exactly that secret. */
  lemma {:induction false} NoLockOutEver(w: World, events: seq<Event>)
    requires Initial(w) && AssumedThroughout(w, events)
    ensures NoLockOut(Run(w, events))
  {
    InitialIsOk(w);
    RunKeeps(w, events);
    OkMeansNoLockOut(Run(w, events));
  }

  // ---- At most one send, with no assumption about the outside at all ----

  ghost predicate SendsOk(w: World) {
    && OneCommitted(w.executors)
    && (forall t :: t in w.flights ==> t in w.executors && w.executors[t].committed && !BeforeSending(w.executors[t].pc))
    && (forall t :: t in w.executors ==>
          && (w.executors[t].pc == Armed ==> w.executors[t].committed)
          && (w.executors[t].committed ==>
                w.executors[t].execution in w.db.executions && w.db.executions[w.executors[t].execution].state != Prepared)
          && (w.executors[t].committed ==> w.executors[t].pc !in {Claimed, Authorized, Ready}))
  }

  lemma StoreKeepsSends(w: World, u: World)
    requires SendsOk(w) && R.RowsLater(w.db, u.db) && u.executors == w.executors && u.flights == w.flights
    ensures SendsOk(u)
  {
  }

  lemma StartKeepsSends(w: World, token: nat, id: nat, mode: Mode)
    requires SendsOk(w) && R.RowsLater(w.db, Next(w, Start(token, id, mode)).db)
    ensures SendsOk(Next(w, Start(token, id, mode)))
  {
    hide R.RowsLater, R.Perform, R.Commits, OneCommitted;
    var u := Next(w, Start(token, id, mode));
    StoreKeepsSends(w, w.(db := u.db, cleared := u.cleared));
    if MayClaim(w, token, id, mode) {
      assert u.executors == w.executors[token := u.executors[token]];
      StartedKeepsSends(w.(db := u.db, cleared := u.cleared), u, token);
    }
  }

  lemma StartedKeepsSends(w: World, u: World, token: nat)
    requires SendsOk(w) && token !in w.executors && token in u.executors
    requires u == w.(executors := w.executors[token := u.executors[token]])
    requires !u.executors[token].committed && u.executors[token].pc == Claimed
    ensures SendsOk(u)
  {
    assert token !in w.flights;
  }

  /** Whoever arms finds the row prepared, so nobody is committed to this execution yet. */
  lemma ArmKeepsSends(w: World, token: nat, granted: bool)
    requires SendsOk(w) && Arming(w, token, granted)
    requires R.RowsLater(w.db, R.Perform(w.db, R.BeforeChange(w.executors[token].execution, token)).db)
    ensures SendsOk(Next(w, Before(token, granted)))
  {
    hide R.RowsLater, R.Perform, R.Commits, MayWork, NextCall, SecretsReadable;
    var u := Next(w, Before(token, granted));
    ArmedRow(w, token, granted);
    StoreKeepsSends(w, w.(db := u.db));
    ArmedKeepsSends(w, u, token);
  }

  lemma ArmedKeepsSends(w: World, u: World, token: nat)
    requires SendsOk(w) && SendsOk(w.(db := u.db)) && Is(w, token, Ready)
    requires u == w.(db := u.db, executors := w.executors[token := w.executors[token].(pc := Armed, committed := true)])
    requires var id := w.executors[token].execution;
      id in w.db.executions && w.db.executions[id].state == Prepared && id in u.db.executions && u.db.executions[id].state != Prepared
    ensures SendsOk(u)
  {
    assert token !in w.flights;
  }

  lemma ArmedRow(w: World, token: nat, granted: bool)
    requires Arming(w, token, granted)
    ensures var id := w.executors[token].execution;
      && id in w.db.executions && w.db.executions[id].state == Prepared
      && id in Next(w, Before(token, granted)).db.executions && Next(w, Before(token, granted)).db.executions[id].state == Changing
  {
  }

  lemma BeforeKeepsSends(w: World, token: nat, granted: bool)
    requires SendsOk(w) && V.VaultOk(w.db)
    ensures SendsOk(Next(w, Before(token, granted)))
  {
    if Is(w, token, Ready) {
      var call := R.BeforeChange(w.executors[token].execution, token);
      if Arming(w, token, granted) {
        R.CallMovesRowsForward(w.db, call);
        ArmKeepsSends(w, token, granted);
      } else {
        assert Next(w, Before(token, granted)) == At(w, token, Unsent);
        MoveKeepsSends(w, token, Unsent);
      }
    }
  }

  lemma RecordKeepsSends(w: World, token: nat, code: string)
    requires SendsOk(w) && V.VaultOk(w.db)
    ensures SendsOk(Next(w, Record(token, code)))
  {
    hide V.VaultOk, R.Perform, R.Commits, R.RowsLater, OneCommitted, SendsOk;
    if token in w.executors && NextCall(w.executors[token], token, code).Some? {
      var call := NextCall(w.executors[token], token, code).value;
      var u := w.(db := R.Perform(w.db, call).db);
      R.CallMovesRowsForward(w.db, call);
      StoreKeepsSends(w, u);
      MoveKeepsSends(u, token, AfterCall(w.executors[token], R.Commits(w.db, call)));
    }
  }

  lemma MoveKeepsSends(w: World, t: nat, pc: Pc)
    requires SendsOk(w) && t in w.executors && pc !in {Claimed, Armed}
    requires BeforeSending(pc) ==> t !in w.flights && (w.executors[t].committed ==> pc == Unsent)
    ensures SendsOk(At(w, t, pc))
  {
  }

  predicate LocalEvent(e: Event) {
    e.Authorize? || e.Read? || e.GiveUp? || e.Reply? || e.Verify?
  }

  /** A move of one executor that arms nothing and never goes back before the send. */
  predicate Harmless(pc: Pc, next: Pc) {
    && next !in {Claimed, Armed}
    && (BeforeSending(next) ==> BeforeSending(pc) && (next == Unsent || pc in {Claimed, Authorized}))
  }

  lemma LocalEventMoves(w: World, e: Event)
    requires LocalEvent(e)
    ensures var u := Next(w, e);
      || u == w
      || (&& e.token in w.executors && e.token in u.executors && u == At(w, e.token, u.executors[e.token].pc)
          && Harmless(w.executors[e.token].pc, u.executors[e.token].pc))
  {
    hide SecretsReadable, R.Perform, R.Commits, NextCall, AfterCall, Granted, MayClaim, MayWork;
  }

  lemma LocalKeepsSends(w: World, e: Event)
    requires SendsOk(w) && LocalEvent(e)
    ensures SendsOk(Next(w, e))
  {
    hide Next, OneCommitted;
    var u := Next(w, e);
    LocalEventMoves(w, e);
    if u != w { MoveKeepsSends(w, e.token, u.executors[e.token].pc); }
  }

  lemma ClearingKeepsSends(w: World, u: World)
    requires SendsOk(w) && u == w.(cleared := u.cleared)
    ensures SendsOk(u)
  {
  }

  lemma CrashKeepsSends(w: World, token: nat)
    requires SendsOk(w)
    ensures SendsOk(Next(w, Crash(token)))
  {
    hide OneCommitted, R.Perform, R.Commits, MayWork, NextCall, SecretsReadable;
    var left := w.(cleared := w.cleared - {token});
    ClearingKeepsSends(w, left);
    if token in w.executors { MoveKeepsSends(left, token, Stopped); }
  }

  lemma NetworkKeepsSends(w: World, e: Event)
    requires SendsOk(w) && (e.Send? || e.Deliver? || e.Lose?)
    ensures SendsOk(Next(w, e))
  {
    hide R.Perform, R.Commits, MayWork, MayClaim, Granted, NextCall, AfterCall, SecretsReadable, OutsideCall, RemoteAfter;
  }

  lemma NextKeepsSends(w: World, e: Event)
    requires SendsOk(w) && V.VaultOk(w.db)
    ensures SendsOk(Next(w, e))
  {
    hide V.VaultOk, SendsOk, R.Perform, R.Commits, MayClaim, Granted, NextCall, AfterCall, SecretsReadable;
    if e.Outside? {
      R.CallMovesRowsForward(w.db, e.call);
      StoreKeepsSends(w, Next(w, e));
    } else if e.Clear? {
      ClearingKeepsSends(w, Next(w, e));
    } else if e.Start? {
      R.CallMovesRowsForward(w.db, R.Claim(e.execution, e.token, e.mode != Change));
      StartKeepsSends(w, e.token, e.execution, e.mode);
    } else if e.Before? {
      BeforeKeepsSends(w, e.token, e.granted);
    } else if e.Record? {
      RecordKeepsSends(w, e.token, e.code);
    } else if e.Send? || e.Deliver? || e.Lose? {
      NetworkKeepsSends(w, e);
    } else if e.Crash? {
      CrashKeepsSends(w, e.token);
    } else {
      LocalKeepsSends(w, e);
    }
  }

  lemma {:induction false} RunKeepsSends(w: World, events: seq<Event>)
    requires SendsOk(w) && V.VaultOk(w.db)
    ensures SendsOk(Run(w, events)) && V.VaultOk(Run(w, events).db)
    decreases |events|
  {
    if events != [] {
      var n := |events| - 1;
      RunKeepsSends(w, events[..n]);
      NextKeepsSends(Run(w, events[..n]), events[n]);
      NextKeepsVault(Run(w, events[..n]), events[n]);
    }
  }

  /** At most one mutation per execution ever leaves, whoever claims it and however often, even if every result
   code lies: two flights of one execution are the same flight. */
  lemma AtMostOneSendEver(w: World, events: seq<Event>, s: nat, t: nat)
    requires V.VaultOk(w.db) && w.executors == map[] && w.flights == map[]
    requires var u := Run(w, events);
      s in u.flights && t in u.flights && s in u.executors && t in u.executors && u.executors[s].execution == u.executors[t].execution
    ensures s == t
  {
    RunKeepsSends(w, events);
  }

  /** Once an execution is closed nothing of it can reach the remote system any more. */
  lemma {:induction false} ClosedExecutionsAreQuiet(w: World, events: seq<Event>, id: nat)
    requires Initial(w) && AssumedThroughout(w, events)
    requires id in Run(w, events).db.executions && Run(w, events).db.executions[id].activeAccount.None?
    ensures RemoteStopped(Run(w, events), id)
  {
    InitialIsOk(w);
    RunKeeps(w, events);
    assert RowOk(Run(w, events), id);
  }
}
