/** The executor as the program it is: RunPAMExecution with the two platform executors behind its change callback, and
 preservePAMOriginal. Everything else that can happen goes on between any two of its steps. Each step is proved to be
 one step of the protocol, so every theorem about runs of the protocol is one about these programs. */
module ExecutorProgram {
  import opened Basics
  import opened Tables
  import C = CredentialSpec
  import E = ExecutionSpec
  import V = VaultInvariant
  import R = VaultRuns
  import N = NoLockOutTheorem
  import I = ProtocolInvariant
  import opened PasswordProtocol
  import opened ExecutionRepository
  import opened PlatformResults
  import opened Undisturbed

  // ---- The store, the executors' positions and the network, as one mutable world ----

  class Cluster {
    const store: PamStore
    var remote: map<Owner, Material>
    var executors: map<nat, Executor>
    var flights: map<nat, Flight>
    var cleared: map<nat, Clearance>
    ghost const start: World
    ghost var history: seq<Event>

    ghost function State(): World
      reads this, store
    {
      World(store.Contents(), remote, executors, flights, cleared)
    }

    /** The present state is the protocol's run of everything that has happened. */
    ghost predicate Valid()
      reads this, store
    {
      store.Valid() && State() == Run(start, history)
    }

    constructor (store: PamStore, remote: map<Owner, Material>)
      requires store.Valid()
      ensures Valid() && this.store == store && history == [] && executors == map[] && flights == map[] && this.remote == remote
      ensures cleared == map[]
    {
      this.store, this.remote, executors, flights, cleared := store, remote, map[], map[], map[];
      history := [];
      start := World(store.Contents(), remote, map[], map[], map[]);
    }

    ghost method Happened(e: Event)
      requires store.Valid() && State() == Next(Run(start, history), e)
      modifies this`history
      ensures Valid() && history == old(history) + [e]
    {
      hide V.VaultOk, Run, Next;
      OneMore(start, history, e);
      history := history + [e];
    }

    method MoveTo(token: nat, pc: Pc)
      requires token in executors
      modifies this`executors
      ensures executors == old(executors)[token := old(executors)[token].(pc := pc)]
    {
      executors := executors[token := executors[token].(pc := pc)];
    }

    // ---- The steps of an executor ----

    /** The authorisation before the claim. */
    method Clear(token: nat, id: nat, mode: Mode, granted: bool) returns (ok: bool)
      requires Valid() && token != 0 && token !in executors && token !in cleared && id in store.executions
      modifies this`cleared, this`history
      ensures Valid() && history == old(history) + [Event.Clear(token, id, mode, granted)]
      ensures ok <==> granted && MayWork(store.Contents(), id, mode)
      ensures cleared == if ok then old(cleared)[token := Clearance(id, mode)] else old(cleared)
    {
      hide V.VaultOk, Run;
      ok := store.CheckWork(id, mode != Mode.Change);
      ok := ok && granted;
      if ok { cleared := cleared[token := Clearance(id, mode)]; }
      Happened(Event.Clear(token, id, mode, granted));
    }

    method Claim(token: nat, id: nat, mode: Mode) returns (ok: bool)
      requires Valid() && token !in executors && token in cleared && cleared[token] == Clearance(id, mode)
      modifies this, store
      ensures cleared == old(cleared) - {token}
      ensures Valid() && history == old(history) + [Start(token, id, mode)]
      ensures ok <==> R.Commits(old(store.Contents()), R.Claim(id, token, mode != Mode.Change))
      ensures store.Contents() == R.Perform(old(store.Contents()), R.Claim(id, token, mode != Mode.Change)).db
      ensures ok ==> id in store.executions
      ensures ok ==> executors == old(executors)[token := Executor(id, mode, store.executions[id].state == Prepared, false, Claimed)]
      ensures !ok ==> executors == old(executors)
      ensures flights == old(flights)
      ensures ok ==> (executors[token].fromPrepared <==> mode == Mode.Change)
      ensures old(store.executions.Keys) <= store.executions.Keys
    {
      hide V.VaultOk, Run;
      var reply := store.Claim(id, token, mode != Mode.Change);
      ok := reply.Ok?;
      cleared := cleared - {token};
      if ok {
        executors := executors[token := Executor(id, mode, store.executions[id].state == Prepared, false, Claimed)];
      }
      Happened(Start(token, id, mode));
    }

    method Authorize(token: nat, granted: bool) returns (ok: bool)
      requires Valid() && token in executors && executors[token].pc == Claimed
      modifies this`executors, this`history
      ensures Valid() && history == old(history) + [Event.Authorize(token, granted)]
      ensures ok <==> Granted(old(State()), token, granted)
      ensures executors == old(executors)[token := old(executors)[token].(pc :=
        if ok then Authorized else if old(executors)[token].fromPrepared then Unsent else Stopped)]
    {
      hide V.VaultOk, Run;
      ok := CheckGrant(token, granted);
      MoveTo(token, if ok then Authorized else if executors[token].fromPrepared then Unsent else Stopped);
      Happened(Event.Authorize(token, granted));
    }

    /** The authorisation callback: the tables' part and the others'. */
    method CheckGrant(token: nat, granted: bool) returns (ok: bool)
      requires token in executors
      ensures ok <==> Granted(State(), token, granted)
    {
      ok := false;
      if granted && executors[token].execution in store.executions {
        ok := store.CheckWork(executors[token].execution, executors[token].mode != Mode.Change);
      }
    }

    /** ReadCandidate, and ReadActive of the previous version where the executor needs it. */
    method ReadSecrets(token: nat) returns (readable: bool)
      requires Valid() && token in executors && executors[token].pc == Authorized && executors[token].execution in store.executions
      modifies this`executors, this`history
      ensures Valid() && history == old(history) + [Read(token)]
      ensures readable <==> SecretsReadable(store.Contents(), store.executions[old(executors)[token].execution], old(executors)[token])
      ensures executors == old(executors)[token := old(executors)[token].(pc :=
        if !readable then Stopped else if old(executors)[token].fromPrepared then Ready else Pc.Verifying)]
      ensures flights == old(flights)
    {
      hide V.VaultOk, Run;
      var x := executors[token];
      readable := SecretsReadable(Db(store.owners, store.versions, store.bindings, store.assets, store.executions, store.audits, store.now),
                                  store.executions[x.execution], x);
      MoveTo(token, if !readable then Stopped else if x.fromPrepared then Ready else Pc.Verifying);
      Happened(Read(token));
    }

    method GivesUp(token: nat)
      requires Valid() && token in executors && (executors[token].pc == Ready || executors[token].pc == Armed)
      modifies this`executors, this`history
      ensures Valid() && history == old(history) + [GiveUp(token)]
      ensures executors == old(executors)[token := old(executors)[token].(pc := Unsent)]
      ensures flights == old(flights)
    {
      hide V.VaultOk, Run;
      MoveTo(token, Unsent);
      Happened(GiveUp(token));
    }

    /** The before-change callback: authorisation again, then the durable record. */
    method BeforeChange(token: nat, granted: bool) returns (ok: bool)
      requires Valid() && token in executors && executors[token].pc == Ready
      modifies this`executors, this`history, store
      ensures Valid() && history == old(history) + [Before(token, granted)]
      ensures ok <==> (&& Granted(old(State()), token, granted)
                       && R.Commits(old(store.Contents()), R.BeforeChange(old(executors)[token].execution, token)))
      ensures store.Contents() == if ok
        then R.Perform(old(store.Contents()), R.BeforeChange(old(executors)[token].execution, token)).db else old(store.Contents())
      ensures ok ==> executors == old(executors)[token := old(executors)[token].(pc := Armed, committed := true)]
      ensures !ok ==> executors == old(executors)[token := old(executors)[token].(pc := Unsent)]
      ensures flights == old(flights)
      ensures old(store.executions.Keys) <= store.executions.Keys
    {
      hide V.VaultOk, Run;
      ok := CheckGrant(token, granted);
      if ok {
        var reply := store.BeforeChange(executors[token].execution, token);
        ok := reply.Ok?;
      }
      if ok {
        executors := executors[token := executors[token].(pc := Armed, committed := true)];
      } else {
        MoveTo(token, Unsent);
      }
      Happened(Before(token, granted));
    }

    method SendMutation(token: nat)
      requires Valid() && token in executors && executors[token].pc == Armed
      modifies this`executors, this`flights, this`history
      ensures Valid() && history == old(history) + [Send(token)]
      ensures executors == old(executors)[token := old(executors)[token].(pc := Sent)]
      ensures flights == old(flights)[token := InFlight]
    {
      hide V.VaultOk, Run;
      MoveTo(token, Sent);
      flights := flights[token := InFlight];
      Happened(Send(token));
    }

    method TakeReply(token: nat, answer: Answer)
      requires Valid() && token in executors && executors[token].pc == Sent
      modifies this`executors, this`history
      ensures Valid() && history == old(history) + [Reply(token, answer)]
      ensures executors == old(executors)[token := old(executors)[token].(pc :=
        if answer == ConfirmedUnchanged then Rejected else Replied(answer == Answer.Changed))]
      ensures flights == old(flights)
    {
      hide V.VaultOk, Run;
      MoveTo(token, if answer == ConfirmedUnchanged then Rejected else Replied(answer == Answer.Changed));
      Happened(Reply(token, answer));
    }

    method TakeVerification(token: nat, accepted: bool)
      requires Valid() && token in executors && executors[token].pc == Pc.Verifying
      modifies this`executors, this`history
      ensures Valid() && history == old(history) + [Verify(token, accepted)]
      ensures executors == old(executors)[token := old(executors)[token].(pc := Seen(accepted))]
      ensures flights == old(flights)
    {
      hide V.VaultOk, Run;
      MoveTo(token, Seen(accepted));
      Happened(Verify(token, accepted));
    }

    /** A store call of an executor: it must be the one the protocol has it make here. */
    method Save(token: nat, call: R.Call, code: string) returns (ok: bool)
      requires Valid() && token in executors && NextCall(executors[token], token, code) == Some(call)
      modifies this`executors, this`history, store
      ensures Valid() && history == old(history) + [Record(token, code)]
      ensures executors == old(executors)[token := old(executors)[token].(pc := AfterCall(old(executors)[token], ok))]
      ensures ok <==> R.Commits(old(store.Contents()), call)
      ensures store.Contents() == R.Perform(old(store.Contents()), call).db
      ensures flights == old(flights)
      ensures old(store.executions.Keys) <= store.executions.Keys
    {
      hide V.VaultOk, Run, R.Perform;
      var reply := store.Perform(call);
      ok := reply.Ok?;
      MoveTo(token, AfterCall(executors[token], ok));
      Happened(Record(token, code));
    }

    // ---- Everything else ----

    /** A call of another writer, or none if executors make it. */
    method OtherCall(call: R.Call)
      requires Valid()
      modifies this`remote, this`history, store
      ensures Valid() && history == old(history) + [Outside(call)]
      ensures old(store.executions.Keys) <= store.executions.Keys
    {
      hide V.VaultOk, Run, R.Perform;
      if OutsideCall(call) {
        var reply := store.Perform(call);
        if reply.Ok? {
          if call.CreateOwner? { remote := remote[call.who := call.secret]; }
          if call.UpdateCredential? && call.edit.secret.Some? { remote := remote[call.who := call.edit.secret.value]; }
        }
      }
      Happened(Outside(call));
    }

    /** The network delivers what was sent, or loses it. */
    method Network(e: Event)
      requires Valid() && (e.Deliver? || e.Lose?)
      modifies this`remote, this`flights, this`history
      ensures Valid() && history == old(history) + [e]
      ensures flights.Keys == old(flights).Keys
    {
      hide V.VaultOk, Run, R.Perform, R.Commits, MayWork, MayClaim, Granted, NextCall, AfterCall, SecretsReadable,
           OutsideCall, RemoteAfter;
      var token := e.token;
      if token in flights && flights[token] == InFlight {
        if e.Lose? {
          flights := flights[token := Gone];
        } else if token in executors && executors[token].execution in store.executions
                  && store.executions[executors[token].execution].candidate in store.versions {
          var row := store.executions[executors[token].execution];
          flights := flights[token := Applied];
          remote := remote[Account(row.account) := store.versions[row.candidate].secret];
        }
      }
      Happened(e);
    }

    method Crashes(token: nat)
      requires Valid()
      modifies this`executors, this`cleared, this`history
      ensures Valid() && history == old(history) + [Crash(token)]
      ensures cleared == old(cleared) - {token}
      ensures executors == if token in old(executors) then old(executors)[token := old(executors)[token].(pc := Stopped)] else old(executors)
    {
      hide V.VaultOk, Run;
      cleared := cleared - {token};
      if token in executors { MoveTo(token, Stopped); }
      Happened(Crash(token));
    }

    /** The events before an executor holds a claim. */
    method Begin(e: Event)
      requires Valid() && (e.Clear? || e.Start?)
      modifies this, store
      ensures Valid() && history == old(history) + [e]
      ensures OthersSpared(e, old(executors), executors, old(cleared), cleared)
      ensures forall t :: !Drives(e, t) ==> (t in flights <==> t in old(flights))
      ensures old(store.executions.Keys) <= store.executions.Keys
    {
      hide V.VaultOk, Run, R.Perform, SecretsReadable, R.Commits;
      match e {
        case Clear(token, id, mode, granted) =>
          if token != 0 && token !in executors && token !in cleared && id in store.executions {
            var _ := Clear(token, id, mode, granted);
          } else {
            Skip(e);
          }
        case Start(token, id, mode) =>
          if token in cleared && cleared[token] == Clearance(id, mode) {
            if token in executors { Forget(e); } else { var _ := Claim(token, id, mode); }
          } else {
            Skip(e);
          }
      }
    }

    /** The events from the mutation on. */
    method Progress(e: Event)
      requires Valid() && (e.Send? || e.Reply? || e.Verify? || e.Record?)
      modifies this, store
      ensures Valid() && history == old(history) + [e]
      ensures OthersSpared(e, old(executors), executors, old(cleared), cleared)
      ensures forall t :: !Drives(e, t) ==> (t in flights <==> t in old(flights))
      ensures old(store.executions.Keys) <= store.executions.Keys
    {
      hide V.VaultOk, Run, R.Perform, SecretsReadable, R.Commits, MayWork, MayClaim, Granted, AfterCall, OutsideCall,
           RemoteAfter, NextCall, T.MayWork, E.HoldsLease, OthersSpared;
      NobodyMoved(e, executors, cleared);
      match e {
        case Send(token) =>
          if At(token, Armed) {
            SendMutation(token);
            OnlyMoved(e, token, old(executors), executors, cleared);
          } else {
            Skip(e);
          }
        case Reply(token, answer) =>
          if At(token, Sent) {
            TakeReply(token, answer);
            OnlyMoved(e, token, old(executors), executors, cleared);
          } else {
            Skip(e);
          }
        case Verify(token, accepted) =>
          if At(token, Pc.Verifying) {
            TakeVerification(token, accepted);
            OnlyMoved(e, token, old(executors), executors, cleared);
          } else {
            Skip(e);
          }
        case Record(token, code) =>
          if token in executors && NextCall(executors[token], token, code).Some? {
            var _ := Save(token, NextCall(executors[token], token, code).value, code);
            OnlyMoved(e, token, old(executors), executors, cleared);
          } else {
            Skip(e);
          }
      }
    }

    /** One event of any kind, of any executor. An event that does not fit where that executor stands is no event. */
    method Step(e: Event)
      requires Valid()
      modifies this, store
      ensures Valid() && history == old(history) + [e]
      ensures OthersSpared(e, old(executors), executors, old(cleared), cleared)
      ensures forall t :: !Drives(e, t) ==> (t in flights <==> t in old(flights))
      ensures old(store.executions.Keys) <= store.executions.Keys
    {
      hide V.VaultOk, Run, R.Perform, SecretsReadable, R.Commits, MayWork, MayClaim, Granted, AfterCall, OutsideCall,
           RemoteAfter, NextCall, T.MayWork, E.HoldsLease;
      match e {
        case Clear(_, _, _, _) => Begin(e);
        case Start(_, _, _) => Begin(e);
        case Authorize(token, granted) =>
          if At(token, Claimed) { var _ := Authorize(token, granted); } else { Skip(e); }
        case Read(token) =>
          if At(token, Authorized) && executors[token].execution in store.executions { var _ := ReadSecrets(token); } else { Skip(e); }
        case GiveUp(token) =>
          if At(token, Ready) || At(token, Armed) { GivesUp(token); } else { Skip(e); }
        case Before(token, granted) =>
          if At(token, Ready) { var _ := BeforeChange(token, granted); } else { Skip(e); }
        case Outside(call) => OtherCall(call);
        case Crash(token) => Crashes(token);
        case Deliver(_) => Network(e);
        case Lose(_) => Network(e);
        case _ => Progress(e);
      }
    }

    /** A token nothing knows yet, as a new uuid is. */
    predicate IsNew(token: nat)
      reads this
    {
      token != 0 && token !in executors && token !in flights && token !in cleared
    }

    predicate At(token: nat, pc: Pc)
      reads this
    {
      token in executors && executors[token].pc == pc
    }

    /** A clearance of a token that has an executor already is void. */
    method Forget(e: Event)
      requires Valid() && e.Start? && e.token in executors && e.token in cleared && cleared[e.token] == Clearance(e.execution, e.mode)
      modifies this`cleared, this`history
      ensures Valid() && history == old(history) + [e] && cleared == old(cleared) - {e.token}
    {
      hide V.VaultOk, Run;
      cleared := cleared - {e.token};
      Happened(e);
    }

    ghost method Skip(e: Event)
      requires Valid() && Next(State(), e) == State()
      modifies this`history
      ensures Valid() && history == old(history) + [e]
    {
      Happened(e);
    }

    /** Any events of the others, in the gap between two steps of one executor. */
    method Interleave(others: seq<Event>, token: nat)
      requires Valid() && Spares(others, token)
      modifies this, store
      ensures Valid() && history == old(history) + others
      ensures token in old(executors) ==> token in executors && executors[token] == old(executors)[token]
      ensures token !in old(executors) ==> token !in executors
      ensures token in flights <==> token in old(flights)
      ensures SameClearance(old(cleared), cleared, token)
      ensures old(store.executions.Keys) <= store.executions.Keys
    {
      for i := 0 to |others|
        invariant Valid() && history == old(history) + others[..i]
        invariant token in old(executors) ==> token in executors && executors[token] == old(executors)[token]
        invariant token !in old(executors) ==> token !in executors
        invariant token in flights <==> token in old(flights)
        invariant SameClearance(old(cleared), cleared, token)
        invariant old(store.executions.Keys) <= store.executions.Keys
      {
        Step(others[i]);
        assert others[..i + 1] == others[..i] + [others[i]];
      }
      assert others[..|others|] == others;
    }
  }

  predicate SameClearance(before: map<nat, Clearance>, after: map<nat, Clearance>, token: nat) {
    (token in after <==> token in before) && (token in before ==> after[token] == before[token])
  }

  /** An event moves only the executor it is about. */
  ghost predicate OthersSpared(e: Event, before: map<nat, Executor>, after: map<nat, Executor>,
                               cleared: map<nat, Clearance>, clearedAfter: map<nat, Clearance>) {
    forall t :: !Drives(e, t) ==>
      && (t in after <==> t in before) && (t in before ==> after[t] == before[t])
      && SameClearance(cleared, clearedAfter, t)
  }

  lemma OnlyMoved(e: Event, token: nat, before: map<nat, Executor>, after: map<nat, Executor>, cleared: map<nat, Clearance>)
    requires Drives(e, token) && token in after && after == before[token := after[token]]
    ensures OthersSpared(e, before, after, cleared, cleared)
  {
  }

  lemma NobodyMoved(e: Event, executors: map<nat, Executor>, cleared: map<nat, Clearance>)
    ensures OthersSpared(e, executors, executors, cleared, cleared)
  {
  }

  // ---- The change callback ----

  datatype Server = MariaDB | MySQL8 | OtherServer

  /** What a MySQL session does, and what goes on meanwhile: before the callback, after it, and after the statement. */
  datatype MySQLSession = MySQLSession(unsuitable: bool, connect: Option<Failure>, query: Option<Failure>, principalMatches: bool,
    server: Server, expired: bool, granted: bool, expiredArmed: bool, execution: Option<Failure>,
    before: seq<Event>, armed: seq<Event>, sent: seq<Event>)

  datatype LinuxSession = LinuxSession(unsuitable: bool, connect: Option<Failure>, inspect: Code, userMatches: bool, useSudo: bool, isRoot: bool,
    preflight: Code, session: Option<Failure>, expired: bool, granted: bool, expiredArmed: bool, execution: Option<Failure>,
    before: seq<Event>, armed: seq<Event>, sent: seq<Event>)

  datatype Platform = NoActor(code: Code) | MySQL(mysql: MySQLSession) | Linux(linux: LinuxSession)

  /** A code pamLinuxInspect and pamLinuxPreflight can return. */
  predicate Reported(code: Code) {
    code != NoCode && code != Code.Changed
  }

  predicate PlatformSpares(p: Platform, token: nat) {
    match p
    case NoActor(code) => code == PermissionDenied || code == Unreachable || code == InvalidInput
    case MySQL(m) => Spares(m.before, token) && Spares(m.armed, token) && Spares(m.sent, token)
    case Linux(l) =>
      && Spares(l.before, token) && Spares(l.armed, token) && Spares(l.sent, token)
      && Reported(l.inspect) && Reported(l.preflight)
  }

  /** Where the protocol has an executor whose change callback reported this result. */
  function Landing(result: Result): Pc {
    if !result.attempted then Unsent
    else if result.confirmedUnchanged then Rejected
    else Replied(result.code == Code.Changed)
  }

  function AnswerOf(result: Result): Answer {
    if result.confirmedUnchanged then ConfirmedUnchanged
    else if result.code == Code.Changed then Answer.Changed
    else Uncertain
  }

  // ---- What the callback reports while nobody disturbs the execution ----

  /** The end of a session that is ready: the deadline may pass before or after the record, or the callback be refused. */
  function LastSteps(expired: bool, granted: bool, expiredArmed: bool, reply: Result): Result {
    var refusal := Refusal(expired, granted, expiredArmed);
    if refusal.Some? then refusal.value else reply
  }

  function Refusal(expired: bool, granted: bool, expiredArmed: bool): Option<Result> {
    if expired then Some(NotSent(Unreachable))
    else if !granted then Some(NotSent(PermissionDenied))
    else if expiredArmed then Some(NotSent(Unreachable))
    else None
  }

  function MySQLReport(candidate: Material, s: MySQLSession): Result {
    if !candidate.Password? || candidate.text == 0 || s.unsuitable then NotSent(InvalidInput)
    else if s.connect.Some? then MySQLFailure(s.connect.value, false)
    else if s.query.Some? then MySQLFailure(s.query.value, false)
    else if !s.principalMatches then NotSent(Identity)
    else if s.server == OtherServer then NotSent(Unsupported)
    else
      LastSteps(s.expired, s.granted, s.expiredArmed,
            if s.execution.Some? then MySQLFailure(s.execution.value, true) else Result(Code.Changed, true, false))
  }

  function LinuxReport(candidate: Material, s: LinuxSession): Result {
    if !candidate.Password? || candidate.text == 0 || s.unsuitable then NotSent(InvalidInput)
    else if s.connect.Some? then SSHFailure(s.connect.value, false)
    else if s.inspect != Code.Verified then NotSent(s.inspect)
    else if !s.userMatches then NotSent(Identity)
    else if !s.useSudo && !s.isRoot then NotSent(PermissionDenied)
    else if s.preflight != Code.Verified then NotSent(s.preflight)
    else if s.session.Some? then SSHFailure(s.session.value, false)
    else
      LastSteps(s.expired, s.granted, s.expiredArmed,
            if s.execution.Some? then SSHFailure(s.execution.value, true) else Result(Code.Changed, true, false))
  }

  function Report(platform: Platform, candidate: Material): Result {
    match platform
    case NoActor(code) => NotSent(code)
    case MySQL(s) => MySQLReport(candidate, s)
    case Linux(s) => LinuxReport(candidate, s)
  }

  /** A session in which everything goes well: connected, the right identity on a supported system, permitted, in time, and
   the statement or command accepted. */
  predicate GoesWell(platform: Platform, candidate: Material) {
    && candidate.Password? && candidate.text != 0
    && match platform
       case NoActor(_) => false
       case MySQL(s) =>
         && !s.unsuitable && s.connect.None? && s.query.None? && s.principalMatches && s.server != OtherServer
         && !s.expired && s.granted && !s.expiredArmed && s.execution.None?
       case Linux(s) =>
         && !s.unsuitable && s.connect.None? && s.inspect == Code.Verified && s.userMatches && (s.useSudo || s.isRoot)
         && s.preflight == Code.Verified && s.session.None?
         && !s.expired && s.granted && !s.expiredArmed && s.execution.None?
  }

  lemma ChangedExactly(platform: Platform, candidate: Material, token: nat)
    requires PlatformSpares(platform, token)
    ensures Report(platform, candidate).code == Code.Changed <==> GoesWell(platform, candidate)
    ensures GoesWell(platform, candidate) ==> Report(platform, candidate) == Result(Code.Changed, true, false)
  {
  }

  /** This executor is alone with the execution since event `from`, and its lease has not run out. */
  ghost predicate Unhindered(cluster: Cluster, from: nat, token: nat, id: nat, until: int)
    reads cluster, cluster.store
  {
    Alone(cluster.start, cluster.history, from, token, id) && cluster.store.now < until
  }

  /** It holds the prepared row, and the tables still let it change the password. */
  ghost predicate MayChange(db: Db, id: nat, token: nat, x: Executor) {
    Leased(db, id, token, Prepared) && MayWork(db, id, Mode.Change) && x.execution == id && x.mode == Mode.Change
  }

  /** The same case under the same lease: recorded as begun, or still as prepared if nothing was attempted. */
  ghost predicate Tried(db: Db, after: Db, id: nat, token: nat, attempted: bool) {
    && SameCase(db, after, id) && Until(after, id) == Until(db, id)
    && (Leased(after, id, token, Changing) || (!attempted && Leased(after, id, token, Prepared)))
  }

  /** The last three steps of both platform executors: the callback, the mutation, its reply. */
  method ArmAndSend(cluster: Cluster, token: nat, expired: bool, granted: bool, expiredArmed: bool, reply: Result,
                    before: seq<Event>, armed: seq<Event>, sent: seq<Event>) returns (result: Result)
    requires cluster.Valid() && cluster.At(token, Ready) && token !in cluster.flights
    requires Spares(before, token) && Spares(armed, token) && Spares(sent, token)
    requires reply.attempted && reply.code != NoCode && reply.code != Code.Verified
    modifies cluster, cluster.store
    ensures ChangeDone(cluster, token, result)
    ensures cluster.executors[token] == old(cluster.executors[token]).(pc := Landing(result), committed := cluster.executors[token].committed)
    ensures token in cluster.flights <==> result.attempted
    ensures result.attempted ==> result == reply && cluster.executors[token].committed
    ensures !result.attempted ==> result == NotSent(Unreachable) || result == NotSent(PermissionDenied)
    ensures old(cluster.history) <= cluster.history
    ensures var id, db := old(cluster.executors[token]).execution, old(cluster.store.Contents());
      Unhindered(cluster, |old(cluster.history)|, token, id, Until(db, id)) && MayChange(db, id, token, old(cluster.executors[token])) ==>
        result == LastSteps(expired, granted, expiredArmed, reply) && Tried(db, cluster.store.Contents(), id, token, result.attempted)
  {
    hide Run, Next, V.VaultOk, R.Perform, R.Commits, NextCall, AfterCall, SecretsReadable, MayWork, SameCase, Leased, Alone, Drives,
         Spares, StakeOf, C.Resolve;
    ghost var h0, db0, x := cluster.history, cluster.store.Contents(), cluster.executors[token];
    var refusal := Arm(cluster, token, expired, granted, expiredArmed, before, armed);
    if refusal.Some? { return refusal.value; }
    ghost var h3, db3 := cluster.history, cluster.store.Contents();
    Transmit(cluster, token, reply, sent);
    result := reply;
    if Unhindered(cluster, |h0|, token, x.execution, Until(db0, x.execution)) && MayChange(db0, x.execution, token, x) {
      EarlierUnhindered(cluster, h3, db3, |h0|, token, x.execution, Until(db0, x.execution));
      GapOfLease(cluster.start, h3 + [Send(token)], sent, cluster.history, |h0|, token, x.execution, Changing);
      SameCaseTwice(db0, db3, cluster.store.Contents(), x.execution);
    }
  }

  /** Who is unhindered in the end was so all along. */
  lemma EarlierUnhindered(cluster: Cluster, part: seq<Event>, earlier: Db, from: nat, token: nat, id: nat, until: int)
    requires cluster.Valid() && Unhindered(cluster, from, token, id, until) && part <= cluster.history && earlier == Run(cluster.start, part).db
    ensures Alone(cluster.start, part, from, token, id) && earlier.now < until
  {
    hide Run, V.VaultOk, Alone;
    AloneLater(cluster.start, cluster.history, part, from, from, token, id);
    RunForward(cluster.start, part, cluster.history);
  }

  /** The callback: why the mutation is not sent, if it is not. */
  method Arm(cluster: Cluster, token: nat, expired: bool, granted: bool, expiredArmed: bool, before: seq<Event>, armed: seq<Event>)
    returns (refusal: Option<Result>)
    requires cluster.Valid() && cluster.At(token, Ready) && token !in cluster.flights
    requires Spares(before, token) && Spares(armed, token)
    modifies cluster, cluster.store
    ensures cluster.Valid() && token !in cluster.flights && old(cluster.history) <= cluster.history
    ensures token in cluster.executors
    ensures refusal.None? ==> cluster.executors[token] == old(cluster.executors[token]).(pc := Armed, committed := true)
    ensures refusal.Some? ==>
      cluster.executors[token] == old(cluster.executors[token]).(pc := Unsent, committed := cluster.executors[token].committed)
    ensures refusal.Some? ==> refusal.value == NotSent(Unreachable) || refusal.value == NotSent(PermissionDenied)
    ensures var id, db := old(cluster.executors[token]).execution, old(cluster.store.Contents());
      Alone(cluster.start, cluster.history, |old(cluster.history)|, token, id) && cluster.store.now < Until(db, id)
      && MayChange(db, id, token, old(cluster.executors[token])) ==>
        && refusal == Refusal(expired, granted, expiredArmed)
        && Tried(db, cluster.store.Contents(), id, token, refusal.None?)
  {
    hide Run, Next, V.VaultOk, R.Perform, R.Commits, NextCall, AfterCall, SecretsReadable, MayWork, SameCase, Leased,
         Alone, Drives, Spares, StakeOf, C.Resolve, ChangeDone, OutsideCall, RemoteAfter;
    ghost var h0, x := cluster.history, cluster.executors[token];
    cluster.Interleave(before, token);
    ghost var h1 := cluster.history;
    if expired {
      cluster.GivesUp(token);
      refusal := Some(NotSent(Unreachable));
      if Alone(cluster.start, cluster.history, |h0|, token, x.execution) && MayChange(Run(cluster.start, h0).db, x.execution, token, x) {
        GapOfChange(cluster.start, h0, before, cluster.history, |h0|, token, x.execution, x);
      }
      return;
    }
    var ok := cluster.BeforeChange(token, granted);
    ghost var h2 := cluster.history;
    if !ok {
      refusal := Some(NotSent(PermissionDenied));
      if Alone(cluster.start, h2, |h0|, token, x.execution) && MayChange(Run(cluster.start, h0).db, x.execution, token, x)
         && cluster.store.now < Until(Run(cluster.start, h0).db, x.execution) {
        GapOfChange(cluster.start, h0, before, h2, |h0|, token, x.execution, x);
        BeforeGoes(Run(cluster.start, h1).db, x.execution, token);
      }
      return;
    }
    cluster.Interleave(armed, token);
    ghost var h3 := cluster.history;
    if expiredArmed { cluster.GivesUp(token); }
    refusal := if expiredArmed then Some(NotSent(Unreachable)) else None;
    if Alone(cluster.start, cluster.history, |h0|, token, x.execution) && MayChange(Run(cluster.start, h0).db, x.execution, token, x)
       && cluster.store.now < Until(Run(cluster.start, h0).db, x.execution) {
      GapOfChange(cluster.start, h0, before, cluster.history, |h0|, token, x.execution, x);
      BeforeGoes(Run(cluster.start, h1).db, x.execution, token);
      GapOfLease(cluster.start, h2, armed, cluster.history, |h0|, token, x.execution, Changing);
      SameCaseThrice(Run(cluster.start, h0).db, Run(cluster.start, h1).db, Run(cluster.start, h2).db, Run(cluster.start, h3).db, x.execution);
    }
  }

  lemma SameCaseThrice(a: Db, b: Db, c: Db, d: Db, id: nat)
    requires SameCase(a, b, id) && SameCase(b, c, id) && SameCase(c, d, id)
    ensures SameCase(a, d, id)
  {
    hide SameCase;
    SameCaseTwice(a, b, c, id);
    SameCaseTwice(a, c, d, id);
  }

  /** A gap before the callback leaves the executor able to go on. */
  lemma GapOfChange(start: World, history: seq<Event>, gap: seq<Event>, all: seq<Event>, from: nat, token: nat, id: nat, x: Executor)
    requires from <= |history| && history + gap <= all && Spares(gap, token) && Alone(start, all, from, token, id)
    requires V.VaultOk(Run(start, history).db) && MayChange(Run(start, history).db, id, token, x)
    ensures var db, after := Run(start, history).db, Run(start, history + gap).db;
      && SameCase(db, after, id) && Until(after, id) == Until(db, id) && MayChange(after, id, token, x)
      && after.now <= Run(start, all).db.now
  {
    hide Run, V.VaultOk, Alone, C.Resolve, MayWork;
    GapOfLease(start, history, gap, all, from, token, id, Prepared);
  }

  lemma GapOfLease(start: World, history: seq<Event>, gap: seq<Event>, all: seq<Event>, from: nat, token: nat, id: nat, state: ExecutionState)
    requires from <= |history| && history + gap <= all && Spares(gap, token) && Alone(start, all, from, token, id)
    requires V.VaultOk(Run(start, history).db) && Leased(Run(start, history).db, id, token, state)
    ensures var db, after := Run(start, history).db, Run(start, history + gap).db;
      && SameCase(db, after, id) && Until(after, id) == Until(db, id) && Leased(after, id, token, state)
      && after.now <= Run(start, all).db.now
  {
    hide Run, V.VaultOk, Alone, SameCase;
    GapKeeps(start, history, gap, all, from, token, id);
  }

  method Transmit(cluster: Cluster, token: nat, reply: Result, sent: seq<Event>)
    requires cluster.Valid() && cluster.At(token, Armed) && Spares(sent, token)
    requires reply.attempted && reply.code != NoCode && reply.code != Code.Verified
    modifies cluster, cluster.store
    ensures ChangeDone(cluster, token, reply) && token in cluster.flights
    ensures cluster.executors[token] == old(cluster.executors[token]).(pc := Landing(reply))
    ensures cluster.history == old(cluster.history) + [Send(token)] + sent + [Reply(token, AnswerOf(reply))]
    ensures old(cluster.store.Contents()) == Run(cluster.start, old(cluster.history) + [Send(token)]).db
    ensures cluster.store.Contents() == Run(cluster.start, old(cluster.history) + [Send(token)] + sent).db
  {
    hide Run, Next, V.VaultOk, R.Perform, R.Commits, NextCall, AfterCall, SecretsReadable;
    cluster.SendMutation(token);
    cluster.Interleave(sent, token);
    cluster.TakeReply(token, AnswerOf(reply));
  }

  /** What every change callback leaves behind, besides the position of the executor. */
  ghost predicate ChangeDone(cluster: Cluster, token: nat, result: Result)
    reads cluster, cluster.store
  {
    && cluster.Valid() && token in cluster.executors && cluster.executors[token].pc == Landing(result)
    && result.code != NoCode && result.code != Code.Verified && (result.confirmedUnchanged ==> result.attempted)
    && (result.code == Code.Changed ==> result.attempted)
  }

  lemma SameCaseItself(db: Db, id: nat)
    requires id in db.executions
    ensures SameCase(db, db, id)
  {
  }

  /** PAMMySQLExecutor.Change: the statement is sent at most once, and only after the callback succeeded. */
  method MySQLChange(cluster: Cluster, token: nat, candidate: Material, s: MySQLSession) returns (result: Result)
    requires cluster.Valid() && cluster.At(token, Ready) && token !in cluster.flights
    requires Spares(s.before, token) && Spares(s.armed, token) && Spares(s.sent, token)
    modifies cluster, cluster.store
    ensures ChangeDone(cluster, token, result)
    ensures cluster.executors[token] == old(cluster.executors[token]).(pc := Landing(result), committed := cluster.executors[token].committed)
    ensures token in cluster.flights <==> result.attempted
    ensures result.code == Code.Changed ==> result.attempted && s.execution.None?
    ensures result.confirmedUnchanged ==> s.execution.Some? && s.execution.value.Database? && s.execution.value.number in REFUSALS
    ensures old(cluster.history) <= cluster.history
    ensures var id, db := old(cluster.executors[token]).execution, old(cluster.store.Contents());
      Unhindered(cluster, |old(cluster.history)|, token, id, Until(db, id)) && MayChange(db, id, token, old(cluster.executors[token])) ==>
        result == MySQLReport(candidate, s) && Tried(db, cluster.store.Contents(), id, token, result.attempted)
  {
    hide Alone, SameCase, MayWork, V.VaultOk, Run;
    result := MySQLPrepare(candidate, s);
    if result != EMPTY {
      GiveUpUnsent(cluster, token, result);
      return;
    }
    var reply := if s.execution.Some? then MySQLFailure(s.execution.value, true) else Result(Code.Changed, true, false);
    result := ArmAndSend(cluster, token, s.expired, s.granted, s.expiredArmed, reply, s.before, s.armed, s.sent);
  }

  /** The checks before the callback: empty when the session is ready for it. */
  method MySQLPrepare(candidate: Material, s: MySQLSession) returns (result: Result)
    ensures result == NotSent(result.code) && result.code != Code.Changed && result.code != Code.Verified
    ensures result != EMPTY ==> result == MySQLReport(candidate, s)
    ensures result == EMPTY ==> MySQLReport(candidate, s) == LastSteps(s.expired, s.granted, s.expiredArmed,
      if s.execution.Some? then MySQLFailure(s.execution.value, true) else Result(Code.Changed, true, false))
  {
    if !candidate.Password? || candidate.text == 0 || s.unsuitable { return NotSent(InvalidInput); }
    if s.connect.Some? { return MySQLFailure(s.connect.value, false); }
    if s.query.Some? { return MySQLFailure(s.query.value, false); }
    if !s.principalMatches { return NotSent(Identity); }
    if s.server == OtherServer { return NotSent(Unsupported); }
    result := EMPTY;
  }

  method GiveUpUnsent(cluster: Cluster, token: nat, result: Result)
    requires cluster.Valid() && cluster.At(token, Ready) && token !in cluster.flights
    requires result == NotSent(result.code) && result.code != NoCode && result.code != Code.Verified && result.code != Code.Changed
    modifies cluster
    ensures ChangeDone(cluster, token, result)
    ensures cluster.executors[token] == old(cluster.executors[token]).(pc := Unsent)
    ensures cluster.flights == old(cluster.flights) && cluster.history == old(cluster.history) + [GiveUp(token)]
    ensures var id, db := old(cluster.executors[token]).execution, old(cluster.store.Contents());
      MayChange(db, id, token, old(cluster.executors[token])) ==> Tried(db, cluster.store.Contents(), id, token, false)
  {
    hide SameCase, MayWork;
    cluster.GivesUp(token);
    ghost var id := old(cluster.executors[token]).execution;
    if id in cluster.store.executions { SameCaseItself(cluster.store.Contents(), id); }
  }

  /** PAMLinuxExecutor.Change: nothing it reports ever confirms that a sent command had no effect. */
  method LinuxChange(cluster: Cluster, token: nat, candidate: Material, s: LinuxSession) returns (result: Result)
    requires cluster.Valid() && cluster.At(token, Ready) && token !in cluster.flights && Reported(s.inspect) && Reported(s.preflight)
    requires Spares(s.before, token) && Spares(s.armed, token) && Spares(s.sent, token)
    modifies cluster, cluster.store
    ensures ChangeDone(cluster, token, result)
    ensures cluster.executors[token] == old(cluster.executors[token]).(pc := Landing(result), committed := cluster.executors[token].committed)
    ensures token in cluster.flights <==> result.attempted
    ensures result.attempted && s.execution.None? ==> result.code == Code.Changed
    ensures !result.confirmedUnchanged
    ensures old(cluster.history) <= cluster.history
    ensures var id, db := old(cluster.executors[token]).execution, old(cluster.store.Contents());
      Unhindered(cluster, |old(cluster.history)|, token, id, Until(db, id)) && MayChange(db, id, token, old(cluster.executors[token])) ==>
        result == LinuxReport(candidate, s) && Tried(db, cluster.store.Contents(), id, token, result.attempted)
  {
    hide Alone, SameCase, MayWork, V.VaultOk, Run;
    result := LinuxPrepare(candidate, s);
    if result != EMPTY {
      GiveUpUnsent(cluster, token, result);
      return;
    }
    var reply := if s.execution.Some? then SSHFailure(s.execution.value, true) else Result(Code.Changed, true, false);
    result := ArmAndSend(cluster, token, s.expired, s.granted, s.expiredArmed, reply, s.before, s.armed, s.sent);
  }

  method LinuxPrepare(candidate: Material, s: LinuxSession) returns (result: Result)
    requires Reported(s.inspect) && Reported(s.preflight)
    ensures result == NotSent(result.code) && result.code != Code.Changed && result.code != Code.Verified
    ensures result != EMPTY ==> result == LinuxReport(candidate, s)
    ensures result == EMPTY ==> LinuxReport(candidate, s) == LastSteps(s.expired, s.granted, s.expiredArmed,
      if s.execution.Some? then SSHFailure(s.execution.value, true) else Result(Code.Changed, true, false))
  {
    if !candidate.Password? || candidate.text == 0 || s.unsuitable { return NotSent(InvalidInput); }
    if s.connect.Some? { return SSHFailure(s.connect.value, false); }
    if s.inspect != Code.Verified { return NotSent(s.inspect); }
    if !s.userMatches { return NotSent(Identity); }
    if !s.useSudo && !s.isRoot { return NotSent(PermissionDenied); }
    if s.preflight != Code.Verified { return NotSent(s.preflight); }
    if s.session.Some? { return SSHFailure(s.session.value, false); }
    result := EMPTY;
  }

  method Change(cluster: Cluster, token: nat, candidate: Material, platform: Platform) returns (result: Result)
    requires cluster.Valid() && cluster.At(token, Ready) && token !in cluster.flights && PlatformSpares(platform, token)
    modifies cluster, cluster.store
    ensures ChangeDone(cluster, token, result)
    ensures cluster.executors[token] == old(cluster.executors[token]).(pc := Landing(result), committed := cluster.executors[token].committed)
    ensures token in cluster.flights <==> result.attempted
    ensures old(cluster.history) <= cluster.history
    ensures var id, db := old(cluster.executors[token]).execution, old(cluster.store.Contents());
      Unhindered(cluster, |old(cluster.history)|, token, id, Until(db, id)) && MayChange(db, id, token, old(cluster.executors[token])) ==>
        result == Report(platform, candidate) && Tried(db, cluster.store.Contents(), id, token, result.attempted)
  {
    hide Alone, SameCase, MayWork, V.VaultOk, Run, MySQLReport, LinuxReport;
    match platform {
      case NoActor(code) =>
        result := NotSent(code);
        GiveUpUnsent(cluster, token, result);
      case MySQL(s) => result := MySQLChange(cluster, token, candidate, s);
      case Linux(s) => result := LinuxChange(cluster, token, candidate, s);
    }
  }

  // ---- RunPAMExecution ----

  /** What the run meets: the two authorisations, the platform, the verification, and what goes on in its gaps. */
  datatype Surroundings = Surroundings(firstGrant: bool, secondGrant: bool, platform: Platform, verification: Code,
    atFirst: seq<Event>, claimed: seq<Event>, denied: seq<Event>, authorized: seq<Event>, answered: seq<Event>,
    toVerify: seq<Event>, verified: seq<Event>, recorded: seq<Event>)

  predicate SurroundingsSpare(s: Surroundings, token: nat) {
    && PlatformSpares(s.platform, token)
    && Spares(s.atFirst, token) && Spares(s.claimed, token) && Spares(s.denied, token) && Spares(s.authorized, token)
    && Spares(s.answered, token) && Spares(s.toVerify, token) && Spares(s.verified, token) && Spares(s.recorded, token)
  }

  /** No executor of this token any more, or one that has stopped. */
  predicate Finished(cluster: Cluster, token: nat)
    reads cluster
  {
    token in cluster.executors ==> cluster.executors[token].pc == Stopped
  }

  predicate IsCompleted(cluster: Cluster, id: nat)
    reads cluster.store
  {
    id in cluster.store.executions && cluster.store.executions[id].state == Completed
  }

  lemma PublishCompletes(db: Db, id: nat, token: nat)
    requires R.Commits(db, R.Publish(id, token))
    ensures var after := R.Perform(db, R.Publish(id, token)).db; id in after.executions && after.executions[id].state == Completed
  {
    hide C.PublishVersion;
  }

  // ---- What a run comes to while nobody else touches the execution ----

  lemma ClosedLater(a: Db, b: Db, c: Db, id: nat, code: string)
    requires SameCase(a, b, id) && ClosedWith(b, c, id, code)
    ensures ClosedWith(a, c, id, code)
  {
    hide MayWork, C.Resolve;
  }

  lemma PublishedLater(a: Db, b: Db, c: Db, id: nat)
    requires SameCase(a, b, id) && Published(b, c, id)
    ensures Published(a, c, id)
  {
    hide MayWork, C.Resolve;
  }

  lemma UnknownLater(a: Db, b: Db, c: Db, id: nat, code: string)
    requires SameCase(a, b, id) && LeftUnknown(b, c, id, code)
    ensures LeftUnknown(a, c, id, code)
  {
    hide SameCase;
    SameCaseTwice(a, b, c, id);
  }

  /** The candidate was accepted and is published, or was not and the row says so. */
  ghost predicate VerificationConcludes(db: Db, after: Db, id: nat, verification: Code, result: Result, failed: bool) {
    && result == NotSent(verification) && !failed
    && if verification == Code.Verified then Published(db, after, id) else LeftUnknown(db, after, id, "candidate_not_verified")
  }

  lemma VerificationLater(a: Db, b: Db, c: Db, id: nat, verification: Code, result: Result, failed: bool)
    requires SameCase(a, b, id) && VerificationConcludes(b, c, id, verification, result, failed)
    ensures VerificationConcludes(a, c, id, verification, result, failed)
  {
    hide SameCase, Published, LeftUnknown;
    if verification == Code.Verified { PublishedLater(a, b, c, id); } else { UnknownLater(a, b, c, id, "candidate_not_verified"); }
  }

  /** The row records what the callback reported; after a change that was acknowledged, what the verification did. */
  ghost predicate ChangeConcludes(db: Db, after: Db, id: nat, s: Surroundings, result: Result, failed: bool) {
    && id in db.executions && db.executions[id].candidate in db.versions
    && var report := Report(s.platform, db.versions[db.executions[id].candidate].secret);
       if report.code == Code.Changed then VerificationConcludes(db, after, id, s.verification, result, failed)
       else
         && result == report && !failed
         && if !report.attempted || report.confirmedUnchanged then ClosedWith(db, after, id, Text(report.code))
            else LeftUnknown(db, after, id, "result_unknown")
  }

  lemma ChangeLater(a: Db, b: Db, c: Db, id: nat, s: Surroundings, result: Result, failed: bool)
    requires SameCase(a, b, id) && ChangeConcludes(b, c, id, s, result, failed)
    ensures ChangeConcludes(a, c, id, s, result, failed)
  {
    hide Published, LeftUnknown, ClosedWith, Report, VerificationConcludes;
    assert a.executions[id].candidate in a.versions && a.versions[a.executions[id].candidate] == b.versions[b.executions[id].candidate];
    var report := Report(s.platform, a.versions[a.executions[id].candidate].secret);
    if report.code == Code.Changed {
      VerificationLater(a, b, c, id, s.verification, result, failed);
    } else if !report.attempted || report.confirmedUnchanged {
      ClosedLater(a, b, c, id, Text(report.code));
    } else {
      UnknownLater(a, b, c, id, "result_unknown");
    }
  }

  /** From a granted authorisation on. */
  ghost predicate GrantedConcludes(db: Db, after: Db, id: nat, reconcile: bool, s: Surroundings, result: Result, failed: bool) {
    if reconcile then VerificationConcludes(db, after, id, s.verification, result, failed)
    else ChangeConcludes(db, after, id, s, result, failed)
  }

  /** From the claim on: a refused change is closed, a refused recovery left uncertain. */
  ghost predicate ClaimedConcludes(db: Db, after: Db, id: nat, reconcile: bool, s: Surroundings, result: Result, failed: bool) {
    if s.secondGrant then GrantedConcludes(db, after, id, reconcile, s, result, failed)
    else
      && result == NotSent(PermissionDenied) && failed
      && if reconcile then SameCase(db, after, id) && after.executions[id].state == Unknown
         else ClosedWith(db, after, id, Text(PermissionDenied))
  }

  lemma ClaimedLater(a: Db, b: Db, c: Db, id: nat, reconcile: bool, s: Surroundings, result: Result, failed: bool)
    requires SameCase(a, b, id) && ClaimedConcludes(b, c, id, reconcile, s, result, failed)
    ensures ClaimedConcludes(a, c, id, reconcile, s, result, failed)
  {
    hide SameCase, ChangeConcludes, VerificationConcludes, ClosedWith;
    if s.secondGrant {
      if reconcile { VerificationLater(a, b, c, id, s.verification, result, failed); } else { ChangeLater(a, b, c, id, s, result, failed); }
    } else if reconcile {
      SameCaseTwice(a, b, c, id);
    } else {
      ClosedLater(a, b, c, id, Text(PermissionDenied));
    }
  }

  /** It holds the row in the state of a fresh claim, and the tables let it work. */
  ghost predicate InHand(db: Db, id: nat, token: nat, x: Executor, mode: Mode) {
    Leased(db, id, token, if mode == Mode.Change then Prepared else Unknown) && x.execution == id && x.mode == mode && MayWork(db, id, mode)
  }

  function ModeOf(reconcile: bool): Mode {
    if reconcile then Reconcile else Mode.Change
  }

  /** RunPAMExecution with a token of its own. Whatever the others do in between, the world stays a run of the protocol
   and this executor ends where the protocol stops it; a reconciliation sends nothing; and success means the execution
   is completed. While nobody else touches what the execution depends on and the lease lasts, what becomes of a row that
   can be claimed is determined by what the run meets: published after a successful verification, closed with its code
   after a change that was not made, uncertain otherwise. */
  method RunPAMExecution(cluster: Cluster, id: nat, token: nat, reconcile: bool, s: Surroundings) returns (result: Result, failed: bool)
    requires cluster.Valid() && cluster.IsNew(token) && SurroundingsSpare(s, token)
    modifies cluster, cluster.store
    ensures cluster.Valid() && Finished(cluster, token)
    ensures token in cluster.flights ==> !reconcile
    ensures result.code == Code.Verified && !failed ==> IsCompleted(cluster, id)
    ensures old(cluster.history) <= cluster.history
    ensures var db, mode := old(cluster.store.Contents()), ModeOf(reconcile);
      && (id !in db.executions ==> result == EMPTY && failed && cluster.store.Contents() == db)
      && (id in db.executions && !(s.firstGrant && MayWork(db, id, mode)) ==>
            result == NotSent(PermissionDenied) && failed && cluster.store.Contents() == db)
      && (s.firstGrant && MayWork(db, id, mode) && Claimable(db, id, reconcile)
          && Unhindered(cluster, |old(cluster.history)|, token, id, db.now + E.LEASE) ==>
            ClaimedConcludes(db, cluster.store.Contents(), id, reconcile, s, result, failed))
      && (s.firstGrant && MayWork(db, id, mode) && !Claimable(db.(now := cluster.store.now), id, reconcile)
          && Alone(cluster.start, cluster.history, |old(cluster.history)|, token, id) ==>
            result == EMPTY && failed && SameStake(db, cluster.store.Contents(), id))
  {
    hide Run, V.VaultOk, Next, R.Perform, R.Commits, MayWork, Granted, SecretsReadable, PlatformSpares, SameStake,
         SameCase, Alone, Drives, Leased, GrantedConcludes, ClosedWith, NextCall, AfterCall, C.Resolve, StakeOf,
         OutsideCall, RemoteAfter;
    ghost var h0, db0 := cluster.history, cluster.store.Contents();
    var mode := ModeOf(reconcile);
    if MayWork(cluster.store.Contents(), id, mode) { WorkHasStake(cluster.store.Contents(), id, mode); }
    if id !in cluster.store.executions { return EMPTY, true; }
    var ok := cluster.Clear(token, id, mode, s.firstGrant);
    if !ok { return NotSent(PermissionDenied), true; }
    ghost var h1 := cluster.history;
    cluster.Interleave(s.atFirst, token);
    ghost var db2 := cluster.store.Contents();
    ok := cluster.Claim(token, id, mode);
    ghost var h3, db3 := cluster.history, cluster.store.Contents();
    if !ok {
      result, failed := EMPTY, true;
      if Alone(cluster.start, h3, |h0|, token, id) {
        ClaimMeets(cluster.start, h1, s.atFirst, h3, |h0|, token, id, reconcile, mode);
      }
      return;
    }
    result, failed := ClaimedRun(cluster, id, token, reconcile, s);
    if Alone(cluster.start, cluster.history, |h0|, token, id) {
      AloneLater(cluster.start, cluster.history, h3, |h0|, |h0|, token, id);
      AloneLater(cluster.start, cluster.history, cluster.history, |h0|, |h3|, token, id);
      RunForward(cluster.start, h3, cluster.history);
      ClaimMeets(cluster.start, h1, s.atFirst, h3, |h0|, token, id, reconcile, mode);
      if Claimable(db0, id, reconcile) && cluster.store.now < db0.now + E.LEASE {
        ClaimedLater(db0, db3, cluster.store.Contents(), id, reconcile, s, result, failed);
      }
    }
  }

  /** What the claim finds after a gap in which the executor was alone: a claimable row is claimed, an unclaimable one is
   refused and left alone. */
  lemma ClaimMeets(start: World, history: seq<Event>, gap: seq<Event>, all: seq<Event>, from: nat, token: nat, id: nat, reconcile: bool,
                   mode: Mode)
    requires from <= |history| && history + gap <= all && Spares(gap, token) && Alone(start, all, from, token, id)
    requires var db := Run(start, history).db;
      V.VaultOk(db) && V.VaultOk(Run(start, history + gap).db) && MayWork(db, id, mode) && token != 0
    requires Run(start, all).db == R.Perform(Run(start, history + gap).db, R.Claim(id, token, reconcile)).db
    ensures var db, found, after := Run(start, history).db, Run(start, history + gap).db, Run(start, all).db;
      && (Claimable(db, id, reconcile) ==>
            && R.Commits(found, R.Claim(id, token, reconcile)) && SameCase(db, after, id)
            && Leased(after, id, token, if reconcile then Unknown else Prepared) && MayWork(after, id, mode)
            && db.now + E.LEASE <= Until(after, id))
      && (!Claimable(db.(now := after.now), id, reconcile) ==>
            !R.Commits(found, R.Claim(id, token, reconcile)) && SameStake(db, after, id))
  {
    hide Run, V.VaultOk, Alone, R.Perform, R.Commits, C.Resolve, StakeOf, SameCase;
    var db, found, after := Run(start, history).db, Run(start, history + gap).db, Run(start, all).db;
    WorkHasStake(db, id, mode);
    GapIsSpared(start, history, gap, all, from, token, id);
    SameBindings(db, found, id);
    RunForward(start, history, history + gap);
    RunForward(start, history + gap, all);
    ClaimLeavesTime(found, id, token, reconcile);
    if Claimable(db, id, reconcile) {
      SparedIsSameCase(db, found, id);
      ClaimGoes(found, id, token, reconcile);
      SameCaseTwice(db, found, after, id);
      CaseKeepsWork(db, after, id, mode);
    } else if !Claimable(found, id, reconcile) {
      ClaimRefused(found, id, token, reconcile);
    }
  }

  lemma ClaimLeavesTime(db: Db, id: nat, token: nat, reconcile: bool)
    ensures R.Perform(db, R.Claim(id, token, reconcile)).db.now == db.now
  {
  }

  lemma CaseKeepsWork(db: Db, after: Db, id: nat, mode: Mode)
    requires SameCase(db, after, id) && MayWork(db, id, mode)
    ensures MayWork(after, id, mode)
  {
    hide MayWork, C.Resolve;
  }

  lemma WorkHasStake(db: Db, id: nat, mode: Mode)
    requires MayWork(db, id, mode)
    ensures id in db.executions && StakeOf(db, id).Some? && Exists(db, Account(db.executions[id].account))
  {
  }

  /** From the claim on. */
  method ClaimedRun(cluster: Cluster, id: nat, token: nat, reconcile: bool, s: Surroundings) returns (result: Result, failed: bool)
    requires cluster.Valid() && cluster.At(token, Claimed) && token !in cluster.flights && SurroundingsSpare(s, token)
    requires id in cluster.store.executions
    requires cluster.executors[token].execution == id && cluster.executors[token].mode == ModeOf(reconcile)
    requires cluster.executors[token].fromPrepared <==> cluster.store.executions[id].state == Prepared
    requires cluster.executors[token].fromPrepared <==> !reconcile
    modifies cluster, cluster.store
    ensures cluster.Valid() && Finished(cluster, token)
    ensures token in cluster.flights ==> old(cluster.executors)[token].fromPrepared
    ensures result.code == Code.Verified && !failed ==> IsCompleted(cluster, id)
    ensures old(cluster.history) <= cluster.history
    ensures var db := old(cluster.store.Contents());
      Unhindered(cluster, |old(cluster.history)|, token, id, Until(db, id)) && InHand(db, id, token, old(cluster.executors[token]), ModeOf(reconcile)) ==>
        ClaimedConcludes(db, cluster.store.Contents(), id, reconcile, s, result, failed)
  {
    hide Run, V.VaultOk, Next, R.Perform, R.Commits, MayWork, Granted, SecretsReadable, PlatformSpares, SameCase,
         Alone, Drives, Leased, GrantedConcludes, ClosedWith, NextCall, AfterCall, C.Resolve, StakeOf, OutsideCall,
         RemoteAfter;
    ghost var h0, db0, x := cluster.history, cluster.store.Contents(), cluster.executors[token];
    var prepared := cluster.store.executions[id].state == Prepared;
    cluster.Interleave(s.claimed, token);
    ghost var db1, w1 := cluster.store.Contents(), cluster.State();
    var ok := cluster.Authorize(token, s.secondGrant);
    ghost var h2 := cluster.history;
    if !ok {
      if prepared { Abandon(cluster, id, token, s.denied); }
      result, failed := NotSent(PermissionDenied), true;
      if Unhindered(cluster, |h0|, token, id, Until(db0, id)) && InHand(db0, id, token, x, ModeOf(reconcile)) {
        StillInHand(cluster.start, h0, s.claimed, cluster.history, |h0|, token, id, x, ModeOf(reconcile));
        GrantedFor(w1, token, s.secondGrant, id);
        AloneLater(cluster.start, cluster.history, cluster.history, |h0|, |h2|, token, id);
        DeniedConcludes(db0, db1, cluster.store.Contents(), id, token, x, reconcile, s);
      }
      return;
    }
    cluster.Interleave(s.authorized, token);
    ghost var h3, db3 := cluster.history, cluster.store.Contents();
    result, failed := AuthorizedRun(cluster, id, token, prepared, s);
    if Unhindered(cluster, |h0|, token, id, Until(db0, id)) && InHand(db0, id, token, x, ModeOf(reconcile)) {
      StillInHand(cluster.start, h0, s.claimed, cluster.history, |h0|, token, id, x, ModeOf(reconcile));
      GrantedFor(w1, token, s.secondGrant, id);
      StillInHand(cluster.start, h2, s.authorized, cluster.history, |h0|, token, id, x, ModeOf(reconcile));
      AloneLater(cluster.start, cluster.history, cluster.history, |h0|, |h3|, token, id);
      SameCaseTwice(db0, db1, db3, id);
      GrantedLater(db0, db3, cluster.store.Contents(), id, reconcile, s, result, failed);
    }
  }

  lemma DeniedConcludes(db: Db, found: Db, after: Db, id: nat, token: nat, x: Executor, reconcile: bool, s: Surroundings)
    requires SameCase(db, found, id) && InHand(found, id, token, x, ModeOf(reconcile)) && !s.secondGrant
    requires if reconcile then after == found else ClosedWith(found, after, id, Text(PermissionDenied))
    ensures ClaimedConcludes(db, after, id, reconcile, s, NotSent(PermissionDenied), true)
  {
    hide SameCase, ClosedWith, MayWork;
    if !reconcile { ClosedLater(db, found, after, id, Text(PermissionDenied)); }
  }

  lemma GrantedLater(a: Db, b: Db, c: Db, id: nat, reconcile: bool, s: Surroundings, result: Result, failed: bool)
    requires SameCase(a, b, id) && GrantedConcludes(b, c, id, reconcile, s, result, failed)
    ensures GrantedConcludes(a, c, id, reconcile, s, result, failed)
  {
    hide SameCase, ChangeConcludes, VerificationConcludes;
    if reconcile { VerificationLater(a, b, c, id, s.verification, result, failed); } else { ChangeLater(a, b, c, id, s, result, failed); }
  }

  lemma GrantedFor(w: World, token: nat, granted: bool, id: nat)
    requires token in w.executors && w.executors[token].execution == id && MayWork(w.db, id, w.executors[token].mode)
    ensures Granted(w, token, granted) <==> granted
  {
  }

  lemma StillInHand(start: World, history: seq<Event>, gap: seq<Event>, all: seq<Event>, from: nat, token: nat, id: nat, x: Executor,
                    mode: Mode)
    requires from <= |history| && history + gap <= all && Spares(gap, token) && Alone(start, all, from, token, id)
    requires V.VaultOk(Run(start, history).db) && InHand(Run(start, history).db, id, token, x, mode)
    ensures var db, after := Run(start, history).db, Run(start, history + gap).db;
      && SameCase(db, after, id) && Until(after, id) == Until(db, id) && InHand(after, id, token, x, mode)
      && after.now <= Run(start, all).db.now
  {
    hide Run, V.VaultOk, Alone, SameCase, MayWork;
    GapOfLease(start, history, gap, all, from, token, id, if mode == Mode.Change then Prepared else Unknown);
    CaseKeepsWork(Run(start, history).db, Run(start, history + gap).db, id, mode);
  }

  /** A change refused after the claim is closed as not sent. */
  method Abandon(cluster: Cluster, id: nat, token: nat, denied: seq<Event>)
    requires cluster.Valid() && cluster.At(token, Unsent) && cluster.executors[token].execution == id && Spares(denied, token)
    modifies cluster, cluster.store
    ensures cluster.Valid() && Finished(cluster, token) && (token in cluster.flights <==> token in old(cluster.flights))
    ensures old(cluster.history) <= cluster.history
    ensures var db := old(cluster.store.Contents());
      Unhindered(cluster, |old(cluster.history)|, token, id, Until(db, id)) && Leased(db, id, token, Prepared) ==>
        ClosedWith(db, cluster.store.Contents(), id, Text(PermissionDenied))
  {
    hide Run, V.VaultOk, Next, R.Perform, R.Commits, MayWork, SecretsReadable, SameCase, Alone, Drives, Leased, ClosedWith;
    ghost var h0, db0 := cluster.history, cluster.store.Contents();
    cluster.Interleave(denied, token);
    ghost var db1 := cluster.store.Contents();
    var _ := cluster.Save(token, R.FinishUnsent(id, token, Text(PermissionDenied)), Text(PermissionDenied));
    if Unhindered(cluster, |h0|, token, id, Until(db0, id)) && Leased(db0, id, token, Prepared) {
      GapOfLease(cluster.start, h0, denied, cluster.history, |h0|, token, id, Prepared);
      FinishGoes(db1, id, token, Text(PermissionDenied), false);
      ClosedLater(db0, db1, cluster.store.Contents(), id, Text(PermissionDenied));
    }
  }

  /** From a granted authorisation on. */
  method AuthorizedRun(cluster: Cluster, id: nat, token: nat, prepared: bool, s: Surroundings) returns (result: Result, failed: bool)
    requires cluster.Valid() && cluster.At(token, Authorized) && token !in cluster.flights && SurroundingsSpare(s, token)
    requires id in cluster.store.executions
    requires var x := cluster.executors[token]; x.execution == id && x.fromPrepared == prepared && x.mode != KeepOriginal
    modifies cluster, cluster.store
    ensures cluster.Valid() && Finished(cluster, token)
    ensures token in cluster.flights ==> prepared
    ensures result.code == Code.Verified && !failed ==> IsCompleted(cluster, id)
    ensures old(cluster.history) <= cluster.history
    ensures var db := old(cluster.store.Contents());
      Unhindered(cluster, |old(cluster.history)|, token, id, Until(db, id)) && InHand(db, id, token, old(cluster.executors[token]), ModeOf(!prepared)) ==>
        GrantedConcludes(db, cluster.store.Contents(), id, !prepared, s, result, failed)
  {
    hide Run, V.VaultOk, Next, R.Perform, R.Commits, MayWork, SecretsReadable, PlatformSpares, SameCase, Alone,
         Drives, Published, LeftUnknown, ClosedWith, Report, NextCall, AfterCall, C.Resolve, StakeOf, OutsideCall,
         RemoteAfter;
    ghost var h0, db0, x := cluster.history, cluster.store.Contents(), cluster.executors[token];
    var ok := cluster.ReadSecrets(token);
    if !ok {
      if InHand(db0, id, token, x, ModeOf(!prepared)) { SecretsAreReadable(db0, id, x); }
      return EMPTY, true;
    }
    ghost var h1 := cluster.history;
    CandidateIsThere(db0, db0.executions[id], x);
    if prepared {
      var goOn;
      result, failed, goOn := AttemptChange(cluster, id, token, s);
      if !goOn {
        if Unhindered(cluster, |h0|, token, id, Until(db0, id)) {
          AloneLater(cluster.start, cluster.history, cluster.history, |h0|, |h1|, token, id);
        }
        return;
      }
    }
    ghost var h2, db2 := cluster.history, cluster.store.Contents();
    result, failed := VerifyAndPublish(cluster, id, token, s);
    if Unhindered(cluster, |h0|, token, id, Until(db0, id)) && InHand(db0, id, token, x, ModeOf(!prepared)) {
      EarlierUnhindered(cluster, h2, db2, |h0|, token, id, Until(db0, id));
      AloneLater(cluster.start, h2, h2, |h0|, if prepared then |h1| else |h2|, token, id);
      AloneLater(cluster.start, cluster.history, cluster.history, |h0|, |h2|, token, id);
      if prepared { VerificationLater(db0, db2, cluster.store.Contents(), id, s.verification, result, failed); }
    }
  }

  lemma CandidateIsThere(db: Db, row: Execution, x: Executor)
    requires SecretsReadable(db, row, x) && x.mode != KeepOriginal
    ensures row.candidate in db.versions
  {
  }

  /** The change callback and the record of what it reported; `goOn` if that was a change. */
  method AttemptChange(cluster: Cluster, id: nat, token: nat, s: Surroundings) returns (result: Result, failed: bool, goOn: bool)
    requires cluster.Valid() && cluster.At(token, Ready) && token !in cluster.flights && SurroundingsSpare(s, token)
    requires id in cluster.store.executions && cluster.store.executions[id].candidate in cluster.store.versions
    requires cluster.executors[token].execution == id && cluster.executors[token].mode != KeepOriginal
    modifies cluster, cluster.store
    ensures cluster.Valid() && token in cluster.executors && old(cluster.history) <= cluster.history
    ensures goOn ==> cluster.At(token, Pc.Verifying) && cluster.executors[token].execution == id && cluster.executors[token].mode != KeepOriginal
    ensures !goOn ==> Finished(cluster, token) && result.code != Code.Verified
    ensures var db := old(cluster.store.Contents());
      Unhindered(cluster, |old(cluster.history)|, token, id, Until(db, id)) && MayChange(db, id, token, old(cluster.executors[token])) ==>
        var after, report := cluster.store.Contents(), Report(s.platform, db.versions[db.executions[id].candidate].secret);
        && (goOn <==> report.code == Code.Changed)
        && (goOn ==> SameCase(db, after, id) && Until(after, id) == Until(db, id) && Leased(after, id, token, ExecutionState.Verifying))
        && (!goOn ==> ChangeConcludes(db, after, id, s, result, failed))
  {
    hide Run, V.VaultOk, Next, R.Perform, R.Commits, MayWork, SecretsReadable, PlatformSpares, SameCase, Alone, Drives, Published,
         LeftUnknown, ClosedWith, Report, Leased, VerificationConcludes;
    ghost var h0, db0, x := cluster.history, cluster.store.Contents(), cluster.executors[token];
    var candidate := cluster.store.versions[cluster.store.executions[id].candidate].secret;
    result := Change(cluster, token, candidate, s.platform);
    ghost var h1, db1 := cluster.history, cluster.store.Contents();
    cluster.Interleave(s.answered, token);
    ghost var db2 := cluster.store.Contents();
    var ok := RecordChange(cluster, id, token, result);
    failed, goOn := !ok, ok && result.attempted && !result.confirmedUnchanged && result.code == Code.Changed;
    if Unhindered(cluster, |h0|, token, id, Until(db0, id)) && MayChange(db0, id, token, x) {
      EarlierUnhindered(cluster, h1, db1, |h0|, token, id, Until(db0, id));
      TriedGap(cluster.start, h1, s.answered, cluster.history, |h0|, token, id, result.attempted);
      TriedTwice(db0, db1, db2, id, token, result.attempted);
      ChangeIsConfirmed(s.platform, candidate);
      RecordedAs(db0, db2, cluster.store.Contents(), id, token, result, s);
    }
  }

  /** Which of the three records, by what was reported. */
  function RecordOf(id: nat, token: nat, result: Result): R.Call {
    if !result.attempted then R.FinishUnsent(id, token, Text(result.code))
    else if result.confirmedUnchanged then R.RejectChange(id, token, Text(result.code))
    else R.ChangeResult(id, token, result.code == Code.Changed)
  }

  method RecordChange(cluster: Cluster, id: nat, token: nat, result: Result) returns (ok: bool)
    requires ChangeDone(cluster, token, result) && cluster.executors[token].execution == id
    modifies cluster, cluster.store
    ensures cluster.Valid() && token in cluster.executors
    ensures exists code :: cluster.history == old(cluster.history) + [Record(token, code)]
    ensures ok <==> R.Commits(old(cluster.store.Contents()), RecordOf(id, token, result))
    ensures cluster.store.Contents() == R.Perform(old(cluster.store.Contents()), RecordOf(id, token, result)).db
    ensures cluster.executors[token] == old(cluster.executors[token]).(pc :=
      if ok && result.attempted && !result.confirmedUnchanged && result.code == Code.Changed then Pc.Verifying else Stopped)
    ensures cluster.flights == old(cluster.flights)
  {
    hide Run, V.VaultOk, Next, R.Perform, R.Commits, MayWork, SecretsReadable;
    if !result.attempted {
      ok := cluster.Save(token, R.FinishUnsent(id, token, Text(result.code)), Text(result.code));
    } else if result.confirmedUnchanged {
      ok := cluster.Save(token, R.RejectChange(id, token, Text(result.code)), Text(result.code));
    } else {
      ok := cluster.Save(token, R.ChangeResult(id, token, result.code == Code.Changed), "");
    }
  }

  lemma TriedGap(start: World, history: seq<Event>, gap: seq<Event>, all: seq<Event>, from: nat, token: nat, id: nat, attempted: bool)
    requires from <= |history| && history + gap <= all && Spares(gap, token) && Alone(start, all, from, token, id)
    requires V.VaultOk(Run(start, history).db)
    requires var db := Run(start, history).db; Leased(db, id, token, Changing) || (!attempted && Leased(db, id, token, Prepared))
    ensures Tried(Run(start, history).db, Run(start, history + gap).db, id, token, attempted)
    ensures Run(start, history + gap).db.now <= Run(start, all).db.now
  {
    hide Run, V.VaultOk, Alone, SameCase, Leased;
    if Leased(Run(start, history).db, id, token, Changing) {
      GapOfLease(start, history, gap, all, from, token, id, Changing);
    } else {
      GapOfLease(start, history, gap, all, from, token, id, Prepared);
    }
  }

  lemma TriedTwice(a: Db, b: Db, c: Db, id: nat, token: nat, attempted: bool)
    requires Tried(a, b, id, token, attempted) && Tried(b, c, id, token, attempted)
    ensures Tried(a, c, id, token, attempted)
  {
    hide SameCase, Leased;
    SameCaseTwice(a, b, c, id);
  }

  lemma ChangeIsConfirmed(platform: Platform, candidate: Material)
    ensures Report(platform, candidate).code == Code.Changed && Report(platform, candidate).attempted ==>
      !Report(platform, candidate).confirmedUnchanged
  {
  }

  /** What the record makes of the row. */
  lemma RecordedAs(db: Db, found: Db, after: Db, id: nat, token: nat, result: Result, s: Surroundings)
    requires V.VaultOk(found) && Tried(db, found, id, token, result.attempted) && found.now < Until(db, id)
    requires id in db.executions && db.executions[id].candidate in db.versions
    requires result == Report(s.platform, db.versions[db.executions[id].candidate].secret) && result.code != NoCode
    requires (result.confirmedUnchanged ==> result.attempted) && (result.code == Code.Changed ==> result.attempted)
    requires after == R.Perform(found, RecordOf(id, token, result)).db
    ensures R.Commits(found, RecordOf(id, token, result))
    ensures result.code == Code.Changed ==>
      SameCase(db, after, id) && Until(after, id) == Until(db, id) && Leased(after, id, token, ExecutionState.Verifying)
    ensures result.code != Code.Changed ==> ChangeConcludes(db, after, id, s, result, false)
  {
    hide V.VaultOk, R.Perform, R.Commits, SameCase, Leased, ClosedWith, Report, VerificationConcludes;
    ChangeIsConfirmed(s.platform, db.versions[db.executions[id].candidate].secret);
    if !result.attempted || result.confirmedUnchanged {
      FinishGoes(found, id, token, Text(result.code), result.confirmedUnchanged);
      ClosedLater(db, found, after, id, Text(result.code));
    } else {
      ResultGoes(found, id, token, result.code == Code.Changed);
      SameCaseTwice(db, found, after, id);
      LeasedState(after, id, token, if result.code == Code.Changed then ExecutionState.Verifying else Unknown);
    }
  }

  lemma LeasedState(db: Db, id: nat, token: nat, state: ExecutionState)
    requires Leased(db, id, token, state)
    ensures id in db.executions && db.executions[id].state == state
  {
  }

  method VerifyAndPublish(cluster: Cluster, id: nat, token: nat, s: Surroundings) returns (result: Result, failed: bool)
    requires cluster.Valid() && cluster.At(token, Pc.Verifying) && SurroundingsSpare(s, token)
    requires cluster.executors[token].execution == id && cluster.executors[token].mode != KeepOriginal
    modifies cluster, cluster.store
    ensures cluster.Valid() && Finished(cluster, token)
    ensures token in cluster.flights <==> token in old(cluster.flights)
    ensures result.code == Code.Verified && !failed ==> IsCompleted(cluster, id)
    ensures old(cluster.history) <= cluster.history
    ensures var db := old(cluster.store.Contents());
      Unhindered(cluster, |old(cluster.history)|, token, id, Until(db, id)) && ToVerify(db, id, token) ==>
        VerificationConcludes(db, cluster.store.Contents(), id, s.verification, result, failed)
  {
    hide Run, V.VaultOk, Next, R.Perform, R.Commits, SecretsReadable, PlatformSpares, SameCase, Alone, Drives, MayWork, Leased, Published;
    ghost var h0, db0 := cluster.history, cluster.store.Contents();
    var verified := s.verification == Code.Verified;
    result := NotSent(s.verification);
    var ok := TestCandidate(cluster, id, token, verified, s.toVerify, s.verified);
    ghost var h1, db1 := cluster.history, cluster.store.Contents();
    failed := !ok;
    if ok && verified {
      ok := PublishCandidate(cluster, id, token, s.recorded);
      failed := !ok;
    }
    if Unhindered(cluster, |h0|, token, id, Until(db0, id)) && ToVerify(db0, id, token) {
      EarlierUnhindered(cluster, h1, db1, |h0|, token, id, Until(db0, id));
      AloneLater(cluster.start, cluster.history, cluster.history, |h0|, |h1|, token, id);
      if verified { PublishedLater(db0, db1, cluster.store.Contents(), id); }
    }
  }

  /** The verification and its record. */
  method TestCandidate(cluster: Cluster, id: nat, token: nat, verified: bool, toVerify: seq<Event>, tested: seq<Event>) returns (ok: bool)
    requires cluster.Valid() && cluster.At(token, Pc.Verifying) && Spares(toVerify, token) && Spares(tested, token)
    requires cluster.executors[token].execution == id && cluster.executors[token].mode != KeepOriginal
    modifies cluster, cluster.store
    ensures cluster.Valid() && token in cluster.executors
    ensures cluster.executors[token] == old(cluster.executors[token]).(pc := if ok && verified then Publishing else Stopped)
    ensures token in cluster.flights <==> token in old(cluster.flights)
    ensures old(cluster.history) <= cluster.history
    ensures var db, after := old(cluster.store.Contents()), cluster.store.Contents();
      Unhindered(cluster, |old(cluster.history)|, token, id, Until(db, id)) && ToVerify(db, id, token) ==>
        && ok && SameCase(db, after, id) && Until(after, id) == Until(db, id)
        && (verified ==> Leased(after, id, token, ExecutionState.Verified))
        && (!verified ==> LeftUnknown(db, after, id, "candidate_not_verified"))
  {
    hide Run, V.VaultOk, Next, R.Perform, R.Commits, SecretsReadable, SameCase, Alone, Drives, MayWork, Leased, Spares;
    ghost var h0, db0 := cluster.history, cluster.store.Contents();
    cluster.Interleave(toVerify, token);
    ghost var db1 := cluster.store.Contents();
    cluster.TakeVerification(token, verified);
    ghost var h2 := cluster.history;
    cluster.Interleave(tested, token);
    ghost var db3 := cluster.store.Contents();
    ok := cluster.Save(token, R.CandidateResult(id, token, verified), "");
    ghost var db4 := cluster.store.Contents();
    if Unhindered(cluster, |h0|, token, id, Until(db0, id)) && ToVerify(db0, id, token) {
      VerifyGap(cluster.start, h0, toVerify, cluster.history, |h0|, token, id);
      VerifyGap(cluster.start, h2, tested, cluster.history, |h0|, token, id);
      CandidateGoes(db3, id, token, verified);
      SameCaseThrice(db0, db1, db3, db4, id);
      LeasedState(db4, id, token, if verified then ExecutionState.Verified else Unknown);
    }
  }

  /** It holds the row while the candidate is to be tested. */
  predicate ToVerify(db: Db, id: nat, token: nat) {
    Leased(db, id, token, ExecutionState.Verifying) || Leased(db, id, token, Unknown)
  }

  lemma VerifyGap(start: World, history: seq<Event>, gap: seq<Event>, all: seq<Event>, from: nat, token: nat, id: nat)
    requires from <= |history| && history + gap <= all && Spares(gap, token) && Alone(start, all, from, token, id)
    requires V.VaultOk(Run(start, history).db) && ToVerify(Run(start, history).db, id, token)
    ensures var db, after := Run(start, history).db, Run(start, history + gap).db;
      && SameCase(db, after, id) && Until(after, id) == Until(db, id) && ToVerify(after, id, token)
      && after.now <= Run(start, all).db.now
  {
    hide Run, V.VaultOk, Alone, SameCase, Leased;
    if Leased(Run(start, history).db, id, token, Unknown) {
      GapOfLease(start, history, gap, all, from, token, id, Unknown);
    } else {
      GapOfLease(start, history, gap, all, from, token, id, ExecutionState.Verifying);
    }
  }

  method PublishCandidate(cluster: Cluster, id: nat, token: nat, recorded: seq<Event>) returns (ok: bool)
    requires cluster.Valid() && cluster.At(token, Publishing) && cluster.executors[token].execution == id && Spares(recorded, token)
    modifies cluster, cluster.store
    ensures cluster.Valid() && Finished(cluster, token)
    ensures token in cluster.flights <==> token in old(cluster.flights)
    ensures ok ==> IsCompleted(cluster, id)
    ensures old(cluster.history) <= cluster.history
    ensures var db := old(cluster.store.Contents());
      Unhindered(cluster, |old(cluster.history)|, token, id, Until(db, id)) && Leased(db, id, token, ExecutionState.Verified) ==>
        ok && Published(db, cluster.store.Contents(), id)
  {
    hide Run, V.VaultOk, Next, R.Perform, R.Commits, SecretsReadable, SameCase, Alone, Drives, Leased, Published, MayWork;
    ghost var h0, db0 := cluster.history, cluster.store.Contents();
    cluster.Interleave(recorded, token);
    ghost var db1 := cluster.store.Contents();
    ok := cluster.Save(token, R.Publish(id, token), "");
    if ok {
      PublishCompletes(db1, id, token);
    }
    if Unhindered(cluster, |h0|, token, id, Until(db0, id)) && Leased(db0, id, token, ExecutionState.Verified) {
      GapOfLease(cluster.start, h0, recorded, cluster.history, |h0|, token, id, ExecutionState.Verified);
      PublishGoes(db1, id, token);
      PublishedLater(db0, db1, cluster.store.Contents(), id);
    }
  }

  // ---- preservePAMOriginal ----

  /** The original was accepted and is kept, or the row is left uncertain. */
  ghost predicate PreserveConcludes(db: Db, after: Db, id: nat, granted: bool, verification: Code, failed: bool) {
    if granted && verification == Code.Verified then !failed && ClosedWith(db, after, id, "original_verified")
    else failed && SameCase(db, after, id) && after.executions[id].state == Unknown
  }

  lemma PreserveLater(a: Db, b: Db, c: Db, id: nat, granted: bool, verification: Code, failed: bool)
    requires SameCase(a, b, id) && PreserveConcludes(b, c, id, granted, verification, failed)
    ensures PreserveConcludes(a, c, id, granted, verification, failed)
  {
    hide SameCase, ClosedWith;
    if granted && verification == Code.Verified { ClosedLater(a, b, c, id, "original_verified"); } else { SameCaseTwice(a, b, c, id); }
  }

  /** The test in ContinuePAMPassword and preservePAMOriginal after it: nothing is sent, and success means the execution
   is closed with its original kept. While nobody else touches what the execution depends on and the lease lasts, that is
   what becomes of a row that can be claimed exactly if permission is given and the original is accepted. */
  method PreserveOriginal(cluster: Cluster, id: nat, token: nat, firstGrant: bool, secondGrant: bool, verification: Code,
                          atFirst: seq<Event>, claimed: seq<Event>, authorized: seq<Event>, read: seq<Event>, verified: seq<Event>)
    returns (failed: bool)
    requires cluster.Valid() && cluster.IsNew(token)
    requires Spares(atFirst, token) && Spares(claimed, token) && Spares(authorized, token) && Spares(read, token) && Spares(verified, token)
    modifies cluster, cluster.store
    ensures cluster.Valid() && Finished(cluster, token) && token !in cluster.flights
    ensures !failed ==> KeptOriginal(cluster, id)
    ensures old(cluster.history) <= cluster.history
    ensures var db := old(cluster.store.Contents());
      && (!(firstGrant && MayWork(db, id, KeepOriginal)) ==> failed && cluster.store.Contents() == db)
      && (firstGrant && MayWork(db, id, KeepOriginal) && Claimable(db, id, true)
          && Unhindered(cluster, |old(cluster.history)|, token, id, db.now + E.LEASE) ==>
            PreserveConcludes(db, cluster.store.Contents(), id, secondGrant, verification, failed))
      && (firstGrant && MayWork(db, id, KeepOriginal) && !Claimable(db.(now := cluster.store.now), id, true)
          && Alone(cluster.start, cluster.history, |old(cluster.history)|, token, id) ==>
            failed && SameStake(db, cluster.store.Contents(), id))
  {
    hide Run, V.VaultOk, Next, R.Perform, R.Commits, MayWork, Granted, SecretsReadable, SameStake, SameCase, Alone,
         Drives, Leased, PreserveConcludes, NextCall, AfterCall, C.Resolve, StakeOf, Spares, OutsideCall, RemoteAfter;
    ghost var h0, db0 := cluster.history, cluster.store.Contents();
    if MayWork(cluster.store.Contents(), id, KeepOriginal) { WorkHasStake(cluster.store.Contents(), id, KeepOriginal); }
    if id !in cluster.store.executions { return true; }
    var ok := cluster.Clear(token, id, KeepOriginal, firstGrant);
    if !ok { return true; }
    ghost var h1 := cluster.history;
    cluster.Interleave(atFirst, token);
    ok := cluster.Claim(token, id, KeepOriginal);
    ghost var h3, db3 := cluster.history, cluster.store.Contents();
    if !ok {
      failed := true;
      if Alone(cluster.start, h3, |h0|, token, id) {
        ClaimMeets(cluster.start, h1, atFirst, h3, |h0|, token, id, true, KeepOriginal);
      }
      return;
    }
    failed := ClaimedPreserve(cluster, id, token, secondGrant, verification, claimed, authorized, read, verified);
    if Alone(cluster.start, cluster.history, |h0|, token, id) {
      AloneLater(cluster.start, cluster.history, h3, |h0|, |h0|, token, id);
      AloneLater(cluster.start, cluster.history, cluster.history, |h0|, |h3|, token, id);
      RunForward(cluster.start, h3, cluster.history);
      ClaimMeets(cluster.start, h1, atFirst, h3, |h0|, token, id, true, KeepOriginal);
      if Claimable(db0, id, true) && cluster.store.now < db0.now + E.LEASE {
        PreserveLater(db0, db3, cluster.store.Contents(), id, secondGrant, verification, failed);
      }
    }
  }

  method ClaimedPreserve(cluster: Cluster, id: nat, token: nat, granted: bool, verification: Code,
                         claimed: seq<Event>, authorized: seq<Event>, read: seq<Event>, verified: seq<Event>) returns (failed: bool)
    requires cluster.Valid() && cluster.At(token, Claimed) && token !in cluster.flights && id in cluster.store.executions
    requires Spares(claimed, token) && Spares(authorized, token) && Spares(read, token) && Spares(verified, token)
    requires var x := cluster.executors[token]; x.execution == id && !x.fromPrepared && x.mode == KeepOriginal
    modifies cluster, cluster.store
    ensures cluster.Valid() && Finished(cluster, token) && token !in cluster.flights
    ensures !failed ==> KeptOriginal(cluster, id)
    ensures old(cluster.history) <= cluster.history
    ensures var db := old(cluster.store.Contents());
      Unhindered(cluster, |old(cluster.history)|, token, id, Until(db, id)) && InHand(db, id, token, old(cluster.executors[token]), KeepOriginal) ==>
        PreserveConcludes(db, cluster.store.Contents(), id, granted, verification, failed)
  {
    hide Run, V.VaultOk, Next, R.Perform, R.Commits, MayWork, Granted, SecretsReadable, SameStake, SameCase, Alone,
         Drives, Leased, ClosedWith, NextCall, AfterCall, C.Resolve, StakeOf, Spares, OutsideCall, RemoteAfter;
    ghost var h0, db0, x := cluster.history, cluster.store.Contents(), cluster.executors[token];
    cluster.Interleave(claimed, token);
    ghost var db1, w1 := cluster.store.Contents(), cluster.State();
    var ok := cluster.Authorize(token, granted);
    ghost var h2 := cluster.history;
    if !ok {
      failed := true;
      if Unhindered(cluster, |h0|, token, id, Until(db0, id)) && InHand(db0, id, token, x, KeepOriginal) {
        StillInHand(cluster.start, h0, claimed, cluster.history, |h0|, token, id, x, KeepOriginal);
        GrantedFor(w1, token, granted, id);
        LeasedState(db1, id, token, Unknown);
      }
      return;
    }
    cluster.Interleave(authorized, token);
    ghost var h3, db3 := cluster.history, cluster.store.Contents();
    failed := AuthorizedPreserve(cluster, id, token, verification, read, verified);
    if Unhindered(cluster, |h0|, token, id, Until(db0, id)) && InHand(db0, id, token, x, KeepOriginal) {
      StillInHand(cluster.start, h0, claimed, cluster.history, |h0|, token, id, x, KeepOriginal);
      GrantedFor(w1, token, granted, id);
      StillInHand(cluster.start, h2, authorized, cluster.history, |h0|, token, id, x, KeepOriginal);
      AloneLater(cluster.start, cluster.history, cluster.history, |h0|, |h3|, token, id);
      SameCaseTwice(db0, db1, db3, id);
      PreserveLater(db0, db3, cluster.store.Contents(), id, true, verification, failed);
    }
  }

  predicate KeptOriginal(cluster: Cluster, id: nat)
    reads cluster.store
  {
    && id in cluster.store.executions && cluster.store.executions[id].state == Failed
    && cluster.store.executions[id].errorCode == "original_verified"
  }

  method AuthorizedPreserve(cluster: Cluster, id: nat, token: nat, verification: Code, read: seq<Event>, verified: seq<Event>)
    returns (failed: bool)
    requires cluster.Valid() && cluster.At(token, Authorized) && token !in cluster.flights && Spares(read, token) && Spares(verified, token)
    requires id in cluster.store.executions
    requires var x := cluster.executors[token]; x.execution == id && !x.fromPrepared && x.mode == KeepOriginal
    modifies cluster, cluster.store
    ensures cluster.Valid() && Finished(cluster, token) && token !in cluster.flights
    ensures !failed ==> KeptOriginal(cluster, id)
    ensures old(cluster.history) <= cluster.history
    ensures var db := old(cluster.store.Contents());
      Unhindered(cluster, |old(cluster.history)|, token, id, Until(db, id)) && Leased(db, id, token, Unknown) ==>
        PreserveConcludes(db, cluster.store.Contents(), id, true, verification, failed)
  {
    hide Run, V.VaultOk, Next, R.Perform, R.Commits, MayWork, SecretsReadable, SameCase, Alone, Drives, Leased,
         ClosedWith, Spares, NextCall, AfterCall, C.Resolve, StakeOf, OutsideCall, RemoteAfter;
    ghost var h0, db0, x := cluster.history, cluster.store.Contents(), cluster.executors[token];
    var ok := cluster.ReadSecrets(token);
    if !ok {
      if Leased(db0, id, token, Unknown) { LeaseReads(db0, id, token, x); }
      return true;
    }
    ghost var h1 := cluster.history;
    failed := ReadPreserve(cluster, id, token, verification == Code.Verified, read, verified);
    if Unhindered(cluster, |h0|, token, id, Until(db0, id)) && Leased(db0, id, token, Unknown) {
      AloneLater(cluster.start, cluster.history, cluster.history, |h0|, |h1|, token, id);
    }
  }

  /** The authentication with the original, and what follows from it. */
  method ReadPreserve(cluster: Cluster, id: nat, token: nat, accepted: bool, read: seq<Event>, verified: seq<Event>) returns (failed: bool)
    requires cluster.Valid() && cluster.At(token, Pc.Verifying) && token !in cluster.flights && Spares(read, token) && Spares(verified, token)
    requires cluster.executors[token].execution == id && cluster.executors[token].mode == KeepOriginal
    modifies cluster, cluster.store
    ensures cluster.Valid() && Finished(cluster, token) && token !in cluster.flights
    ensures !failed ==> KeptOriginal(cluster, id)
    ensures old(cluster.history) <= cluster.history
    ensures var db := old(cluster.store.Contents());
      Unhindered(cluster, |old(cluster.history)|, token, id, Until(db, id)) && Leased(db, id, token, Unknown) ==>
        PreserveConcludes(db, cluster.store.Contents(), id, true, if accepted then Code.Verified else Authentication, failed)
  {
    hide Run, V.VaultOk, Next, R.Perform, R.Commits, MayWork, SecretsReadable, SameCase, Alone, Drives, Leased, ClosedWith, Spares,
         NextCall, AfterCall, C.Resolve, StakeOf;
    ghost var h0, db0 := cluster.history, cluster.store.Contents();
    cluster.Interleave(read, token);
    ghost var db1 := cluster.store.Contents();
    cluster.TakeVerification(token, accepted);
    ghost var h2 := cluster.history;
    failed := !accepted;
    if accepted {
      var ok := KeepOriginalSecret(cluster, id, token, verified);
      failed := !ok;
    } else {
      // Returning without another step looks to the others like a crash.
      cluster.Crashes(token);
    }
    if Unhindered(cluster, |h0|, token, id, Until(db0, id)) && Leased(db0, id, token, Unknown) {
      GapOfLease(cluster.start, h0, read, cluster.history, |h0|, token, id, Unknown);
      LeasedState(db1, id, token, Unknown);
      AloneLater(cluster.start, cluster.history, cluster.history, |h0|, |h2|, token, id);
      if accepted { ClosedLater(db0, db1, cluster.store.Contents(), id, "original_verified"); }
    }
  }

  method KeepOriginalSecret(cluster: Cluster, id: nat, token: nat, verified: seq<Event>) returns (ok: bool)
    requires cluster.Valid() && cluster.At(token, Seen(true)) && cluster.executors[token].execution == id && Spares(verified, token)
    requires cluster.executors[token].mode == KeepOriginal
    modifies cluster, cluster.store
    ensures cluster.Valid() && Finished(cluster, token)
    ensures token in cluster.flights <==> token in old(cluster.flights)
    ensures ok ==> KeptOriginal(cluster, id)
    ensures old(cluster.history) <= cluster.history
    ensures var db := old(cluster.store.Contents());
      Unhindered(cluster, |old(cluster.history)|, token, id, Until(db, id)) && Leased(db, id, token, Unknown) ==>
        ok && ClosedWith(db, cluster.store.Contents(), id, "original_verified")
  {
    hide Run, V.VaultOk, Next, R.Perform, R.Commits, MayWork, SecretsReadable, SameCase, Alone, Drives, Leased, ClosedWith, Spares;
    ghost var h0, db0 := cluster.history, cluster.store.Contents();
    cluster.Interleave(verified, token);
    ghost var db1 := cluster.store.Contents();
    ok := cluster.Save(token, R.PreserveOriginal(id, token), "");
    if ok { PreserveCloses(db1, id, token); }
    if Unhindered(cluster, |h0|, token, id, Until(db0, id)) && Leased(db0, id, token, Unknown) {
      GapOfLease(cluster.start, h0, verified, cluster.history, |h0|, token, id, Unknown);
      PreserveGoes(db1, id, token);
      ClosedLater(db0, db1, cluster.store.Contents(), id, "original_verified");
    }
  }

  lemma LeaseReads(db: Db, id: nat, token: nat, x: Executor)
    requires V.VaultOk(db) && Leased(db, id, token, Unknown)
    ensures SecretsReadable(db, db.executions[id], x)
  {
    hide V.VaultOk, SecretsReadable;
    SecretsAreReadable(db, id, x);
  }

  lemma PreserveCloses(db: Db, id: nat, token: nat)
    requires R.Commits(db, R.PreserveOriginal(id, token))
    ensures var after := R.Perform(db, R.PreserveOriginal(id, token)).db;
      id in after.executions && after.executions[id].state == Failed && after.executions[id].errorCode == "original_verified"
  {
  }

  /** Whatever programs have run on a cluster that began with nothing in progress: under the stated assumptions about
   the outside, the vault still holds the secret the remote system accepts. */
  lemma ProgramsDoNotLockOut(cluster: Cluster)
    requires cluster.Valid() && I.Initial(cluster.start) && AssumedThroughout(cluster.start, cluster.history)
    ensures NoLockOut(cluster.State())
  {
    hide Next, NoLockOut, I.Initial, AssumedThroughout;
    N.NoLockOutEver(cluster.start, cluster.history);
  }
}
