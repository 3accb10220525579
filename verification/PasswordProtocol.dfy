/** The whole protocol: any number of executors, each running RunPAMExecution or preservePAMOriginal one step at a
 time, over one store, one remote system per owner, and a network that may delay or lose what was sent. */
module PasswordProtocol {
  import opened Basics
  import opened Tables
  import C = CredentialSpec
  import E = ExecutionSpec
  import R = VaultRuns
  import T = TargetSpec
  import V = VaultInvariant

  /** What the executor was asked to do: resume or start, reconcile, or keep the original secret. */
  datatype Mode = Change | Reconcile | KeepOriginal

  /** Where an executor stands between two visible steps. */
  datatype Pc =
    | Claimed               // holds a claim; has to be authorised
    | Authorized            // has to read the secrets
    | Ready                 // inside change(), nothing recorded yet
    | Armed                 // BeforeChange committed, nothing sent yet
    | Sent                  // the mutation left this process
    | Unsent                // change() reported attempted == false
    | Rejected              // change() reported confirmedUnchanged
    | Replied(changed: bool)
    | Verifying             // about to authenticate with the secret it has to test
    | Seen(accepted: bool)  // that authentication returned
    | Publishing            // candidate result recorded
    | Stopped               // returned or crashed

  datatype Executor = Executor(execution: nat, mode: Mode, fromPrepared: bool, committed: bool, pc: Pc)

  /** A mutation on its way to the remote system, keyed by the executor that sent it. */
  datatype Flight = InFlight | Applied | Gone

  datatype Answer = Changed | ConfirmedUnchanged | Uncertain

  /** An executor that was authorised for this work and has not claimed yet. */
  datatype Clearance = Clearance(execution: nat, mode: Mode)

  datatype World = World(db: Db, remote: map<Owner, Material>, executors: map<nat, Executor>, flights: map<nat, Flight>,
                         cleared: map<nat, Clearance>)

  datatype Event =
    | Outside(call: R.Call)                              // Prepare, the competing writers and the clock
    | Clear(token: nat, execution: nat, mode: Mode, granted: bool)  // the authorisation before the claim
    | Start(token: nat, execution: nat, mode: Mode)      // Claim
    | Authorize(token: nat, granted: bool)
    | Read(token: nat)
    | GiveUp(token: nat)                                 // change() returns without sending
    | Before(token: nat, granted: bool)                  // the before-change callback
    | Send(token: nat)
    | Deliver(token: nat)                                // the remote system applies the mutation
    | Lose(token: nat)                                   // it never will
    | Reply(token: nat, answer: Answer)
    | Verify(token: nat, accepted: bool)
    | Record(token: nat, code: string)                   // the next store call of this executor
    | Crash(token: nat)

  function At(w: World, token: nat, pc: Pc): World
    requires token in w.executors
  {
    w.(executors := w.executors[token := w.executors[token].(pc := pc)])
  }

  predicate Is(w: World, token: nat, pc: Pc) {
    token in w.executors && w.executors[token].pc == pc
  }

  /** What the tables say about this work on an execution. The other part of an authorisation, permissions and policies,
   is the boolean of the event. */
  predicate MayWork(db: Db, id: nat, mode: Mode) {
    id in db.executions && T.MayWork(db, db.executions[id], mode != Change)
  }

  predicate Granted(w: World, token: nat, granted: bool)
    requires token in w.executors
  {
    granted && MayWork(w.db, w.executors[token].execution, w.executors[token].mode)
  }

  /** Cleared for this work and able to claim it. */
  ghost predicate MayClaim(w: World, token: nat, id: nat, mode: Mode) {
    && token in w.cleared && w.cleared[token] == Clearance(id, mode) && token !in w.executors
    && R.Commits(w.db, R.Claim(id, token, mode != Change))
  }

  predicate OutsideCall(call: R.Call) {
    call.Prepare? || call.CreateOwner? || call.UpdateCredential? || call.Adopt? || call.RemoveManagement?
    || call.SetEnabled? || call.Retarget? || call.DeleteOwner? || call.Tick?
  }

  /** Creating an owner or replacing its credential by hand records the value the remote system has from then on. */
  ghost function RemoteAfter(w: World, call: R.Call): map<Owner, Material> {
    if !R.Commits(w.db, call) then w.remote
    else if call.CreateOwner? then w.remote[call.who := call.secret]
    else if call.UpdateCredential? && call.edit.secret.Some? then w.remote[call.who := call.edit.secret.value]
    else w.remote
  }

  /** The secret an executor authenticates with: the candidate, or the previous one when keeping the original. */
  function TestedVersion(row: Execution, mode: Mode): nat {
    if mode == KeepOriginal then row.previous else row.candidate
  }

  predicate SecretsReadable(db: Db, row: Execution, executor: Executor) {
    var owner := Account(row.account);
    if executor.mode == KeepOriginal then C.Readable(db, owner, row.previous, Active)
    else
      && C.Readable(db, owner, row.candidate, Pending)
      && (executor.fromPrepared ==> C.Readable(db, owner, row.previous, Active))
  }

  /** The store call an executor makes next, if it is about to make one. */
  function NextCall(executor: Executor, token: nat, code: string): Option<R.Call> {
    var id := executor.execution;
    match executor.pc
    case Unsent => Some(R.FinishUnsent(id, token, code))
    case Rejected => Some(R.RejectChange(id, token, code))
    case Replied(changed) => Some(R.ChangeResult(id, token, changed))
    case Seen(accepted) =>
      if executor.mode == KeepOriginal then (if accepted then Some(R.PreserveOriginal(id, token)) else None)
      else Some(R.CandidateResult(id, token, accepted))
    case Publishing => Some(R.Publish(id, token))
    case _ => None
  }

  /** Where the executor goes after that call: on only while everything it was told was good. */
  function AfterCall(executor: Executor, ok: bool): Pc {
    match executor.pc
    case Replied(changed) => if ok && changed then Pc.Verifying else Stopped
    case Seen(accepted) => if ok && accepted && executor.mode != KeepOriginal then Publishing else Stopped
    case _ => Stopped
  }

  ghost function Next(w: World, e: Event): World {
    match e
    case Outside(call) =>
      if OutsideCall(call) then w.(db := R.Perform(w.db, call).db, remote := RemoteAfter(w, call)) else w
    case Clear(token, id, mode, granted) =>
      if token != 0 && token !in w.executors && token !in w.cleared && granted && MayWork(w.db, id, mode)
      then w.(cleared := w.cleared[token := Clearance(id, mode)]) else w
    case Start(token, id, mode) =>
      if token !in w.cleared || w.cleared[token] != Clearance(id, mode) then w
      else if !MayClaim(w, token, id, mode) then w.(cleared := w.cleared - {token})
      else
        var after := R.Perform(w.db, R.Claim(id, token, mode != Change)).db;
        w.(db := after, cleared := w.cleared - {token},
           executors := w.executors[token := Executor(id, mode, after.executions[id].state == Prepared, false, Claimed)])
    case Authorize(token, granted) =>
      if !Is(w, token, Claimed) then w
      else if Granted(w, token, granted) then At(w, token, Authorized)
      else if w.executors[token].fromPrepared then At(w, token, Unsent)
      else At(w, token, Stopped)
    case Read(token) =>
      if !Is(w, token, Authorized) || w.executors[token].execution !in w.db.executions then w
      else if !SecretsReadable(w.db, w.db.executions[w.executors[token].execution], w.executors[token]) then At(w, token, Stopped)
      else if w.executors[token].fromPrepared then At(w, token, Ready)
      else At(w, token, Pc.Verifying)
    case GiveUp(token) =>
      if Is(w, token, Ready) || Is(w, token, Armed) then At(w, token, Unsent) else w
    case Before(token, granted) =>
      if !Is(w, token, Ready) then w
      else
        var call := R.BeforeChange(w.executors[token].execution, token);
        if Granted(w, token, granted) && R.Commits(w.db, call) then
          w.(db := R.Perform(w.db, call).db,
             executors := w.executors[token := w.executors[token].(pc := Armed, committed := true)])
        else At(w, token, Unsent)
    case Send(token) =>
      if Is(w, token, Armed) then At(w, token, Sent).(flights := w.flights[token := InFlight]) else w
    case Deliver(token) =>
      if token in w.flights && w.flights[token] == InFlight && token in w.executors
         && w.executors[token].execution in w.db.executions
         && w.db.executions[w.executors[token].execution].candidate in w.db.versions then
        var row := w.db.executions[w.executors[token].execution];
        w.(flights := w.flights[token := Applied], remote := w.remote[Account(row.account) := w.db.versions[row.candidate].secret])
      else w
    case Lose(token) =>
      if token in w.flights && w.flights[token] == InFlight then w.(flights := w.flights[token := Gone]) else w
    case Reply(token, answer) =>
      if !Is(w, token, Sent) then w
      else if answer == ConfirmedUnchanged then At(w, token, Rejected)
      else At(w, token, Replied(answer == Changed))
    case Verify(token, accepted) =>
      if Is(w, token, Pc.Verifying) then At(w, token, Seen(accepted)) else w
    case Record(token, code) =>
      if token !in w.executors || NextCall(w.executors[token], token, code).None? then w
      else
        var call := NextCall(w.executors[token], token, code).value;
        At(w, token, AfterCall(w.executors[token], R.Commits(w.db, call))).(db := R.Perform(w.db, call).db)
    case Crash(token) =>
      var left := w.(cleared := w.cleared - {token});
      if token in w.executors then At(left, token, Stopped) else left
  }

  ghost function Run(w: World, events: seq<Event>): World {
    if events == [] then w else Next(Run(w, events[..|events| - 1]), events[|events| - 1])
  }

  lemma OneMore(w: World, events: seq<Event>, e: Event)
    ensures Run(w, events + [e]) == Next(Run(w, events), e)
  {
    hide Next;
    assert (events + [e])[..|events + [e]| - 1] == events;
  }

  lemma {:induction false} RunConcat(w: World, a: seq<Event>, b: seq<Event>)
    ensures Run(w, a + b) == Run(Run(w, a), b)
    decreases |b|
  {
    if b == [] {
      assert a + b == a;
    } else {
      var n := |b| - 1;
      RunConcat(w, a, b[..n]);
      assert (a + b)[..|a + b| - 1] == a + b[..n];
    }
  }

  // ---- What the theorems assume about the world outside ----

  /** Nothing of this execution can reach the remote system any more. */
  ghost predicate RemoteStopped(w: World, id: nat) {
    forall t :: t in w.executors && w.executors[t].execution == id ==>
      && w.executors[t].pc != Armed
      && (t in w.flights ==> w.flights[t] != InFlight)
  }

  /** Result codes are truthful, the operator's confirmation is, and a prepared candidate is a new secret. */
  ghost predicate Truthful(w: World, e: Event) {
    match e
    case Reply(token, answer) =>
      token in w.flights ==>
        && (answer == Changed ==> w.flights[token] == Applied)
        && (answer == ConfirmedUnchanged ==> w.flights[token] == Gone)
    case Verify(token, accepted) =>
      accepted && token in w.executors && w.executors[token].execution in w.db.executions ==>
        var row := w.db.executions[w.executors[token].execution];
        var tested := TestedVersion(row, w.executors[token].mode);
        tested in w.db.versions && Account(row.account) in w.remote
        && w.remote[Account(row.account)] == w.db.versions[tested].secret
    case Start(token, id, mode) => mode == KeepOriginal ==> RemoteStopped(w, id)
    case _ => true
  }

  /** The candidate differs from the secret it replaces. The code does not check this for a password it is given. */
  ghost predicate FreshCandidate(w: World, e: Event) {
    e.Outside? && e.call.Prepare? && R.Perform(w.db, e.call).db != w.db ==>
      C.Resolve(w.db, Account(e.call.input.account)) != Some(e.call.candidate)
  }

  ghost predicate Assumed(w: World, e: Event) {
    Truthful(w, e) && FreshCandidate(w, e)
  }

  ghost predicate AssumedThroughout(w: World, events: seq<Event>) {
    forall k :: 0 <= k < |events| ==> Assumed(Run(w, events[..k]), events[k])
  }

  lemma EmptyRun(w: World)
    ensures Run(w, []) == w && AssumedThroughout(w, [])
  {
  }

  /** One more assumed step at the end of an assumed run. */
  lemma Extend(w: World, events: seq<Event>, e: Event)
    requires AssumedThroughout(w, events) && Assumed(Run(w, events), e)
    ensures AssumedThroughout(w, events + [e])
    ensures Run(w, events + [e]) == Next(Run(w, events), e)
  {
    hide Next, Assumed;
    var longer := events + [e];
    assert longer[..|events|] == events;
    forall k | 0 <= k < |longer| ensures Assumed(Run(w, longer[..k]), longer[k]) {
      if k < |events| { assert longer[..k] == events[..k]; }
    }
  }

  lemma AssumedConcat(w: World, a: seq<Event>, b: seq<Event>)
    requires AssumedThroughout(w, a) && AssumedThroughout(Run(w, a), b)
    ensures AssumedThroughout(w, a + b)
  {
    forall k | 0 <= k < |a + b| ensures Assumed(Run(w, (a + b)[..k]), (a + b)[k]) {
      if k < |a| {
        assert (a + b)[..k] == a[..k];
      } else {
        assert (a + b)[..k] == a + b[..k - |a|];
        RunConcat(w, a, b[..k - |a|]);
        assert Assumed(Run(Run(w, a), b[..k - |a|]), b[k - |a|]);
      }
    }
  }

  // ---- The property ----

  /** The vault holds a readable version with the secret the remote system accepts: the active one, or, while an
   execution works on the account, that execution's active previous or pending candidate version. */
  ghost predicate Recoverable(w: World, owner: Owner) {
    && owner in w.remote
    && (|| C.Resolve(w.db, owner) == Some(w.remote[owner])
        || exists id :: id in w.db.executions && CandidateHolds(w, owner, id))
  }

  ghost predicate CandidateHolds(w: World, owner: Owner, id: nat)
    requires id in w.db.executions && owner in w.remote
  {
    var row := w.db.executions[id];
    && Account(row.account) == owner
    && row.activeAccount == Some(row.account)
    && C.Readable(w.db, owner, row.candidate, Pending)
    && w.db.versions[row.candidate].secret == w.remote[owner]
  }

  ghost predicate NoLockOut(w: World) {
    forall owner :: owner in w.db.owners ==>
      && Recoverable(w, owner)
      && (V.Idle(w.db, owner) ==> C.Resolve(w.db, owner) == Some(w.remote[owner]))
  }
}
