/** One account on one asset: the smallest world in which a password change can be prepared. Theorems about things
 going wrong, at this input. */
module SmallWorld {
  import opened Basics
  import opened Tables
  import C = CredentialSpec
  import E = ExecutionSpec
  import T = TargetSpec
  import V = VaultInvariant
  import R = VaultRuns
  import opened PasswordProtocol
  import opened ProtocolInvariant
  import Freshness
  import StrandedExecutions
  import DeadEnds
  import Endings

  const SECRET := Password(7)

  function SmallTables(): Db {
    Db(map[Account(1) := OwnerRow(PasswordAuth, None, 1, 1, true, true, 1, false)],
       map[1 := Version(Account(1), SECRET, Active, 0)],
       map[1 := Binding(1, 1, Route(1, 0, 1), 1, true, 1)],
       map[1 := Asset(Route(1, 0, 1), false)],
       map[], map[], 0)
  }

  function SmallStart(): World {
    World(SmallTables(), map[Account(1) := SECRET], map[], map[], map[])
  }

  /** Prepare execution 2 with this candidate as version 2. */
  function Preparation(candidate: Material): R.Call {
    R.Prepare(E.PrepareInput(1, 9, 5, 6, RotateSecret, 1, 1, 1, true, 1), candidate, 2, 2)
  }

  lemma StartIsInitial()
    ensures Initial(SmallStart())
  {
    var db := SmallTables();
    assert V.CredentialsOk(db) && V.ExecutionsOk(db);
  }

  lemma PreparationCommits(candidate: Material)
    requires candidate.Password? && candidate.text != 0
    ensures R.Perform(SmallTables(), Preparation(candidate)).db != SmallTables()
  {
    var after := R.Perform(SmallTables(), Preparation(candidate)).db;
    assert 2 in after.executions;
  }

  /** The password in use is accepted as a new one, and then some run locks out. */
  lemma {:induction false} StaleCandidateLocksOut()
    ensures var call := Preparation(SECRET);
      && Initial(SmallStart()) && R.Commits(SmallStart().db, call) && C.Resolve(SmallStart().db, Account(1)) == Some(call.candidate)
      && exists later :: AssumedThroughout(Next(SmallStart(), Outside(call)), later) && !NoLockOut(Run(Next(SmallStart(), Outside(call)), later))
  {
    hide Initial, AssumedThroughout, NoLockOut, Next;
    StartIsInitial();
    PreparationCommits(SECRET);
    EmptyRun(SmallStart());
    Freshness.FreshCandidateDecides(SmallStart(), [], Preparation(SECRET));
    assert Freshness.OneAsset(SmallStart().db, Preparation(SECRET));
  }

  /** A good password, an account disabled and enabled again before the claim: no continuation whatsoever ends it. */
  lemma {:induction false} RevisedAccountStrands(later: seq<Event>)
    ensures var events := [Outside(Preparation(Password(8)))] + StrandedExecutions.DisableAndEnable(1, 1) + later;
      var end := Run(SmallStart(), events);
      && Initial(SmallStart()) && FreshCandidate(SmallStart(), events[0])
      && 2 in end.db.executions && end.db.executions[2].state == Prepared && StrandedExecutions.AccountIsHeld(end.db, 1)
  {
    hide Initial, Next, Run, StrandedExecutions.AccountIsHeld;
    var call := Preparation(Password(8));
    var switched := StrandedExecutions.DisableAndEnable(1, 1);
    StartIsInitial();
    PreparationCommits(Password(8));
    EmptyRun(SmallStart());
    OneMore(SmallStart(), [], Outside(call));
    assert [] + [Outside(call)] == [Outside(call)];
    RunConcat(SmallStart(), [Outside(call)], switched);
    RunConcat(SmallStart(), [Outside(call)] + switched, later);
    StrandedExecutions.RevisedBeforeClaim(SmallStart(), [], call, later);
  }

  // ---- An account deleted under the holder of a lease ----

  function PreparedRow(): Execution {
    Execution(1, Some(1), 9, 5, 6, RotateSecret, 1, 1, 1, Some(T.ScopeOf(SmallTables().bindings[1])), 1, 2,
              Prepared, 1, 0, None, "", None, None, None)
  }

  function PreparedTables(): Db {
    SmallTables().(
      versions := SmallTables().versions[2 := Version(Account(1), Password(8), Pending, 2)],
      executions := map[2 := PreparedRow()],
      audits := map[2 := AuditPending])
  }

  function ClaimedTables(): Db {
    PreparedTables().(executions := map[2 := PreparedRow().(leaseOwner := 3, leaseUntil := Some(E.LEASE), revision := 2)])
  }

  function PreparedWorld(): World {
    SmallStart().(db := PreparedTables())
  }

  function ClearedWorld(): World {
    PreparedWorld().(cleared := map[3 := Clearance(2, Change)])
  }

  function ClaimedWorld(): World {
    SmallStart().(db := ClaimedTables(), executors := map[3 := Executor(2, Change, true, false, Claimed)])
  }

  /** The asset was deleted meanwhile. */
  function UnhousedWorld(): World {
    ClaimedWorld().(db := ClaimedTables().(assets := map[1 := Asset(Route(1, 0, 1), true)]))
  }

  /** Prepared, let through and claimed; then the asset is deleted. */
  function ClaimedAndUnhoused(): seq<Event> {
    [Outside(Preparation(Password(8))), Clear(3, 2, Change, true), Start(3, 2, Change), Outside(R.Retarget(T.DeleteAsset(1)))]
  }

  lemma PreparationEffect()
    ensures Next(SmallStart(), Outside(Preparation(Password(8)))) == PreparedWorld()
    ensures Assumed(SmallStart(), Outside(Preparation(Password(8))))
  {
  }

  lemma MayWorkHere()
    ensures MayWork(PreparedTables(), 2, Change)
  {
  }

  lemma ClaimsHere()
    ensures E.Claim(PreparedTables(), 2, 3, false) == Commit(ClaimedTables(), Ok(2))
  {
    assert ClaimedTables().executions == PreparedTables().executions[2 := ClaimedTables().executions[2]];
  }

  lemma ClearEffect()
    ensures Next(PreparedWorld(), Clear(3, 2, Change, true)) == ClearedWorld()
    ensures Assumed(PreparedWorld(), Clear(3, 2, Change, true))
  {
    hide R.Perform, MayWork;
    MayWorkHere();
  }

  lemma ClaimEffect()
    ensures Assumed(ClearedWorld(), Start(3, 2, Change))
    ensures Next(ClearedWorld(), Start(3, 2, Change)) == ClaimedWorld()
  {
    hide E.Claim;
    ClaimsHere();
  }

  lemma UnhousingEffect()
    ensures Assumed(ClaimedWorld(), Outside(R.Retarget(T.DeleteAsset(1))))
    ensures Next(ClaimedWorld(), Outside(R.Retarget(T.DeleteAsset(1)))) == UnhousedWorld()
  {
  }

  lemma StepsTo()
    ensures AssumedThroughout(SmallStart(), ClaimedAndUnhoused())
    ensures Run(SmallStart(), ClaimedAndUnhoused()) == UnhousedWorld()
  {
    hide Next, Assumed, AssumedThroughout, Run;
    var w := SmallStart();
    EmptyRun(w);
    PreparationEffect();
    ClearEffect();
    ClaimEffect();
    UnhousingEffect();
    var e := ClaimedAndUnhoused();
    Extend(w, [], e[0]);
    Extend(w, [] + [e[0]], e[1]);
    Extend(w, [] + [e[0]] + [e[1]], e[2]);
    Extend(w, [] + [e[0]] + [e[1]] + [e[2]], e[3]);
    assert e == [] + [e[0]] + [e[1]] + [e[2]] + [e[3]];
  }

  lemma UnhousedIsCarried()
    ensures DeadEnds.Carries(UnhousedWorld(), 2, 3)
    ensures T.DeleteOwner(UnhousedWorld().db, Account(1), true).reply.Ok?
  {
  }

  /** The holder of the lease could still give the change up; the account is deleted, and no continuation whatsoever ends
   the execution. */
  lemma {:induction false} DeletedAccountCutsOff(later: seq<Event>)
    ensures var now := Run(SmallStart(), ClaimedAndUnhoused());
      var end := Run(Next(now, Outside(R.DeleteOwner(Account(1), true))), later);
      && Initial(SmallStart()) && AssumedThroughout(SmallStart(), ClaimedAndUnhoused()) && Endings.CanEnd(now, 2)
      && 2 in end.db.executions && !Terminal(end.db.executions[2].state)
  {
    hide Initial, Next, Run, Assumed, AssumedThroughout, Endings.CanEnd, DeadEnds.Carries, T.DeleteOwner;
    StartIsInitial();
    StepsTo();
    UnhousedIsCarried();
    StrandedExecutions.DeletionCutsOff(SmallStart(), ClaimedAndUnhoused(), 2, 3);
    StrandedExecutions.DeletedAccountStrands(SmallStart(), ClaimedAndUnhoused(), 2, later);
  }
}
