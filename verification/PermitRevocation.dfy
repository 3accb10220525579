/** A permit that lost its policy, its binding, a grant or its time never comes back into scope, whatever happens afterwards. */
module PermitRevocation {
  import opened Basics
  import T = Tables
  import opened RequestTables
  import S = RequestSpec
  import V = RequestInvariant
  import R = RequestRuns
  import P = ConnectionPermit

  /** The policy that was in force under this id and revision is not, and never will be again. */
  predicate PolicyGone(sys: Sys, scope: PolicyScope, id: nat, revision: nat) {
    && 0 < id < sys.nextPolicy
    && (scope in sys.policies ==> sys.policies[scope].id > id || (sys.policies[scope].id == id && sys.policies[scope].revision > revision))
  }

  /** The policy in force is still this one. */
  predicate PolicyHolds(sys: Sys, scope: PolicyScope, id: nat, revision: nat) {
    scope in sys.policies && sys.policies[scope].id == id && sys.policies[scope].revision == revision
  }

  predicate PolicyEvent(e: R.Event) {
    e.SavePolicy? || e.SaveViewSettings? || e.EnsureViewPolicy? || e.RemoveManagement?
  }

  lemma OthersKeepPolicies(sys: Sys, e: R.Event)
    requires !PolicyEvent(e)
    ensures R.Step(sys, e).policies == sys.policies && R.Step(sys, e).nextPolicy == sys.nextPolicy && sys.now <= R.Step(sys, e).now
  {
    hide S.Supersede, S.Settle, S.ScopeCurrent, S.KeyTaken, S.NewRequest;
  }

  /** No event moves a policy row but forward, and a new row never takes a used id. */
  lemma StepMovesPolicy(sys: Sys, e: R.Event, scope: PolicyScope, id: nat, revision: nat)
    requires V.PoliciesOk(sys)
    ensures sys.now <= R.Step(sys, e).now
    ensures PolicyGone(sys, scope, id, revision) ==> PolicyGone(R.Step(sys, e), scope, id, revision)
    ensures PolicyHolds(sys, scope, id, revision) ==>
      PolicyHolds(R.Step(sys, e), scope, id, revision) || PolicyGone(R.Step(sys, e), scope, id, revision)
  {
    hide S.SweepPolicy, S.SweepViews, S.SweepRemoval;
    if !PolicyEvent(e) {
      OthersKeepPolicies(sys, e);
      hide R.Step;
    }
  }

  lemma {:induction false} RunMovesPolicy(sys: Sys, events: seq<R.Event>, scope: PolicyScope, id: nat, revision: nat)
    requires V.SysOk(sys)
    ensures sys.now <= R.Run(sys, events).now
    ensures PolicyGone(sys, scope, id, revision) ==> PolicyGone(R.Run(sys, events), scope, id, revision)
    ensures PolicyHolds(sys, scope, id, revision) ==>
      PolicyHolds(R.Run(sys, events), scope, id, revision) || PolicyGone(R.Run(sys, events), scope, id, revision)
  {
    hide R.Step, PolicyGone, PolicyHolds, V.RowsOk, V.PoliciesOk, V.KeysUnique;
    if events != [] {
      var before := events[..|events| - 1];
      RunMovesPolicy(sys, before, scope, id, revision);
      R.RunKeeps(sys, before);
      StepMovesPolicy(R.Run(sys, before), events[|events| - 1], scope, id, revision);
    }
  }

  // ---- Bindings ----

  /** Ids of bindings are used in order. */
  ghost predicate BindingsOk(sys: Sys) {
    sys.nextBinding != 0 && forall b :: b in sys.bindings ==> 0 < sys.bindings[b].id < sys.nextBinding
  }

  predicate SameBinding(sys: Sys, key: (nat, nat), id: nat, revision: nat) {
    key in sys.bindings && sys.bindings[key].id == id && sys.bindings[key].revision == revision && sys.bindings[key].assetExists
  }

  /** The binding with this id and revision is gone, revised or without its asset, and always will be. */
  predicate BindingGone(sys: Sys, key: (nat, nat), id: nat, revision: nat) {
    && 0 < id < sys.nextBinding
    && (key in sys.bindings ==> var b := sys.bindings[key]; b.id > id || (b.id == id && (b.revision > revision || !b.assetExists)))
  }

  predicate BindingEvent(e: R.Event) {
    e.SetBinding? || e.DropBinding? || e.RemoveManagement?
  }

  lemma OthersKeepBindings(sys: Sys, e: R.Event)
    requires !BindingEvent(e)
    ensures R.Step(sys, e).bindings == sys.bindings && R.Step(sys, e).nextBinding == sys.nextBinding
  {
    hide S.Supersede, S.Settle, S.ScopeCurrent, S.KeyTaken, S.NewRequest;
  }

  lemma StepMovesBinding(sys: Sys, e: R.Event, key: (nat, nat), id: nat, revision: nat)
    requires BindingsOk(sys)
    ensures BindingsOk(R.Step(sys, e)) && sys.nextBinding <= R.Step(sys, e).nextBinding
    ensures BindingGone(sys, key, id, revision) ==> BindingGone(R.Step(sys, e), key, id, revision)
    ensures SameBinding(sys, key, id, revision) ==>
      SameBinding(R.Step(sys, e), key, id, revision) || BindingGone(R.Step(sys, e), key, id, revision)
  {
    hide R.Step;
    if e.SetBinding? {
      assert R.Step(sys, e) == S.SetBinding(sys, e.asset, e.account, e.binding).sys by { StepSets(sys, e); }
    } else {
      StepDropsBindings(sys, e);
    }
  }

  lemma StepSets(sys: Sys, e: R.Event)
    requires e.SetBinding?
    ensures R.Step(sys, e) == S.SetBinding(sys, e.asset, e.account, e.binding).sys
  {
  }

  /** Whatever else happens, at most bindings disappear. */
  lemma StepDropsBindings(sys: Sys, e: R.Event)
    requires !e.SetBinding?
    ensures R.Step(sys, e).nextBinding == sys.nextBinding
    ensures forall b :: b in R.Step(sys, e).bindings ==> b in sys.bindings && R.Step(sys, e).bindings[b] == sys.bindings[b]
  {
    hide S.SweepRemoval;
    if !BindingEvent(e) {
      OthersKeepBindings(sys, e);
      hide R.Step;
    }
  }

  lemma {:induction false} RunMovesBinding(sys: Sys, events: seq<R.Event>, key: (nat, nat), id: nat, revision: nat)
    requires BindingsOk(sys)
    ensures BindingsOk(R.Run(sys, events)) && sys.nextBinding <= R.Run(sys, events).nextBinding
    ensures BindingGone(sys, key, id, revision) ==> BindingGone(R.Run(sys, events), key, id, revision)
    ensures SameBinding(sys, key, id, revision) ==>
      SameBinding(R.Run(sys, events), key, id, revision) || BindingGone(R.Run(sys, events), key, id, revision)
  {
    hide R.Step, BindingsOk, BindingGone, SameBinding;
    if events != [] {
      var before := events[..|events| - 1];
      RunMovesBinding(sys, before, key, id, revision);
      StepMovesBinding(R.Run(sys, before), events[|events| - 1], key, id, revision);
    }
  }

  // ---- The first policy of an account ----

  /** The account has got a policy, or it had one and lost with it this binding. */
  predicate FirstPolicySaved(sys: Sys, key: (nat, nat), id: nat, revision: nat) {
    AccountPolicy(key.1) in sys.policies || BindingGone(sys, key, id, revision)
  }

  /** A policy row only goes with all bindings of its account. */
  lemma StepKeepsFirstPolicy(sys: Sys, e: R.Event, key: (nat, nat), id: nat, revision: nat)
    requires BindingsOk(sys) && 0 < id < sys.nextBinding && FirstPolicySaved(sys, key, id, revision)
    ensures FirstPolicySaved(R.Step(sys, e), key, id, revision)
  {
    hide S.SweepPolicy, S.SweepViews, S.SweepRemoval, BindingsOk;
    if BindingGone(sys, key, id, revision) {
      hide R.Step, BindingGone;
      StepMovesBinding(sys, e, key, id, revision);
    } else if !PolicyEvent(e) {
      OthersKeepPolicies(sys, e);
      hide R.Step;
    }
  }

  lemma {:induction false} RunKeepsFirstPolicy(sys: Sys, events: seq<R.Event>, key: (nat, nat), id: nat, revision: nat)
    requires BindingsOk(sys) && 0 < id < sys.nextBinding && FirstPolicySaved(sys, key, id, revision)
    ensures FirstPolicySaved(R.Run(sys, events), key, id, revision)
  {
    hide R.Step, BindingsOk, FirstPolicySaved;
    if events != [] {
      var before := events[..|events| - 1];
      RunKeepsFirstPolicy(sys, before, key, id, revision);
      RunMovesBinding(sys, before, key, id, revision);
      StepKeepsFirstPolicy(R.Run(sys, before), events[|events| - 1], key, id, revision);
    }
  }

  // ---- Grants ----

  /** The grant has started, and has ended: closed, revoked or run out. */
  predicate GrantOver(sys: Sys, id: nat) {
    && id in sys.requests && sys.requests[id].grant.at.Some? && sys.requests[id].grant.until.Some?
    && (Ended(sys.requests[id].state) || sys.now >= sys.requests[id].grant.until.value)
  }

  /** A grant once active for a connection is active, or over; one that is over stays over. */
  lemma {:induction false} GrantActiveOrOver(sys: Sys, events: seq<R.Event>, id: nat, c: P.Connection)
    requires V.SysOk(sys)
    ensures P.GrantActive(sys, id, c) ==> P.GrantActive(R.Run(sys, events), id, c) || GrantOver(R.Run(sys, events), id)
    ensures GrantOver(sys, id) ==> GrantOver(R.Run(sys, events), id)
  {
    var after := R.Run(sys, events);
    R.RunKeeps(sys, events);
    RunMovesPolicy(sys, events, ViewPolicy, 0, 0);
    if id in sys.requests {
      V.RowIsOk(after, id);
      assert V.RowLater(sys.requests[id], after.requests[id]);
      hide V.SysOk, V.RowsLater, R.Run, V.GrantBacked;
    }
  }

  // ---- Permits ----

  predicate PolicyDiffers(sys: Sys, c: P.Connection) {
    P.CurrentPolicy(sys, c.account).id != c.policy || P.CurrentPolicy(sys, c.account).revision != c.policyRevision
  }

  /** Why a permit can be out of scope for good: another policy than it was given under, the first one included, its
   binding reviewed, reconfigured or removed or the asset deleted, a listed grant over, or its deadline passed. */
  ghost predicate Revoked(sys: Sys, c: P.Connection, grants: seq<nat>, deadline: Option<int>) {
    || PolicyDiffers(sys, c)
    || !SameBinding(sys, (c.asset, c.account), c.binding, c.bindingRevision)
    || (exists g :: g in grants && !P.GrantActive(sys, g, c))
    || P.Passed(deadline, sys.now)
  }

  lemma ScopeParts(sys: Sys, c: P.Connection, grants: seq<nat>, deadline: Option<int>, source: bool)
    requires P.InScope(sys, c, grants, deadline, source)
    ensures !PolicyDiffers(sys, c) && SameBinding(sys, (c.asset, c.account), c.binding, c.bindingRevision)
    ensures !P.Passed(deadline, sys.now) && forall g :: g in grants ==> P.GrantActive(sys, g, c)
  {
  }

  /** Once the policy differs, either it still does at every later moment or the binding is gone. */
  lemma PolicyStaysDifferent(sys: Sys, between: seq<R.Event>, later: seq<R.Event>, c: P.Connection)
    requires V.SysOk(sys) && BindingsOk(sys) && !PolicyDiffers(sys, c)
    requires SameBinding(sys, (c.asset, c.account), c.binding, c.bindingRevision)
    requires PolicyDiffers(R.Run(sys, between), c)
    ensures var end := R.Run(R.Run(sys, between), later);
      PolicyDiffers(end, c) || !SameBinding(end, (c.asset, c.account), c.binding, c.bindingRevision)
  {
    hide V.RowsOk, V.KeysUnique, R.Run;
    var scope, key := AccountPolicy(c.account), (c.asset, c.account);
    var middle := R.Run(sys, between);
    R.RunKeeps(sys, between);
    R.RunKeeps(middle, later);
    if c.policy != 0 {
      RunMovesPolicy(sys, between, scope, c.policy, c.policyRevision);
      RunMovesPolicy(middle, later, scope, c.policy, c.policyRevision);
    } else {
      RunMovesBinding(sys, between, key, c.binding, c.bindingRevision);
      RunKeepsFirstPolicy(middle, later, key, c.binding, c.bindingRevision);
    }
  }

  lemma BindingStaysGone(sys: Sys, between: seq<R.Event>, later: seq<R.Event>, key: (nat, nat), id: nat, revision: nat)
    requires BindingsOk(sys) && SameBinding(sys, key, id, revision) && !SameBinding(R.Run(sys, between), key, id, revision)
    ensures !SameBinding(R.Run(R.Run(sys, between), later), key, id, revision)
  {
    hide R.Run, BindingsOk;
    RunMovesBinding(sys, between, key, id, revision);
    RunMovesBinding(R.Run(sys, between), later, key, id, revision);
  }

  /** From a moment at which the permit was in scope: once its policy or its binding has changed, a listed grant has
   ended or its deadline has passed, the check fails at every later moment. */
  lemma {:induction false} RevocationIsFinal(sys: Sys, between: seq<R.Event>, later: seq<R.Event>, c: P.Connection, grants: seq<nat>,
                                             deadline: Option<int>, source: bool, laterSource: bool)
    requires V.SysOk(sys) && BindingsOk(sys) && P.InScope(sys, c, grants, deadline, source)
    requires Revoked(R.Run(sys, between), c, grants, deadline)
    ensures !P.InScope(R.Run(R.Run(sys, between), later), c, grants, deadline, laterSource)
  {
    hide V.SysOk, R.Run, P.GrantActive, P.InScope, BindingsOk, SameBinding, PolicyDiffers;
    var middle := R.Run(sys, between);
    var end := R.Run(middle, later);
    R.RunKeeps(sys, between);
    ScopeParts(sys, c, grants, deadline, source);
    if P.InScope(end, c, grants, deadline, laterSource) {
      ScopeParts(end, c, grants, deadline, laterSource);
      RunMovesPolicy(middle, later, ViewPolicy, 0, 0);
      if PolicyDiffers(middle, c) {
        PolicyStaysDifferent(sys, between, later, c);
      } else if !SameBinding(middle, (c.asset, c.account), c.binding, c.bindingRevision) {
        BindingStaysGone(sys, between, later, (c.asset, c.account), c.binding, c.bindingRevision);
      } else if g :| g in grants && !P.GrantActive(middle, g, c) {
        GrantActiveOrOver(sys, between, g, c);
        GrantActiveOrOver(middle, later, g, c);
        OverIsNotActive(end, g, c);
      }
    }
  }

  lemma OverIsNotActive(sys: Sys, id: nat, c: P.Connection)
    requires GrantOver(sys, id)
    ensures !P.GrantActive(sys, id, c)
  {
  }
}
