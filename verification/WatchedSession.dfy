/** The watch loop over the tables it watches: what its bound means for a policy or binding that was saved, a grant
 that ended or a deadline that passed, and for the lease it held. */
module WatchedSession {
  import opened Basics
  import opened RequestTables
  import V = RequestInvariant
  import R = RequestRuns
  import P = ConnectionPermit
  import D = PermitRevocation
  import L = SessionLease
  import opened SessionWatch

  /** Something that happens to the tables, and when. */
  datatype Timed = Timed(at: int, event: R.Event)

  ghost predicate InOrder(history: seq<Timed>, now: int) {
    && (forall i :: 0 <= i < |history| ==> now <= history[i].at)
    && (forall i, j :: 0 <= i < j < |history| ==> history[i].at <= history[j].at)
  }

  /** Everything that has happened by instant t, with the time that passed in between. */
  function Trace(now: int, history: seq<Timed>, t: int): seq<R.Event>
    requires now <= t && forall i :: 0 <= i < |history| ==> now <= history[i].at
    requires forall i, j :: 0 <= i < j < |history| ==> history[i].at <= history[j].at
    decreases |history|
  {
    if history == [] || history[0].at > t then [R.Tick(t - now)]
    else [R.Tick(history[0].at - now), history[0].event] + Trace(history[0].at, history[1..], t)
  }

  /** The tables at instant t. */
  ghost function TablesAt(sys: Sys, history: seq<Timed>, t: int): Sys
    requires InOrder(history, sys.now) && sys.now <= t
  {
    R.Run(sys, Trace(sys.now, history, t))
  }

  lemma OneTick(sys: Sys, elapsed: nat)
    ensures R.Run(sys, [R.Tick(elapsed)]) == sys.(now := sys.now + elapsed)
  {
    assert [R.Tick(elapsed)][..0] == [];
    assert R.Run(sys, []) == sys;
  }

  lemma TicksAdd(sys: Sys, a: nat, b: nat)
    ensures R.Run(R.Run(sys, [R.Tick(a)]), [R.Tick(b)]) == R.Run(sys, [R.Tick(a + b)])
  {
    hide R.Run;
    OneTick(sys, a);
    OneTick(R.Run(sys, [R.Tick(a)]), b);
    OneTick(sys, a + b);
  }

  /** The tables at a later instant are reached from those at an earlier one. */
  lemma {:induction false} Continues(sys: Sys, now: int, history: seq<Timed>, s: int, t: int) returns (later: seq<R.Event>)
    requires InOrder(history, now) && now <= s <= t
    ensures R.Run(sys, Trace(now, history, t)) == R.Run(R.Run(sys, Trace(now, history, s)), later)
    decreases |history|
  {
    hide R.Run;
    if history == [] || history[0].at > t {
      later := [R.Tick(t - s)];
      TicksAdd(sys, s - now, t - s);
    } else if history[0].at > s {
      var f, rest := history[0].at, [history[0].event] + Trace(history[0].at, history[1..], t);
      later := [R.Tick(f - s)] + rest;
      assert Trace(now, history, t) == [R.Tick(f - now)] + rest;
      R.RunConcat(sys, [R.Tick(f - now)], rest);
      TicksAdd(sys, s - now, f - s);
      R.RunConcat(R.Run(sys, [R.Tick(s - now)]), [R.Tick(f - s)], rest);
    } else {
      var first := [R.Tick(history[0].at - now), history[0].event];
      later := Continues(R.Run(sys, first), history[0].at, history[1..], s, t);
      R.RunConcat(sys, first, Trace(history[0].at, history[1..], t));
      R.RunConcat(sys, first, Trace(history[0].at, history[1..], s));
    }
  }

  /** Once out of scope for good, out of scope at every later instant. */
  lemma StaysOut(sys: Sys, history: seq<Timed>, c: P.Connection, grants: seq<nat>, deadline: Option<int>, source: bool,
                 lost: int, t: int, laterSource: bool)
    requires V.SysOk(sys) && D.BindingsOk(sys) && InOrder(history, sys.now) && sys.now <= lost <= t
    requires P.InScope(sys, c, grants, deadline, source) && D.Revoked(TablesAt(sys, history, lost), c, grants, deadline)
    ensures !P.InScope(TablesAt(sys, history, t), c, grants, deadline, laterSource)
  {
    hide V.SysOk, D.BindingsOk, P.InScope, D.Revoked, R.Run;
    var later := Continues(sys, sys.now, history, lost, t);
    D.RevocationIsFinal(sys, Trace(sys.now, history, lost), later, c, grants, deadline, source, laterSource);
  }

  /** Whatever happens to the leases after this moment, short of a renewal of this one: within one TTL it is dead. */
  ghost predicate DiesWithin(id: nat, from: int) {
    forall t: L.Table, later: seq<L.Event> ::
      L.TableOk(t) && t.now == from && id in t.leases && NotRenewed(later, id) && L.Run(t, later).now >= from + L.TTL ==>
        id in L.Run(t, later).leases && !L.Live(L.Run(t, later).leases[id], L.Run(t, later).now)
  }

  predicate NotRenewed(events: seq<L.Event>, id: nat) {
    forall k :: 0 <= k < |events| ==> !(events[k].Renewal? && events[k].id == id)
  }

  /** A session under watch, over one timed history of the tables: admitted in scope at `sys.now`, it is ended within one
   check, one sleep and one check of the moment its policy or binding changed, a grant it lists ended or its deadline
   passed; and the lease that nobody renews any more is dead one TTL later. */
  method WatchTables(start: int, deadline: Option<int>, admitted: Option<int>, authority: int -> bool, rounds: seq<Round>,
                     ghost sys: Sys, ghost history: seq<Timed>, ghost c: P.Connection, ghost grants: seq<nat>, ghost source: int -> bool,
                     ghost revoked: int, ghost lag: nat, ghost lease: nat)
    returns (at: int, why: Why)
    requires TimelyWithin(rounds, lag) && V.SysOk(sys) && D.BindingsOk(sys) && InOrder(history, sys.now) && sys.now <= revoked
    requires P.InScope(sys, c, grants, deadline, source(sys.now))
    requires forall t :: authority(t) && t >= sys.now ==> P.InScope(TablesAt(sys, history, t), c, grants, deadline, source(t))
    requires D.Revoked(TablesAt(sys, history, revoked), c, grants, deadline)
    ensures at <= Max(start, revoked + CHECK + INTERVAL + lag) + CHECK + lag
    ensures deadline.Some? ==> at <= Max(start, deadline.value + lag) + lag
    ensures DiesWithin(lease, at)
  {
    hide V.SysOk, D.BindingsOk, P.InScope, D.Revoked, TablesAt;
    forall t | t >= revoked ensures !authority(t) {
      StaysOut(sys, history, c, grants, deadline, source(sys.now), revoked, t, source(t));
    }
    var last;
    ghost var readAt;
    at, why, last, readAt := Watch(start, deadline, admitted, authority, rounds, revoked, lag);
    forall t: L.Table, later: seq<L.Event> | L.TableOk(t) && t.now == at && lease in t.leases && NotRenewed(later, lease)
      ensures lease in L.Run(t, later).leases
      ensures L.Run(t, later).now >= at + L.TTL ==> !L.Live(L.Run(t, later).leases[lease], L.Run(t, later).now)
    {
      L.AbandonedLeaseDies(t, later, lease);
    }
  }
}
