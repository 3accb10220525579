/** Session leases: a capacity-limited allocator whose leases die of their own accord unless they are renewed. */
module SessionLease {
  import opened Basics

  const TTL := 45 * SECOND

  datatype Lease = Lease(session: nat, owner: nat, uid: int, asset: nat, account: nat, active: bool, until: int, deadline: Option<int>)

  /** `limits` and `minutes` are MaxSessions and MaxSessionMinutes of the owner's policy, `recorded` the session history. */
  datatype Table = Table(leases: map<nat, Lease>, recorded: set<nat>, limits: map<nat, nat>, minutes: map<nat, nat>, now: int)

  datatype Error = BadInput | Denied | Conflict | Capacity

  datatype Reply = Ok | Refused(error: Error)

  datatype Commit = Commit(table: Table, reply: Reply)

  predicate Live(lease: Lease, now: int) {
    lease.active && lease.until > now && (lease.deadline.None? || lease.deadline.value > now)
  }

  function LiveOf(t: Table, owner: nat): set<nat> {
    set id | id in t.leases && t.leases[id].owner == owner && Live(t.leases[id], t.now)
  }

  function LimitOf(t: Table, owner: nat): nat {
    if owner in t.limits then t.limits[owner] else 0
  }

  function MinutesOf(t: Table, owner: nat): nat {
    if owner in t.minutes then t.minutes[owner] else 0
  }

  predicate SessionKnown(t: Table, session: nat) {
    session in t.recorded || exists id | id in t.leases :: t.leases[id].session == session
  }

  datatype Applicant = Applicant(owner: nat, uid: int, asset: nat, account: nat, deadline: Option<int>)

  /** The deadline of a new lease: the earlier of the permit's own and the policy's longest session. */
  function Shorten(t: Table, a: Applicant): (r: Option<int>)
    ensures r.None? <==> a.deadline.None? && MinutesOf(t, a.owner) == 0
    ensures a.deadline.Some? ==> r.value <= a.deadline.value
    ensures MinutesOf(t, a.owner) > 0 ==> r.value <= t.now + MinutesOf(t, a.owner) * MINUTE
    ensures r.Some? ==> r == a.deadline || (MinutesOf(t, a.owner) > 0 && r.value == t.now + MinutesOf(t, a.owner) * MINUTE)
  {
    var minutes := MinutesOf(t, a.owner);
    var limit := t.now + minutes * MINUTE;
    if minutes > 0 && (a.deadline.None? || limit < a.deadline.value) then Some(limit) else a.deadline
  }

  /** AdmitPAMConnection; `inScope` is the outcome of the identity and scope checks at this instant. */
  function Admit(t: Table, session: nat, a: Applicant, inScope: bool, newId: nat): Commit {
    if session == 0 || newId == 0 || newId in t.leases then Commit(t, Refused(BadInput))
    else if !inScope then Commit(t, Refused(Denied))
    else if SessionKnown(t, session) then Commit(t, Refused(Conflict))
    else if LimitOf(t, a.owner) > 0 && |LiveOf(t, a.owner)| >= LimitOf(t, a.owner) then Commit(t, Refused(Capacity))
    else
      var lease := Lease(session, a.owner, a.uid, a.asset, a.account, true, t.now + TTL, Shorten(t, a));
      Commit(t.(leases := t.leases[newId := lease]), Ok)
  }

  predicate HeldBy(t: Table, id: nat, owner: nat, uid: int) {
    id in t.leases && t.leases[id].owner == owner && t.leases[id].uid == uid
  }

  /** renewPAMSessionLease at one instant. */
  function Renew(t: Table, id: nat, owner: nat, uid: int): Commit {
    if HeldBy(t, id, owner, uid) && Live(t.leases[id], t.now) then
      Commit(t.(leases := t.leases[id := t.leases[id].(until := t.now + TTL)]), Ok)
    else Commit(t, Refused(Denied))
  }

  /** ReleasePAMConnection */
  function Release(t: Table, id: nat, owner: nat, uid: int): Commit {
    if HeldBy(t, id, owner, uid) && t.leases[id].active then
      Commit(t.(leases := t.leases[id := t.leases[id].(active := false, until := t.now)]), Ok)
    else Commit(t, Ok)
  }

  datatype Event =
    | Admission(session: nat, applicant: Applicant, inScope: bool, newId: nat)
    | Renewal(id: nat, owner: nat, uid: int)
    | Departure(id: nat, owner: nat, uid: int)
    | SetLimits(owner: nat, sessions: nat, minutes: nat)
    | Record(session: nat)
    | Tick(elapsed: nat)

  function Perform(t: Table, e: Event): Commit {
    match e
    case Admission(session, applicant, inScope, newId) => Admit(t, session, applicant, inScope, newId)
    case Renewal(id, owner, uid) => Renew(t, id, owner, uid)
    case Departure(id, owner, uid) => Release(t, id, owner, uid)
    case SetLimits(owner, sessions, minutes) =>
      Commit(t.(limits := t.limits[owner := sessions], minutes := t.minutes[owner := minutes]), Ok)
    case Record(session) => Commit(t.(recorded := t.recorded + {session}), Ok)
    case Tick(elapsed) => Commit(t.(now := t.now + elapsed), Ok)
  }

  function Run(t: Table, events: seq<Event>): Table {
    if events == [] then t else Perform(Run(t, events[..|events| - 1]), events[|events| - 1]).table
  }

  // ---- One step ----

  /** No lease is promised more than one TTL from now, and a session has at most one lease. */
  ghost predicate TableOk(t: Table) {
    && (forall id :: id in t.leases ==> t.leases[id].until <= t.now + TTL)
    && (forall a, b :: a in t.leases && b in t.leases && t.leases[a].session == t.leases[b].session ==> a == b)
  }

  lemma StepKeepsTable(t: Table, e: Event)
    requires TableOk(t)
    ensures TableOk(Perform(t, e).table)
  {
  }

  /** Nothing but an admission adds a live lease, and no lease ever disappears from the table. */
  lemma StepBringsNoneBack(t: Table, e: Event, id: nat)
    requires id in t.leases
    ensures id in Perform(t, e).table.leases && t.now <= Perform(t, e).table.now
    ensures Perform(t, e).table.leases[id] ==
      t.leases[id].(active := Perform(t, e).table.leases[id].active, until := Perform(t, e).table.leases[id].until)
    ensures Live(Perform(t, e).table.leases[id], Perform(t, e).table.now) ==> Live(t.leases[id], t.now)
  {
  }

  predicate KeepsLimit(e: Event, owner: nat) {
    !(e.SetLimits? && e.owner == owner)
  }

  lemma StepWithinCapacity(t: Table, e: Event, owner: nat)
    requires LimitOf(t, owner) > 0 && KeepsLimit(e, owner)
    ensures var after := Perform(t, e).table;
      && LimitOf(after, owner) == LimitOf(t, owner)
      && |LiveOf(after, owner)| <= (if |LiveOf(t, owner)| < LimitOf(t, owner) then LimitOf(t, owner) else |LiveOf(t, owner)|)
  {
    var after := Perform(t, e).table;
    if e.Admission? && after != t && e.applicant.owner == owner {
      assert LiveOf(after, owner) <= LiveOf(t, owner) + {e.newId};
      SubsetSameSize(LiveOf(after, owner), LiveOf(t, owner) + {e.newId});
    } else {
      forall id | id in LiveOf(after, owner)
        ensures id in LiveOf(t, owner)
      {
        if id in t.leases {
          StepBringsNoneBack(t, e, id);
        }
      }
      SubsetSameSize(LiveOf(after, owner), LiveOf(t, owner));
    }
  }

  // ---- Whole runs ----

  /** Once a limit is in force, the live leases of an owner never exceed it, or the number live at that moment. */
  lemma {:induction false} CapacityHolds(t: Table, events: seq<Event>, owner: nat)
    requires LimitOf(t, owner) > 0
    requires forall k :: 0 <= k < |events| ==> KeepsLimit(events[k], owner)
    ensures LimitOf(Run(t, events), owner) == LimitOf(t, owner)
    ensures var most := if |LiveOf(t, owner)| < LimitOf(t, owner) then LimitOf(t, owner) else |LiveOf(t, owner)|;
      |LiveOf(Run(t, events), owner)| <= most
  {
    hide LiveOf, Perform;
    if events != [] {
      CapacityHolds(t, events[..|events| - 1], owner);
      StepWithinCapacity(Run(t, events[..|events| - 1]), events[|events| - 1], owner);
    }
  }

  /** A dead lease is dead for good, and every lease stays with its session, owner and deadline. */
  lemma {:induction false} DeadStaysDead(t: Table, events: seq<Event>, id: nat)
    requires id in t.leases
    ensures var after := Run(t, events);
      && id in after.leases && t.now <= after.now
      && after.leases[id] == t.leases[id].(active := after.leases[id].active, until := after.leases[id].until)
      && (Live(after.leases[id], after.now) ==> Live(t.leases[id], t.now))
  {
    hide Perform, Live;
    if events != [] {
      DeadStaysDead(t, events[..|events| - 1], id);
      StepBringsNoneBack(Run(t, events[..|events| - 1]), events[|events| - 1], id);
    }
  }

  predicate Admits(t: Table, e: Event, session: nat) {
    e.Admission? && e.session == session && Perform(t, e).reply.Ok?
  }

  /** A session id is admitted at most once in any run, and never again after that. */
  lemma AdmittedAtMostOnce(t: Table, events: seq<Event>, i: nat, j: nat, session: nat)
    requires i < |events| && j < |events|
    requires Admits(Run(t, events[..i]), events[i], session) && Admits(Run(t, events[..j]), events[j], session)
    ensures i == j
  {
    if i < j {
      AdmittedOnce(t, events, i, j, session);
    } else if j < i {
      AdmittedOnce(t, events, j, i, session);
    }
  }

  lemma AdmittedOnce(t: Table, events: seq<Event>, i: nat, j: nat, session: nat)
    requires i < j < |events| && Admits(Run(t, events[..i]), events[i], session)
    ensures !Admits(Run(t, events[..j]), events[j], session)
  {
    var admitted := Run(t, events[..i + 1]);
    assert events[..i + 1][..i] == events[..i];
    assert admitted == Perform(Run(t, events[..i]), events[i]).table;
    var id := events[i].newId;
    assert admitted.leases[id].session == session;
    assert events[..j] == events[..i + 1] + events[i + 1..j];
    RunConcat(t, events[..i + 1], events[i + 1..j]);
    DeadStaysDead(admitted, events[i + 1..j], id);
    assert Run(t, events[..j]).leases[id].session == session;
  }

  lemma {:induction false} RunConcat(t: Table, a: seq<Event>, b: seq<Event>)
    ensures Run(t, a + b) == Run(Run(t, a), b)
  {
    hide Perform;
    if b == [] {
      assert a + b == a;
    } else {
      assert (a + b)[..|a + b| - 1] == a + b[..|b| - 1];
      RunConcat(t, a, b[..|b| - 1]);
    }
  }

  lemma {:induction false} RunKeepsTable(t: Table, events: seq<Event>)
    requires TableOk(t)
    ensures TableOk(Run(t, events))
  {
    hide Perform, TableOk;
    if events != [] {
      RunKeepsTable(t, events[..|events| - 1]);
      StepKeepsTable(Run(t, events[..|events| - 1]), events[|events| - 1]);
    }
  }

  /** The lease of a watcher that died is given back within one TTL, whatever else happens. */
  lemma {:induction false} AbandonedLeaseDies(t: Table, events: seq<Event>, id: nat)
    requires TableOk(t) && id in t.leases
    requires forall k :: 0 <= k < |events| ==> !(events[k].Renewal? && events[k].id == id)
    ensures id in Run(t, events).leases
    ensures Run(t, events).leases[id].active ==> Run(t, events).leases[id].until <= t.now + TTL
    ensures Run(t, events).now >= t.now + TTL ==> !Live(Run(t, events).leases[id], Run(t, events).now)
  {
    hide SessionKnown, LiveOf, Shorten;
    if events != [] {
      AbandonedLeaseDies(t, events[..|events| - 1], id);
    }
  }

  // ---- When there is a place ----

  /** No lease and no recorded session has this id. */
  predicate NeverSeen(t: Table, session: nat) {
    session !in t.recorded && forall id :: id in t.leases ==> t.leases[id].session != session
  }

  /** No limit, or fewer live leases than it allows. */
  predicate HasPlace(t: Table, owner: nat) {
    owner in t.limits && t.limits[owner] > 0 ==> |LiveOf(t, owner)| < t.limits[owner]
  }

  /** Who is admitted: exactly a new session in scope of an account with a place; who is not, and why. */
  lemma AdmittedExactly(t: Table, session: nat, a: Applicant, inScope: bool, newId: nat)
    ensures var reply := Admit(t, session, a, inScope, newId).reply;
      var wellFormed := session != 0 && newId != 0 && newId !in t.leases;
      && (reply.Ok? <==> wellFormed && inScope && NeverSeen(t, session) && HasPlace(t, a.owner))
      && (reply == Refused(BadInput) <==> !wellFormed)
      && (reply == Refused(Denied) <==> wellFormed && !inScope)
      && (reply == Refused(Conflict) <==> wellFormed && inScope && !NeverSeen(t, session))
      && (reply == Refused(Capacity) <==> wellFormed && inScope && NeverSeen(t, session) && !HasPlace(t, a.owner))
  {
  }

  /** What an admission does: one lease more, for one TTL and no longer than permit and policy allow, ... */
  lemma AdmissionAddsOneLease(t: Table, session: nat, a: Applicant, inScope: bool, newId: nat)
    ensures var c := Admit(t, session, a, inScope, newId);
      && (c.reply.Refused? ==> c.table == t)
      && (c.reply.Ok? ==>
            && newId !in t.leases
            && c.table == t.(leases := t.leases[newId :=
                 Lease(session, a.owner, a.uid, a.asset, a.account, true, t.now + TTL, Shorten(t, a))]))
  {
    hide Shorten;
  }

  /** ... which takes one place of its owner and none of anybody else. */
  lemma {:induction false} AdmissionTakesOnePlace(t: Table, session: nat, a: Applicant, inScope: bool, newId: nat, owner: nat)
    requires Admit(t, session, a, inScope, newId).reply.Ok?
    ensures LiveOf(Admit(t, session, a, inScope, newId).table, owner) == LiveOf(t, owner) +
      (if owner != a.owner || (Shorten(t, a).Some? && Shorten(t, a).value <= t.now) then {} else {newId})
  {
    AdmissionAddsOneLease(t, session, a, inScope, newId);
    hide Admit, Shorten;
    var after := Admit(t, session, a, inScope, newId).table;
    var added := owner == a.owner && (Shorten(t, a).Some? ==> t.now < Shorten(t, a).value);
    assert forall id :: id in LiveOf(after, owner) <==> (id in LiveOf(t, owner) || (id == newId && added));
  }

  /** A renewal succeeds exactly for the holder of a live lease, which then runs for another TTL; nothing else changes. */
  lemma RenewedExactly(t: Table, id: nat, owner: nat, uid: int)
    ensures var c := Renew(t, id, owner, uid);
      && (c.reply.Ok? <==>
            && id in t.leases && t.leases[id].owner == owner && t.leases[id].uid == uid && t.leases[id].active
            && t.now < t.leases[id].until && (t.leases[id].deadline.Some? ==> t.now < t.leases[id].deadline.value))
      && (c.reply.Ok? ==>
            c.table == t.(leases := c.table.leases) && c.table.leases == t.leases[id := t.leases[id].(until := t.now + TTL)])
      && (!c.reply.Ok? ==> c == Commit(t, Refused(Denied)))
  {
  }

  /** A release by the holder gives back exactly this place, at once; anybody else's changes nothing. */
  lemma {:induction false} ReleaseFreesThePlace(t: Table, id: nat, owner: nat, uid: int)
    ensures var after := Release(t, id, owner, uid).table;
      var mine := id in t.leases && t.leases[id].owner == owner && t.leases[id].uid == uid;
      && (mine ==> (forall o :: LiveOf(after, o) == LiveOf(t, o) - {id}) && !Live(after.leases[id], t.now))
      && (mine && t.leases[id].active ==> after.leases[id].until == t.now)
      && (!mine ==> after == t)
      && after == t.(leases := after.leases) && after.leases.Keys == t.leases.Keys
      && (forall other :: other in t.leases && other != id ==> after.leases[other] == t.leases[other])
      && Release(t, id, owner, uid).reply.Ok?
  {
    var after := Release(t, id, owner, uid).table;
    if id in t.leases && t.leases[id].owner == owner && t.leases[id].uid == uid {
      forall o
        ensures LiveOf(after, o) == LiveOf(t, o) - {id}
      {
        assert forall i :: i in LiveOf(after, o) <==> i in LiveOf(t, o) && i != id;
      }
    }
  }

  predicate BringsNobody(e: Event, owner: nat) {
    !(e.Admission? && e.applicant.owner == owner) && KeepsLimit(e, owner)
  }

  lemma {:induction false} NobodyNew(t: Table, events: seq<Event>, owner: nat)
    requires forall k :: 0 <= k < |events| ==> BringsNobody(events[k], owner)
    ensures LiveOf(Run(t, events), owner) <= LiveOf(t, owner) && LimitOf(Run(t, events), owner) == LimitOf(t, owner)
    ensures t.now <= Run(t, events).now
  {
    hide Live, SessionKnown, Shorten;
    if events != [] {
      var before, last := Run(t, events[..|events| - 1]), events[|events| - 1];
      NobodyNew(t, events[..|events| - 1], owner);
      forall id | id in LiveOf(Run(t, events), owner)
        ensures id in LiveOf(before, owner)
      {
        if id in before.leases { StepBringsNoneBack(before, last, id); }
      }
    }
  }

  /** A place is never lost: where the limit was kept and one of the live leases has died since, by release, neglect or
   deadline, the next new session in scope is admitted. */
  lemma {:induction false} FreedPlaceIsGiven(t: Table, events: seq<Event>, id: nat, session: nat, a: Applicant, newId: nat)
    requires |LiveOf(t, a.owner)| <= LimitOf(t, a.owner)
    requires forall k :: 0 <= k < |events| ==> BringsNobody(events[k], a.owner)
    requires id in LiveOf(t, a.owner) && id !in LiveOf(Run(t, events), a.owner)
    requires var now := Run(t, events); session != 0 && newId != 0 && newId !in now.leases && NeverSeen(now, session)
    ensures Admit(Run(t, events), session, a, true, newId).reply.Ok?
  {
    hide LiveOf;
    NobodyNew(t, events, a.owner);
    SubsetSameSize(LiveOf(Run(t, events), a.owner), LiveOf(t, a.owner));
    AdmittedExactly(Run(t, events), session, a, true, newId);
  }

  predicate LeavesAlone(e: Event, lease: Lease, id: nat) {
    !(e.Departure? && e.id == id && e.owner == lease.owner && e.uid == lease.uid)
  }

  /** A live lease outlives everything but its release, its deadline and a TTL without renewal. */
  lemma {:induction false} RenewedStaysLive(t: Table, events: seq<Event>, id: nat)
    requires TableOk(t) && id in t.leases && t.leases[id].active
    requires forall k :: 0 <= k < |events| ==> LeavesAlone(events[k], t.leases[id], id)
    ensures var after := Run(t, events);
      && id in after.leases && after.leases[id].active && t.leases[id].until <= after.leases[id].until
      && (after.now < t.leases[id].until && (t.leases[id].deadline.Some? ==> after.now < t.leases[id].deadline.value) ==>
            Live(after.leases[id], after.now))
  {
    hide SessionKnown, LiveOf, Shorten, TableOk, Perform;
    DeadStaysDead(t, events, id);
    if events != [] {
      var n := |events| - 1;
      RenewedStaysLive(t, events[..n], id);
      DeadStaysDead(t, events[..n], id);
      RunKeepsTable(t, events[..n]);
      StepLeavesAlone(Run(t, events[..n]), events[n], id);
    }
  }

  lemma StepLeavesAlone(t: Table, e: Event, id: nat)
    requires TableOk(t) && id in t.leases && t.leases[id].active && LeavesAlone(e, t.leases[id], id)
    ensures var after := Perform(t, e).table;
      id in after.leases && after.leases[id].active && t.leases[id].until <= after.leases[id].until
  {
    hide SessionKnown, LiveOf, Shorten;
  }
}
