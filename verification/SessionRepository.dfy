/** The session lease table as the backend has it, and the permit fields that admission and renewal assign. */
module SessionRepository {
  import opened Basics
  import L = SessionLease
  import P = ConnectionPermit

  class LeaseStore {
    var leases: map<nat, L.Lease>
    var recorded: set<nat>
    var limits: map<nat, nat>
    var minutes: map<nat, nat>
    var now: int

    ghost function Contents(): L.Table
      reads this
    {
      L.Table(leases, recorded, limits, minutes, now)
    }

    constructor ()
      ensures Contents() == L.Table(map[], {}, map[], map[], 0)
    {
      leases, recorded, limits, minutes, now := map[], {}, map[], map[], 0;
    }

    /** AdmitPAMConnection: one transaction, then the permit receives its lease. A refusal leaves both as they were. */
    method Admit(session: nat, permit: P.Permit, inScope: bool, newId: nat) returns (reply: L.Reply)
      modifies this`leases, permit`lease, permit`leaseUntil, permit`deadline
      ensures var c := permit.connection;
        var a := L.Applicant(c.account, c.uid, c.asset, c.account, old(permit.deadline));
        && (old(permit.lease) != 0 ==> reply == L.Refused(L.BadInput) && Contents() == old(Contents()))
        && (old(permit.lease) == 0 ==> L.Commit(Contents(), reply) == L.Admit(old(Contents()), session, a, inScope, newId))
      ensures reply.Refused? ==>
        permit.lease == old(permit.lease) && permit.leaseUntil == old(permit.leaseUntil) && permit.deadline == old(permit.deadline)
      ensures reply.Ok? ==>
        && permit.lease == newId && newId in leases
        && permit.leaseUntil == Some(leases[newId].until) && permit.deadline == leases[newId].deadline
        && (P.Passed(old(permit.deadline), now) || CheckLease(permit))
    {
      if session == 0 || newId == 0 || newId in leases || permit.lease != 0 { return L.Refused(L.BadInput); }
      if !inScope { return L.Refused(L.Denied); }
      if exists id | id in leases :: leases[id].session == session { return L.Refused(L.Conflict); }
      if session in recorded { return L.Refused(L.Conflict); }
      var c := permit.connection;
      var limit := if c.account in limits then limits[c.account] else 0;
      if limit > 0 {
        var live := set id | id in leases && leases[id].owner == c.account && L.Live(leases[id], now);
        assert live == L.LiveOf(Contents(), c.account);
        if |live| >= limit { return L.Refused(L.Capacity); }
      }
      var deadline := permit.deadline;
      var allowed := if c.account in minutes then minutes[c.account] else 0;
      if allowed > 0 {
        var latest := now + allowed * MINUTE;
        if deadline.None? || latest < deadline.value { deadline := Some(latest); }
      }
      leases := leases[newId := L.Lease(session, c.account, c.uid, c.asset, c.account, true, now + L.TTL, deadline)];
      permit.lease, permit.leaseUntil, permit.deadline := newId, Some(now + L.TTL), deadline;
      reply := L.Ok;
    }

    /** checkPAMSessionLease */
    predicate CheckLease(permit: P.Permit)
      reads this, permit
    {
      permit.lease == 0 ||
      (&& permit.lease in leases
       && leases[permit.lease].owner == permit.connection.account && leases[permit.lease].uid == permit.connection.uid
       && leases[permit.lease].asset == permit.connection.asset && leases[permit.lease].account == permit.connection.account
       && (leases[permit.lease].deadline.Some? ==> now < leases[permit.lease].deadline.value)
       && leases[permit.lease].active && now < leases[permit.lease].until)
    }

    /** renewPAMSessionLease. The update may report no changed row for two renewals at one instant; the row is then read. */
    method Renew(permit: P.Permit) returns (expires: Option<int>, reply: L.Reply)
      modifies this`leases
      ensures permit.lease == 0 ==> expires.None? && reply.Ok? && Contents() == old(Contents())
      ensures permit.lease != 0 ==>
        && L.Commit(Contents(), reply) == L.Renew(old(Contents()), permit.lease, permit.connection.account, permit.connection.uid)
        && (reply.Ok? <==> expires.Some?) && (reply.Ok? ==> expires == Some(now + L.TTL))
    {
      if permit.lease == 0 { return None, L.Ok; }
      var matches := permit.lease in leases && leases[permit.lease].owner == permit.connection.account
        && leases[permit.lease].uid == permit.connection.uid && L.Live(leases[permit.lease], now);
      var changed := matches && leases[permit.lease].until != now + L.TTL;
      if changed {
        leases := leases[permit.lease := leases[permit.lease].(until := now + L.TTL)];
        return Some(now + L.TTL), L.Ok;
      }
      if !matches { return None, L.Refused(L.Denied); }
      assert leases == leases[permit.lease := leases[permit.lease].(until := now + L.TTL)];
      return Some(leases[permit.lease].until), L.Ok;
    }

    /** ReleasePAMConnection */
    method Release(permit: P.Permit)
      modifies this`leases
      ensures permit.lease == 0 ==> Contents() == old(Contents())
      ensures permit.lease != 0 ==>
        Contents() == L.Release(old(Contents()), permit.lease, permit.connection.account, permit.connection.uid).table
    {
      if permit.lease == 0 { return; }
      if permit.lease in leases && leases[permit.lease].owner == permit.connection.account
         && leases[permit.lease].uid == permit.connection.uid && leases[permit.lease].active {
        leases := leases[permit.lease := leases[permit.lease].(active := false, until := now)];
      }
    }
  }
}
