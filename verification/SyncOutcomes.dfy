/** What one synchronisation achieves when the provider answers and nobody interferes, and what it always does. */
module SyncOutcomes {
  import opened Basics
  import T = Tables
  import opened RequestTables
  import S = RequestSpec
  import V = RequestInvariant
  import R = RequestRuns
  import O = RequestOutcomes
  import opened RequestWorker

  // ---- Whatever the others do ----

  /** The worker got as far as the bound ticket. */
  predicate PastTheTicket(request: Request, provider: Provider) {
    && provider.first.Some?
    && (request.ticket != 0 || (!Ended(request.state) && provider.first.value.ticket != 0))
  }

  lemma {:induction false} DeliveredIn(sys: Sys, id: nat, status: Status, cancel: Option<Status>, terminal: bool, gaps: Gaps)
    requires V.SysOk(sys) && status.event.Some? && !DeliverTurn(sys, id, status, cancel, terminal, gaps).failed
    ensures R.Recorded(R.Run(sys, DeliverTurn(sys, id, status, cancel, terminal, gaps).events), R.Deliver(status.event.value))
  {
    hide V.SysOk, R.Run, ConcludeTurn, V.RowsLater, V.RowLater, R.Recorded;
    var e := status.event.value;
    var events := gaps.bound + [R.Deliver(e)];
    var rest := ConcludeTurn(R.Run(sys, events), id, status, cancel, terminal, gaps);
    R.RunKeeps(sys, gaps.bound);
    R.RunKeeps(sys, events);
    OneMore(sys, gaps.bound, R.Deliver(e));
    AcceptedIsRecorded(R.Run(sys, gaps.bound), e);
    R.RunKeeps(R.Run(sys, events), rest.events);
    R.RecordedStays(R.Run(sys, events), R.Run(R.Run(sys, events), rest.events), R.Deliver(e));
    R.RunConcat(sys, events, rest.events);
  }

  lemma OneMore(sys: Sys, events: seq<R.Event>, e: R.Event)
    ensures R.Run(sys, events + [e]) == R.Step(R.Run(sys, events), e)
  {
    assert (events + [e])[..|events + [e]| - 1] == events;
  }

  lemma AcceptedIsRecorded(sys: Sys, e: Decision)
    requires S.Decide(sys, e).reply.Ok?
    ensures R.Recorded(R.Step(sys, R.Deliver(e)), R.Deliver(e))
  {
    hide S.Settle;
    R.DecideIsOrdered(sys, e);
  }

  /** An event the provider sent with its answer is never dropped: unless the synchronisation reports failure, and is tried
   again, the request has seen the event when it ends. */
  lemma {:induction false} EventIsDelivered(sys: Sys, id: nat, copy: Request, provider: Provider, gaps: Gaps)
    requires V.SysOk(sys) && !SyncTurn(sys, id, copy, provider, gaps).failed
    requires BeginRow(sys, id, copy, gaps).Some? && PastTheTicket(BeginRow(sys, id, copy, gaps).value, provider)
    requires provider.first.value.event.Some?
    ensures R.Recorded(R.Run(sys, SyncTurn(sys, id, copy, provider, gaps).events), R.Deliver(provider.first.value.event.value))
  {
    hide V.SysOk, R.Run, DeliverTurn, R.Recorded, BeginEvents, Binds;
    var begun := BeginEvents(copy, id, gaps);
    var asked := AskTurn(R.Run(sys, begun), id, BeginRow(sys, id, copy, gaps).value, provider, gaps.called);
    var events := begun + asked.events;
    var terminal := Ended(BeginRow(sys, id, copy, gaps).value.state);
    R.RunKeeps(sys, events);
    DeliveredIn(R.Run(sys, events), id, provider.first.value, provider.cancel, terminal, gaps);
    R.RunConcat(sys, events, DeliverTurn(R.Run(sys, events), id, provider.first.value, provider.cancel, terminal, gaps).events);
  }

  // ---- With nobody in between ----

  const QUIET := Gaps([], [], [], [], [])

  /** The answer is about this request, as it was applied for, and its ticket. */
  predicate About(id: nat, row: Request, status: Status) {
    && status.request == id && status.requestRevision == row.terms.requestRevision && status.template == row.terms.template
    && status.templateRevision == row.terms.templateRevision && status.ticket != 0 && (row.ticket == 0 || row.ticket == status.ticket)
  }

  lemma OneEvent(sys: Sys, e: R.Event)
    ensures R.Run(sys, []) == sys && R.Run(sys, [e]) == R.Step(sys, e)
  {
    assert [] + [e] == [e];
    OneMore(sys, [], e);
  }

  /** The tables once the row has its ticket and, if the answer carries an event, that has been accepted. */
  ghost function Answered(sys: Sys, id: nat, status: Status): Sys
    requires id in sys.requests
  {
    var bound := sys.(requests := sys.requests[id := sys.requests[id].(ticket := status.ticket)]);
    if status.event.Some? then S.Decide(bound, status.event.value).sys else bound
  }

  ghost predicate EventAccepted(sys: Sys, id: nat, status: Status)
    requires id in sys.requests
  {
    status.event.Some? ==>
      S.Decide(sys.(requests := sys.requests[id := sys.requests[id].(ticket := status.ticket)]), status.event.value).reply.Ok?
  }

  /** Closed here just now, so that the provider has to be told. */
  predicate ToClose(row: Request) {
    row.state == RequestState.Expired || row.state == Invalidated
  }

  /** How the second half ends. */
  lemma {:induction false} QuietConclusion(sys: Sys, id: nat, status: Status, cancel: Option<Status>, terminal: bool)
    requires V.SysOk(sys) && id in sys.requests
    ensures id in S.Expire(sys, id).sys.requests
    ensures var turn, after := ConcludeTurn(sys, id, status, cancel, terminal, QUIET), S.Expire(sys, id).sys;
      var row := after.requests[id];
      && (!terminal && ToClose(row) && cancel.None? ==> turn.failed && R.Run(sys, turn.events) == after)
      && (!terminal && ToClose(row) && cancel.Some? && About(id, row, cancel.value) && row.ticket == cancel.value.ticket ==>
            !turn.failed && turn.done && R.Run(sys, turn.events) == after)
      && (terminal || !ToClose(row) ==>
            && !turn.failed && R.Run(sys, turn.events) == after
            && (turn.done <==> terminal || Final(status.decision) || (row.grant.until.Some? && row.grant.until.value <= after.now)))
  {
    hide V.SysOk, S.Expire;
    var after := S.Expire(sys, id).sys;
    ExpiryKeepsRow(sys, id);
    assert [] + [R.Expire(id)] == [R.Expire(id)] && [R.Expire(id)] + [] == [R.Expire(id)];
    OneEvent(sys, R.Expire(id));
    if cancel.Some? {
      OneMore(sys, [R.Expire(id)], BindEvent(id, cancel.value));
      if About(id, after.requests[id], cancel.value) && after.requests[id].ticket == cancel.value.ticket {
        SameTicketAgain(after, id, cancel.value);
      }
    }
  }

  lemma ExpiryKeepsRow(sys: Sys, id: nat)
    requires id in sys.requests
    ensures id in S.Expire(sys, id).sys.requests && R.Step(sys, R.Expire(id)) == S.Expire(sys, id).sys
  {
  }

  lemma SameTicketAgain(sys: Sys, id: nat, status: Status)
    requires id in sys.requests && About(id, sys.requests[id], status) && sys.requests[id].ticket == status.ticket
    ensures Binds(sys, id, status) && R.Step(sys, BindEvent(id, status)) == sys
  {
    assert sys.requests == sys.requests[id := sys.requests[id].(ticket := status.ticket)];
  }

  /** A quiet synchronisation of a row with a ticket, or of an open one that gets it now: it does not fail, binds the ticket,
   applies the event, expires what is due, and tells the provider if that closed the request. */
  lemma {:induction false} QuietTurn(sys: Sys, id: nat, provider: Provider)
    requires V.SysOk(sys) && id in sys.requests && provider.first.Some? && About(id, sys.requests[id], provider.first.value)
    requires sys.requests[id].ticket != 0 || (!Ended(sys.requests[id].state) && !S.DueToExpire(sys.requests[id], sys.now))
    requires EventAccepted(sys, id, provider.first.value)
    ensures id in Answered(sys, id, provider.first.value).requests
    ensures id in S.Expire(Answered(sys, id, provider.first.value), id).sys.requests
    ensures var turn := SyncTurn(sys, id, sys.requests[id], provider, QUIET);
      var after := S.Expire(Answered(sys, id, provider.first.value), id).sys;
      var row, terminal := after.requests[id], Ended(sys.requests[id].state);
      && (!terminal && ToClose(row) && provider.cancel.None? ==> turn.failed && R.Run(sys, turn.events) == after)
      && (!terminal && ToClose(row) && provider.cancel.Some? && About(id, row, provider.cancel.value) && row.ticket == provider.cancel.value.ticket ==>
            !turn.failed && turn.done && R.Run(sys, turn.events) == after)
      && (terminal || !ToClose(row) ==>
            && !turn.failed && R.Run(sys, turn.events) == after
            && (turn.done <==> terminal || Final(provider.first.value.decision) || (row.grant.until.Some? && row.grant.until.value <= after.now)))
  {
    hide V.SysOk, S.Expire, S.Decide, R.Run, R.Step, R.Perform, ConcludeTurn, S.DueToExpire, Final, ToClose;
    var status, copy := provider.first.value, sys.requests[id];
    var terminal := Ended(copy.state);
    QuietBegin(sys, id, copy);
    QuietAsk(sys, id, copy, provider);
    var bound := sys.(requests := sys.requests[id := copy.(ticket := status.ticket)]);
    QuietDeliver(sys, id, bound, status, provider.cancel, terminal);
    var begun := BeginEvents(copy, id, QUIET);
    var asked := AskTurn(R.Run(sys, begun), id, BeginRow(sys, id, copy, QUIET).value, provider, []);
    R.RunConcat(sys, begun, asked.events);
    R.RunConcat(sys, begun + asked.events, DeliverTurn(bound, id, status, provider.cancel, terminal, QUIET).events);
  }

  lemma QuietBegin(sys: Sys, id: nat, copy: Request)
    requires id in sys.requests && copy == sys.requests[id] && (copy.ticket != 0 || !S.DueToExpire(copy, sys.now))
    ensures R.Run(sys, BeginEvents(copy, id, QUIET)) == sys && BeginRow(sys, id, copy, QUIET) == Some(copy)
  {
    assert [] + [R.Expire(id)] == [R.Expire(id)];
    OneEvent(sys, R.Expire(id));
  }

  lemma QuietAsk(sys: Sys, id: nat, copy: Request, provider: Provider)
    requires id in sys.requests && copy == sys.requests[id] && provider.first.Some? && About(id, copy, provider.first.value)
    requires copy.ticket != 0 || !Ended(copy.state)
    ensures var asked := AskTurn(sys, id, copy, provider, []);
      && asked == Asked(asked.events, false, false, false)
      && R.Run(sys, asked.events) == sys.(requests := sys.requests[id := copy.(ticket := provider.first.value.ticket)])
  {
    var e := BindEvent(id, provider.first.value);
    assert [] + [e] == [e];
    OneEvent(sys, e);
  }

  lemma QuietDeliver(sys: Sys, id: nat, bound: Sys, status: Status, cancel: Option<Status>, terminal: bool)
    requires V.SysOk(sys) && id in sys.requests && About(id, sys.requests[id], status) && EventAccepted(sys, id, status)
    requires bound == sys.(requests := sys.requests[id := sys.requests[id].(ticket := status.ticket)])
    ensures id in Answered(sys, id, status).requests && id in S.Expire(Answered(sys, id, status), id).sys.requests
    ensures var turn, after := DeliverTurn(bound, id, status, cancel, terminal, QUIET), S.Expire(Answered(sys, id, status), id).sys;
      var row := after.requests[id];
      && (!terminal && ToClose(row) && cancel.None? ==> turn.failed && R.Run(bound, turn.events) == after)
      && (!terminal && ToClose(row) && cancel.Some? && About(id, row, cancel.value) && row.ticket == cancel.value.ticket ==>
            !turn.failed && turn.done && R.Run(bound, turn.events) == after)
      && (terminal || !ToClose(row) ==>
            && !turn.failed && R.Run(bound, turn.events) == after
            && (turn.done <==> terminal || Final(status.decision) || (row.grant.until.Some? && row.grant.until.value <= after.now)))
  {
    hide V.SysOk, S.Expire, S.Decide, R.Run, ConcludeTurn, Final, ToClose;
    var answered := Answered(sys, id, status);
    BoundIsOk(sys, id, status);
    var events := [] + if status.event.Some? then [R.Deliver(status.event.value)] else [];
    NoneOrOne(bound, status);
    if status.event.Some? { V.DecideKeeps(bound, status.event.value); }
    QuietConclusion(answered, id, status, cancel, terminal);
    R.RunConcat(bound, events, ConcludeTurn(answered, id, status, cancel, terminal, QUIET).events);
  }

  lemma NoneOrOne(sys: Sys, status: Status)
    ensures var events := [] + if status.event.Some? then [R.Deliver(status.event.value)] else [];
      R.Run(sys, events) == (if status.event.Some? then S.Decide(sys, status.event.value).sys else sys) && R.Run(sys, []) == sys
  {
    hide S.Decide;
    OneEvent(sys, R.Tick(0));
    if status.event.Some? {
      assert [] + [R.Deliver(status.event.value)] == [R.Deliver(status.event.value)];
      OneEvent(sys, R.Deliver(status.event.value));
    }
  }

  lemma BoundIsOk(sys: Sys, id: nat, status: Status)
    requires V.SysOk(sys) && id in sys.requests && About(id, sys.requests[id], status)
    ensures V.SysOk(sys.(requests := sys.requests[id := sys.requests[id].(ticket := status.ticket)]))
  {
    hide V.SysOk;
    var row := sys.requests[id];
    V.BindTicketKeeps(sys, id, status.requestRevision, status.template, status.templateRevision, status.ticket);
  }

  // ---- What that means for a request ----

  lemma TicketStays(sys: Sys, id: nat, status: Status)
    requires id in sys.requests && sys.requests[id].ticket == status.ticket
    ensures sys.(requests := sys.requests[id := sys.requests[id].(ticket := status.ticket)]) == sys
  {
    assert sys.requests[id := sys.requests[id].(ticket := status.ticket)] == sys.requests;
  }

  /** An approval reported in time reaches the request: it is approved for the time asked, and stays in the queue. */
  lemma {:induction false} ApprovalArrives(sys: Sys, id: nat, provider: Provider, e: Decision)
    requires V.SysOk(sys) && id in sys.requests && sys.requests[id].ticket != 0
    requires provider.first.Some? && About(id, sys.requests[id], provider.first.value) && provider.first.value.event == Some(e)
    requires e.request == id && O.IsApproval(sys, e) && O.EnoughPeople(sys.requests[id], e) && O.ScopeStands(sys, sys.requests[id])
    requires var row := sys.requests[id];
      row.terms.createdAt - MINUTE <= e.decidedAt.value < row.terms.expiresAt && sys.now < e.decidedAt.value + row.terms.durationMinutes * MINUTE
    ensures var turn, row := SyncTurn(sys, id, sys.requests[id], provider, QUIET), sys.requests[id];
      && !turn.failed && (turn.done <==> Final(provider.first.value.decision))
      && id in R.Run(sys, turn.events).requests
      && var after := R.Run(sys, turn.events).requests[id];
         && after.state == Approved && after.approvers == e.approvers
         && after.grant == Grant(e.decidedAt, Some(e.decidedAt.value + row.terms.durationMinutes * MINUTE), None)
  {
    hide V.SysOk, S.Decide, SyncTurn, O.ScopeStands, O.EnoughPeople;
    TicketStays(sys, id, provider.first.value);
    O.ApprovalSettles(sys, e);
    QuietTurn(sys, id, provider);
  }

  /** So does a rejection or cancellation: an open request is over, for good, and the synchronisation is done. */
  lemma {:induction false} RejectionArrives(sys: Sys, id: nat, provider: Provider, e: Decision)
    requires V.SysOk(sys) && id in sys.requests && sys.requests[id].ticket != 0 && !Ended(sys.requests[id].state)
    requires provider.first.Some? && About(id, sys.requests[id], provider.first.value) && provider.first.value.event == Some(e)
    requires e.request == id && O.ToSettle(sys, e) && (e.verdict == Some(Rejected) || e.verdict == Some(Cancelled))
    requires provider.first.value.decision == e.verdict
    ensures var turn := SyncTurn(sys, id, sys.requests[id], provider, QUIET);
      !turn.failed && turn.done && O.OverForGood(R.Run(sys, turn.events), id, e.verdict.value)
  {
    hide V.SysOk, S.Decide, SyncTurn, O.OverForGood, R.Run;
    TicketStays(sys, id, provider.first.value);
    O.DecisionEnds(sys, e);
    NotDueOnceEnded(S.Decide(sys, e).sys, id);
    QuietTurn(sys, id, provider);
  }

  lemma NotDueOnceEnded(sys: Sys, id: nat)
    requires id in sys.requests && Ended(sys.requests[id].state)
    ensures S.Expire(sys, id).sys == sys
  {
  }

  /** A request nobody decided on in time is closed here and at the provider, and the synchronisation is done. */
  lemma {:induction false} LateRequestIsClosed(sys: Sys, id: nat, provider: Provider)
    requires V.SysOk(sys) && id in sys.requests && sys.requests[id].ticket != 0
    requires sys.requests[id].state == Pending && sys.requests[id].terms.expiresAt <= sys.now
    requires provider.first.Some? && About(id, sys.requests[id], provider.first.value) && provider.first.value.event.None?
    requires provider.cancel.Some? && About(id, sys.requests[id], provider.cancel.value)
    ensures var turn := SyncTurn(sys, id, sys.requests[id], provider, QUIET);
      !turn.failed && turn.done && O.OverForGood(R.Run(sys, turn.events), id, Expired)
  {
    hide V.SysOk, SyncTurn, O.OverForGood, R.Run, S.Expire;
    TicketStays(sys, id, provider.first.value);
    O.ExpiredExactly(sys, id);
    QuietTurn(sys, id, provider);
  }

  /** A new request gets the ticket the provider made for it, and stays in the queue. */
  lemma {:induction false} TicketArrives(sys: Sys, id: nat, provider: Provider)
    requires V.SysOk(sys) && id in sys.requests && sys.requests[id].ticket == 0
    requires sys.requests[id].state == Pending && sys.now < sys.requests[id].terms.expiresAt
    requires provider.first.Some? && About(id, sys.requests[id], provider.first.value) && provider.first.value.event.None?
    ensures var turn := SyncTurn(sys, id, sys.requests[id], provider, QUIET);
      && !turn.failed && (turn.done <==> Final(provider.first.value.decision))
      && R.Run(sys, turn.events) == sys.(requests := sys.requests[id := sys.requests[id].(ticket := provider.first.value.ticket)])
  {
    hide V.SysOk, SyncTurn, R.Run;
    V.RowIsOk(sys, id);
    QuietTurn(sys, id, provider);
  }

  /** A request that ended before it had a ticket is done exactly if the provider confirms its cancellation; nothing changes
   here. */
  lemma {:induction false} EndedWithoutTicket(sys: Sys, id: nat, provider: Provider)
    requires id in sys.requests && sys.requests[id].ticket == 0 && Ended(sys.requests[id].state)
    ensures var turn, row := SyncTurn(sys, id, sys.requests[id], provider, QUIET), sys.requests[id];
      && R.Run(sys, turn.events) == sys && (turn.failed <==> !turn.done)
      && (turn.done <==>
            && provider.first.Some? && provider.first.value.request == id
            && provider.first.value.requestRevision == row.terms.requestRevision && provider.first.value.decision == Some(Cancelled))
  {
    var row := sys.requests[id];
    assert [] + [R.Expire(id)] == [R.Expire(id)] && [R.Expire(id)] + [] == [R.Expire(id)];
    NotDueOnceEnded(sys, id);
    OneEvent(sys, R.Expire(id));
    hide R.Run, S.Expire, DeliverTurn;
  }

  /** The tables once a worker has claimed a row and read it. */
  ghost function ClaimedBy(sys: Sys, token: nat, id: nat): Sys {
    R.Run(sys, [R.ClaimSync(token, id)] + [] + [R.ReadSync(token)])
  }

  /** The row is still in this worker's hands, which read it and knows of so many failures. */
  predicate InItsHands(sys: Sys, token: nat, id: nat, failures: nat) {
    id in sys.requests && sys.requests[id].sync.owner == token && token in sys.workers && sys.workers[token] == Worker(id, failures, true)
  }

  /** Done if the synchronisation is, due again in fifteen seconds if there is more to come, otherwise one failure further. */
  predicate ReportedAs(sys: Sys, id: nat, turn: Turn, failures: nat) {
    && id in sys.requests
    && var sync := sys.requests[id].sync;
       && sync.owner == 0 && sync.until.None?
       && (sync.state == Done <==> !turn.failed && turn.done)
       && (!turn.failed && !turn.done ==> sync.state == ToDo && sync.attempts == 0 && sync.nextAt == sys.now + 15 * SECOND)
       && (turn.failed ==>
             && sync.attempts == failures + 1 && sync.state == (if sync.attempts < 8 then ToDo else GaveUp)
             && sync.nextAt == sys.now + SECOND * O.TwoTo(if sync.attempts < 8 then sync.attempts else 8))
  }

  /** What a whole turn of the work loop reports, of a row the worker was able to claim and nobody took from it. */
  lemma {:induction false} TurnIsReported(sys: Sys, token: nat, id: nat, provider: Provider, turn: Turn)
    requires S.ClaimSync(sys, token, id).reply.Ok? && id in sys.requests && id in ClaimedBy(sys, token, id).requests
    requires turn == SyncTurn(ClaimedBy(sys, token, id), id, ClaimedBy(sys, token, id).requests[id], provider, QUIET)
    requires InItsHands(R.Run(ClaimedBy(sys, token, id), turn.events), token, id, sys.requests[id].sync.attempts)
    ensures ReportedAs(R.Run(sys, WorkEvents(sys, token, id, provider, QUIET, [], [])), id, turn, sys.requests[id].sync.attempts)
  {
    hide SyncTurn, S.FinishSync, S.ClaimSync, O.TwoTo, R.Run, ReportedAs, InItsHands;
    var begun := [R.ClaimSync(token, id)] + [] + [R.ReadSync(token)];
    var events := begun + turn.events;
    var result := if turn.failed then S.Failed else S.Synced(turn.done);
    R.RunConcat(sys, begun, turn.events);
    assert begun + turn.events + [] + [R.FinishSync(token, result)] == events + [R.FinishSync(token, result)];
    OneMore(sys, events, R.FinishSync(token, result));
    ReportReaches(R.Run(sys, events), token, id, turn, sys.requests[id].sync.attempts);
  }

  lemma ReportReaches(sys: Sys, token: nat, id: nat, turn: Turn, failures: nat)
    requires InItsHands(sys, token, id, failures)
    ensures ReportedAs(R.Step(sys, R.FinishSync(token, if turn.failed then S.Failed else S.Synced(turn.done))), id, turn, failures)
  {
    hide S.FinishSync, O.TwoTo;
    O.FinishedExactly(sys, token, if turn.failed then S.Failed else S.Synced(turn.done));
  }

  /** Nobody takes it while the others are quiet: answers, decisions and expiry leave the queue to the worker. */
  lemma {:induction false} StaysInItsHands(sys: Sys, token: nat, id: nat, status: Status)
    requires id in sys.requests && EventAccepted(sys, id, status)
    ensures id in Answered(sys, id, status).requests
    ensures var after := S.Expire(Answered(sys, id, status), id).sys;
      after.workers == sys.workers && id in after.requests && after.requests[id].sync == sys.requests[id].sync
  {
    hide S.Decide, S.Expire;
    var bound := sys.(requests := sys.requests[id := sys.requests[id].(ticket := status.ticket)]);
    if status.event.Some? { DecisionKeepsQueue(bound, status.event.value, id); }
    ExpiryKeepsQueue(Answered(sys, id, status), id);
  }

  lemma DecisionKeepsQueue(sys: Sys, e: Decision, id: nat)
    requires id in sys.requests
    ensures var after := S.Decide(sys, e).sys;
      after.workers == sys.workers && id in after.requests && after.requests[id].sync == sys.requests[id].sync
  {
    hide S.ScopeCurrent, S.EnoughApprovers, S.DecisionComplete, S.SameTicket;
  }

  lemma ExpiryKeepsQueue(sys: Sys, id: nat)
    requires id in sys.requests
    ensures var after := S.Expire(sys, id).sys;
      after.workers == sys.workers && id in after.requests && after.requests[id].sync == sys.requests[id].sync
  {
    hide S.DueToExpire;
  }
}
