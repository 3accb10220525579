/** The synchronisation worker as the program it is, with everything else going on between any two of its steps. */
module RequestWorker {
  import opened Basics
  import T = Tables
  import opened RequestTables
  import S = RequestSpec
  import V = RequestInvariant
  import R = RequestRuns
  import opened RequestRepository

  /** The store together with the history that led to it. */
  class Desk {
    const store: AccessStore
    ghost const start: Sys
    ghost var history: seq<R.Event>

    ghost predicate Valid()
      reads this, store
    {
      store.Valid() && store.Contents() == R.Run(start, history)
    }

    constructor (store: AccessStore)
      requires store.Valid()
      ensures Valid() && this.store == store && history == []
    {
      this.store, start, history := store, store.Contents(), [];
    }

    ghost method Happened(e: R.Event)
      requires store.Valid() && store.Contents() == R.Step(R.Run(start, history), e)
      modifies this`history
      ensures Valid() && history == old(history) + [e]
    {
      hide V.SysOk, R.Step;
      assert (history + [e])[..|history + [e]| - 1] == history;
      history := history + [e];
    }

    /** Any one event. */
    method Do(e: R.Event) returns (reply: Reply)
      requires Valid()
      modifies this, store
      ensures Valid() && history == old(history) + [e]
      ensures reply == R.Perform(old(store.Contents()), e).reply && store.Contents() == R.Step(old(store.Contents()), e)
      ensures V.RowsLater(old(store.requests), store.requests)
    {
      hide V.SysOk, R.Run, V.RowsLater;
      R.StepKeeps(store.Contents(), e);
      match e {
        case CreateConnect(input, seenRevision, sourceAllowed, newId) => reply := store.CreateConnect(input, seenRevision, sourceAllowed, newId);
        case CreateView(input, seen, found, newId) => reply := store.CreateView(input, seen, found, newId);
        case Deliver(decision) => reply := store.Decide(decision);
        case Expire(id) => reply := store.Expire(id);
        case Cancel(id, revision) => reply := store.Cancel(id, revision);
        case SavePolicy(account, seenRevision, terms) => reply := store.SavePolicy(account, seenRevision, terms);
        case SaveViewSettings(seenRevision, approval, template, templateRevision, validMinutes) =>
          reply := store.SaveViewSettings(seenRevision, approval, template, templateRevision, validMinutes);
        case EnsureViewPolicy => reply := store.EnsureViewPolicy();
        case RemoveManagement(account, revisionMatches, executionActive) =>
          reply := store.RemoveManagement(account, revisionMatches, executionActive);
        case BindTicket(id, requestRevision, template, templateRevision, ticket) =>
          reply := store.BindTicket(id, requestRevision, template, templateRevision, ticket);
        case ClaimSync(token, id) => reply := store.ClaimSync(token, id);
        case ReadSync(token) => reply := store.ReadSync(token);
        case FinishSync(token, result) => reply := store.FinishSync(token, result);
        case RetrySync(id, revision) => reply := store.RetrySync(id, revision);
        case SetOwner(owner, facts) => store.owners := store.owners[owner := facts]; reply := Ok(0);
        case DropOwner(owner) => store.owners := store.owners - {owner}; reply := Ok(0);
        case SetBinding(asset, account, binding) => reply := store.SetBinding(asset, account, binding);
        case DropBinding(asset, account) => store.bindings := store.bindings - {(asset, account)}; reply := Ok(0);
        case Tick(elapsed) => store.now := store.now + elapsed; reply := Ok(0);
      }
      Happened(e);
    }

    /** Whatever the others do in a gap. */
    method Interleave(others: seq<R.Event>)
      requires Valid()
      modifies this, store
      ensures Valid() && history == old(history) + others
      ensures V.RowsLater(old(store.requests), store.requests)
    {
      hide V.SysOk, R.Run, R.Step, V.RowsLater;
      SameRows(store.requests);
      for i := 0 to |others|
        invariant Valid() && history == old(history) + others[..i]
        invariant V.RowsLater(old(store.requests), store.requests)
      {
        ghost var before := store.requests;
        var _ := Do(others[i]);
        V.LaterTransitive(old(store.requests), before, store.requests);
        assert others[..i + 1] == others[..i] + [others[i]];
      }
      assert others[..|others|] == others;
    }
  }

  lemma SameRows(requests: map<nat, Request>)
    ensures V.RowsLater(requests, requests)
  {
  }

  // ---- syncPAMITSMRequest ----

  /** A reply of the provider; `decision` is its state word, `event` the decision event it carries, if any. */
  datatype Status = Status(request: nat, requestRevision: nat, template: nat, templateRevision: nat, ticket: nat,
                           decision: Option<RequestState>, event: Option<Decision>)

  /** What the provider replies to the call made first and to a later cancellation; none is a failed call. */
  datatype Provider = Provider(first: Option<Status>, cancel: Option<Status>)

  datatype Gaps = Gaps(atFirst: seq<R.Event>, called: seq<R.Event>, bound: seq<R.Event>, decided: seq<R.Event>, closing: seq<R.Event>)

  /** The provider's word for a finished workflow. */
  predicate Final(decision: Option<RequestState>) {
    decision.Some? && Ended(decision.value)
  }

  // ---- What a synchronisation does, on the tables as a value ----

  /** The events of a synchronisation, those of the others in its gaps included, and what it reports. */
  datatype Turn = Turn(events: seq<R.Event>, done: bool, failed: bool)

  /** The part up to the ticket: `stop` if it ends there. */
  datatype Asked = Asked(events: seq<R.Event>, stop: bool, done: bool, failed: bool)

  function BindEvent(id: nat, status: Status): R.Event {
    R.BindTicket(id, status.requestRevision, status.template, status.templateRevision, status.ticket)
  }

  /** A status for another request is not even tried. */
  function BindEvents(id: nat, status: Status): seq<R.Event> {
    if status.request == id then [BindEvent(id, status)] else []
  }

  ghost predicate Binds(sys: Sys, id: nat, status: Status) {
    status.request == id && R.Perform(sys, BindEvent(id, status)).reply.Ok?
  }

  /** The row to go on with: the one read, or the one there after an expiry where there is no ticket yet. */
  ghost function BeginEvents(copy: Request, id: nat, gaps: Gaps): seq<R.Event> {
    if copy.ticket != 0 then gaps.atFirst else gaps.atFirst + [R.Expire(id)]
  }

  ghost function BeginRow(sys: Sys, id: nat, copy: Request, gaps: Gaps): Option<Request> {
    var after := R.Run(sys, BeginEvents(copy, id, gaps));
    if copy.ticket != 0 then Some(copy) else if id in after.requests then Some(after.requests[id]) else None
  }

  /** What the provider's confirmation of a cancellation without a ticket must look like. */
  predicate ConfirmsCancel(id: nat, request: Request, status: Status) {
    status.request == id && status.requestRevision == request.terms.requestRevision && status.decision == Some(Cancelled)
  }

  ghost function AskTurn(sys: Sys, id: nat, request: Request, provider: Provider, called: seq<R.Event>): Asked {
    if provider.first.None? then Asked(called, true, false, true)
    else
      var status := provider.first.value;
      if request.ticket == 0 && Ended(request.state) then
        var ok := ConfirmsCancel(id, request, status); Asked(called, true, ok, !ok)
      else if request.ticket == 0 && status.ticket == 0 then Asked(called, true, false, false)
      else
        var ok := Binds(R.Run(sys, called), id, status); Asked(called + BindEvents(id, status), !ok, false, !ok)
  }

  ghost function ConcludeTurn(sys: Sys, id: nat, status: Status, cancel: Option<Status>, terminal: bool, gaps: Gaps): Turn {
    var first := gaps.decided + [R.Expire(id)];
    var now := R.Run(sys, first);
    if id !in now.requests then Turn(first, false, true)
    else if !terminal && (now.requests[id].state == RequestState.Expired || now.requests[id].state == Invalidated) then
      if cancel.None? then Turn(first + gaps.closing, false, true)
      else
        var ok := Binds(R.Run(sys, first + gaps.closing), id, cancel.value);
        Turn(first + gaps.closing + BindEvents(id, cancel.value), ok, !ok)
    else
      var until := now.requests[id].grant.until;
      Turn(first, terminal || Final(status.decision) || (until.Some? && now.now >= until.value), false)
  }

  /** From the bound ticket on: deliver the event, if there is one, and conclude. */
  ghost function DeliverTurn(sys: Sys, id: nat, status: Status, cancel: Option<Status>, terminal: bool, gaps: Gaps): Turn {
    var events := gaps.bound + if status.event.Some? then [R.Deliver(status.event.value)] else [];
    if status.event.Some? && R.Perform(R.Run(sys, gaps.bound), R.Deliver(status.event.value)).reply.Refused? then Turn(events, false, true)
    else
      var rest := ConcludeTurn(R.Run(sys, events), id, status, cancel, terminal, gaps);
      rest.(events := events + rest.events)
  }

  ghost function SyncTurn(sys: Sys, id: nat, copy: Request, provider: Provider, gaps: Gaps): Turn {
    var begun := BeginEvents(copy, id, gaps);
    var row := BeginRow(sys, id, copy, gaps);
    if row.None? then Turn(begun, false, true)
    else
      var asked := AskTurn(R.Run(sys, begun), id, row.value, provider, gaps.called);
      var events := begun + asked.events;
      if asked.stop || provider.first.None? then Turn(events, asked.done, asked.failed)
      else
        var rest := DeliverTurn(R.Run(sys, events), id, provider.first.value, provider.cancel, Ended(row.value.state), gaps);
        rest.(events := events + rest.events)
  }

  method Expired(desk: Desk, id: nat) returns (current: Option<Request>)
    requires desk.Valid()
    modifies desk, desk.store
    ensures desk.Valid() && V.RowsLater(old(desk.store.requests), desk.store.requests)
    ensures desk.history == old(desk.history) + [R.Expire(id)]
    ensures current.None? <==> id !in desk.store.requests
    ensures current.Some? ==> current == Some(desk.store.requests[id]) && !S.DueToExpire(current.value, desk.store.now)
  {
    hide V.SysOk, R.Run, V.RowsLater;
    ghost var before := desk.store.Contents();
    var reply := desk.Do(R.Expire(id));
    ExpiredIsNotDue(before, id);
    current := if id in desk.store.requests then Some(desk.store.requests[id]) else None;
  }

  lemma ExpiredIsNotDue(sys: Sys, id: nat)
    ensures var after := R.Step(sys, R.Expire(id));
      && (id in after.requests <==> id in sys.requests)
      && (id in after.requests ==> !S.DueToExpire(after.requests[id], after.now))
  {
  }

  method Bind(desk: Desk, id: nat, status: Status) returns (ok: bool)
    requires desk.Valid()
    modifies desk, desk.store
    ensures desk.Valid() && V.RowsLater(old(desk.store.requests), desk.store.requests)
    ensures desk.history == old(desk.history) + BindEvents(id, status) && (ok <==> Binds(old(desk.store.Contents()), id, status))
  {
    hide V.SysOk, R.Run, V.RowsLater, R.Step, R.Perform;
    SameRows(desk.store.requests);
    if status.request != id { return false; }
    var reply := desk.Do(R.BindTicket(id, status.requestRevision, status.template, status.templateRevision, status.ticket));
    ok := reply.Ok?;
  }

  /** Expire first where there is no ticket yet; the row to go on with, and whether it has ended. */
  method Begin(desk: Desk, id: nat, copy: Request, gaps: Gaps) returns (request: Option<Request>)
    requires desk.Valid() && id in desk.store.requests && V.RowLater(copy, desk.store.requests[id])
    modifies desk, desk.store
    ensures desk.Valid() && V.RowsLater(old(desk.store.requests), desk.store.requests)
    ensures request.Some? ==> id in desk.store.requests && (Ended(request.value.state) ==> Ended(desk.store.requests[id].state))
    ensures desk.history == old(desk.history) + BeginEvents(copy, id, gaps)
    ensures desk.store.Contents() == R.Run(old(desk.store.Contents()), BeginEvents(copy, id, gaps))
    ensures request == BeginRow(old(desk.store.Contents()), id, copy, gaps)
  {
    hide V.SysOk, R.Run, R.Step, V.RowsLater;
    ghost var r0 := desk.store.requests;
    ghost var h0 := desk.history;
    desk.Interleave(gaps.atFirst);
    ghost var r1 := desk.store.requests;
    StaysEnded(r0, r1, id);
    if copy.ticket == 0 {
      request := Expired(desk, id);
      V.LaterTransitive(r0, r1, desk.store.requests);
    } else {
      request := Some(copy);
    }
    R.RunConcat(desk.start, h0, BeginEvents(copy, id, gaps));
    assert desk.history == h0 + BeginEvents(copy, id, gaps);
  }

  /** Ask the provider and bind its ticket. `stop` ends the synchronisation with the outcome already known. */
  method Ask(desk: Desk, id: nat, request: Request, provider: Provider, called: seq<R.Event>) returns (stop: bool, done: bool, failed: bool)
    requires desk.Valid() && id in desk.store.requests && (Ended(request.state) ==> Ended(desk.store.requests[id].state))
    modifies desk, desk.store
    ensures desk.Valid() && V.RowsLater(old(desk.store.requests), desk.store.requests) && id in desk.store.requests
    ensures Ended(request.state) ==> Ended(desk.store.requests[id].state)
    ensures stop && done ==> !failed && Ended(desk.store.requests[id].state)
    ensures !stop ==> provider.first.Some?
    ensures var asked := AskTurn(old(desk.store.Contents()), id, request, provider, called);
      && asked == Asked(asked.events, stop, done, failed) && desk.history == old(desk.history) + asked.events
      && desk.store.Contents() == R.Run(old(desk.store.Contents()), asked.events)
  {
    hide V.SysOk, R.Run, R.Step, V.RowsLater, V.RowLater;
    ghost var r0 := desk.store.requests;
    ghost var h0 := desk.history;
    var terminal := Ended(request.state);
    desk.Interleave(called);
    R.RunConcat(desk.start, h0, called);
    ghost var r1 := desk.store.requests;
    StaysEnded(r0, r1, id);
    if provider.first.None? { return true, false, true; }
    var status := provider.first.value;
    if request.ticket == 0 && terminal {
      if status.request != id || status.requestRevision != request.terms.requestRevision || status.decision != Some(Cancelled) {
        return true, false, true;
      }
      return true, true, false;
    }
    if request.ticket == 0 && status.ticket == 0 { return true, false, false; }
    var ok := Bind(desk, id, status);
    V.LaterTransitive(r0, r1, desk.store.requests);
    StaysEnded(r1, desk.store.requests, id);
    R.RunConcat(desk.start, h0, called + BindEvents(id, status));
    assert desk.history == h0 + (called + BindEvents(id, status));
    return !ok, false, !ok;
  }

  /** syncPAMITSMRequest on the row as the worker read it. It reports done only for a request that has ended, or when
   the provider called the workflow finished without that ending the request here. */
  method SyncRequest(desk: Desk, id: nat, copy: Request, provider: Provider, gaps: Gaps) returns (done: bool, failed: bool)
    requires desk.Valid() && id in desk.store.requests && V.RowLater(copy, desk.store.requests[id])
    modifies desk, desk.store
    ensures desk.Valid() && V.RowsLater(old(desk.store.requests), desk.store.requests)
    ensures done ==> !failed && id in desk.store.requests
    ensures done && !Ended(desk.store.requests[id].state) ==> provider.first.Some? && Final(provider.first.value.decision)
    ensures var turn := SyncTurn(old(desk.store.Contents()), id, copy, provider, gaps);
      turn == Turn(turn.events, done, failed) && desk.history == old(desk.history) + turn.events
  {
    hide V.SysOk, R.Run, R.Step, S.DueToExpire, V.RowsLater, V.RowLater, AskTurn, DeliverTurn, BeginEvents, BeginRow;
    ghost var r0, sys, h0 := desk.store.requests, desk.store.Contents(), desk.history;
    var request := Begin(desk, id, copy, gaps);
    if request.None? { return false, true; }
    var terminal := Ended(request.value.state);
    ghost var rb := desk.store.requests;
    var stop;
    ghost var begun, asked := BeginEvents(copy, id, gaps), AskTurn(desk.store.Contents(), id, request.value, provider, gaps.called);
    stop, done, failed := Ask(desk, id, request.value, provider, gaps.called);
    R.RunConcat(sys, begun, asked.events);
    assert desk.history == h0 + (begun + asked.events);
    ghost var r1 := desk.store.requests;
    V.LaterTransitive(r0, rb, r1);
    if stop { return; }
    done, failed := DeliverAndConclude(desk, id, provider.first.value, provider.cancel, terminal, gaps);
    V.LaterTransitive(r0, r1, desk.store.requests);
  }

  /** The second half, from the bound ticket on. */
  method DeliverAndConclude(desk: Desk, id: nat, status: Status, cancel: Option<Status>, terminal: bool, gaps: Gaps)
    returns (done: bool, failed: bool)
    requires desk.Valid() && id in desk.store.requests && (terminal ==> Ended(desk.store.requests[id].state))
    modifies desk, desk.store
    ensures desk.Valid() && V.RowsLater(old(desk.store.requests), desk.store.requests)
    ensures done ==> !failed && id in desk.store.requests
    ensures done && !Ended(desk.store.requests[id].state) ==> Final(status.decision)
    ensures var turn := DeliverTurn(old(desk.store.Contents()), id, status, cancel, terminal, gaps);
      turn == Turn(turn.events, done, failed) && desk.history == old(desk.history) + turn.events
  {
    hide V.SysOk, R.Run, R.Step, R.Perform, S.DueToExpire, V.RowsLater, V.RowLater, ConcludeTurn;
    ghost var r1, h0 := desk.store.requests, desk.history;
    desk.Interleave(gaps.bound);
    R.RunConcat(desk.start, h0, gaps.bound);
    StaysEnded(r1, desk.store.requests, id);
    ghost var events := gaps.bound + if status.event.Some? then [R.Deliver(status.event.value)] else [];
    if status.event.Some? {
      ghost var r2 := desk.store.requests;
      var reply := desk.Do(R.Deliver(status.event.value));
      V.LaterTransitive(r1, r2, desk.store.requests);
      StaysEnded(r2, desk.store.requests, id);
      if reply.Refused? { return false, true; }
    }
    R.RunConcat(desk.start, h0, events);
    assert desk.history == h0 + events;
    ghost var r3 := desk.store.requests;
    done, failed := Conclude(desk, id, status, cancel, terminal, gaps);
    V.LaterTransitive(r1, r3, desk.store.requests);
  }

  lemma StaysEnded(before: map<nat, Request>, after: map<nat, Request>, id: nat)
    requires V.RowsLater(before, after) && id in before
    ensures id in after && (Ended(before[id].state) ==> after[id].state == before[id].state)
  {
  }

  /** Expired or invalidated, or past the end of its grant. */
  predicate ClosedByTime(row: Request, now: int) {
    row.state == RequestState.Expired || row.state == Invalidated || (row.grant.until.Some? && now >= row.grant.until.value)
  }

  /** The second half: expire, close remotely what closed here meanwhile, and decide whether anything is left to do. */
  method Conclude(desk: Desk, id: nat, status: Status, cancel: Option<Status>, terminal: bool, gaps: Gaps) returns (done: bool, failed: bool)
    requires desk.Valid() && id in desk.store.requests && (terminal ==> Ended(desk.store.requests[id].state))
    modifies desk, desk.store
    ensures desk.Valid() && V.RowsLater(old(desk.store.requests), desk.store.requests)
    ensures done ==> !failed && id in desk.store.requests
    ensures done && !Ended(desk.store.requests[id].state) ==> Final(status.decision)
    ensures !failed ==> id in desk.store.requests
    ensures !failed ==> (done <==> terminal || Final(status.decision) || ClosedByTime(desk.store.requests[id], desk.store.now))
    ensures var turn := ConcludeTurn(old(desk.store.Contents()), id, status, cancel, terminal, gaps);
      turn == Turn(turn.events, done, failed) && desk.history == old(desk.history) + turn.events
  {
    hide V.SysOk, R.Run, R.Step, V.RowsLater, V.RowLater;
    ghost var r0, h0 := desk.store.requests, desk.history;
    desk.Interleave(gaps.decided);
    ghost var r1 := desk.store.requests;
    StaysEnded(r0, r1, id);
    var current := Expired(desk, id);
    R.RunConcat(desk.start, h0, gaps.decided + [R.Expire(id)]);
    assert desk.history == h0 + (gaps.decided + [R.Expire(id)]);
    ghost var r2 := desk.store.requests;
    V.LaterTransitive(r0, r1, r2);
    StaysEnded(r1, r2, id);
    if current.None? { return false, true; }
    var request := current.value;
    GrantRunsOut(desk.store.Contents(), id);
    if !terminal && (request.state == RequestState.Expired || request.state == Invalidated) {
      desk.Interleave(gaps.closing);
      R.RunConcat(desk.start, h0, gaps.decided + [R.Expire(id)] + gaps.closing);
      assert desk.history == h0 + (gaps.decided + [R.Expire(id)] + gaps.closing);
      ghost var r3 := desk.store.requests;
      V.LaterTransitive(r0, r2, r3);
      StaysEnded(r2, r3, id);
      if cancel.None? { return false, true; }
      var ok := Bind(desk, id, cancel.value);
      V.LaterTransitive(r0, r3, desk.store.requests);
      StaysEnded(r3, desk.store.requests, id);
      return ok, !ok;
    }
    if terminal || Final(status.decision) { return true, false; }
    if request.grant.until.Some? && desk.store.now >= request.grant.until.value { return true, false; }
    return false, false;
  }

  /** A row that is not due to expire and has a grant that has run out has ended. */
  lemma GrantRunsOut(sys: Sys, id: nat)
    requires V.SysOk(sys) && id in sys.requests && !S.DueToExpire(sys.requests[id], sys.now)
    ensures sys.requests[id].grant.until.Some? && sys.now >= sys.requests[id].grant.until.value ==> Ended(sys.requests[id].state)
  {
    V.RowIsOk(sys, id);
  }

  // ---- One turn of ProcessPAMITSMWork ----

  /** What a turn does: nothing without the claim, otherwise read, synchronise and report the result. */
  ghost function WorkEvents(sys: Sys, token: nat, id: nat, provider: Provider, gaps: Gaps, claimed: seq<R.Event>, synced: seq<R.Event>)
    : seq<R.Event>
  {
    if id !in sys.requests then []
    else if R.Perform(sys, R.ClaimSync(token, id)).reply.Refused? then [R.ClaimSync(token, id)]
    else
      var begun := [R.ClaimSync(token, id)] + claimed + [R.ReadSync(token)];
      var found := R.Run(sys, begun);
      if id !in found.requests then begun
      else
        var turn := SyncTurn(found, id, found.requests[id], provider, gaps);
        begun + turn.events + synced + [R.FinishSync(token, if turn.failed then S.Failed else S.Synced(turn.done))]
  }

  /** Claim, read, synchronise, report. What it did is part of the history, so the theorems about histories hold of it. */
  method ProcessOne(desk: Desk, token: nat, id: nat, provider: Provider, gaps: Gaps, claimed: seq<R.Event>, synced: seq<R.Event>)
    returns (worked: bool, done: bool)
    requires desk.Valid()
    modifies desk, desk.store
    ensures desk.Valid() && V.RowsLater(old(desk.store.requests), desk.store.requests)
    ensures done ==> worked && id in desk.store.requests
    ensures done && !Ended(desk.store.requests[id].state) ==> provider.first.Some? && Final(provider.first.value.decision)
    ensures desk.history == old(desk.history) + WorkEvents(old(desk.store.Contents()), token, id, provider, gaps, claimed, synced)
  {
    hide V.SysOk, R.Run, R.Step, V.RowsLater, V.RowLater, R.Perform, SyncTurn;
    ghost var r0, h0 := desk.store.requests, desk.history;
    SameRows(r0);
    if id !in desk.store.requests { return false, false; }
    var reply := desk.Do(R.ClaimSync(token, id));
    ghost var r1 := desk.store.requests;
    if reply.Refused? { return false, false; }
    StaysEnded(r0, r1, id);
    desk.Interleave(claimed);
    ghost var r2 := desk.store.requests;
    V.LaterTransitive(r0, r1, r2);
    StaysEnded(r1, r2, id);
    var _ := desk.Do(R.ReadSync(token));
    ghost var r3 := desk.store.requests;
    V.LaterTransitive(r0, r2, r3);
    StaysEnded(r2, r3, id);
    LaterThanItself(desk.store.requests[id]);
    ghost var begun := [R.ClaimSync(token, id)] + claimed + [R.ReadSync(token)];
    R.RunConcat(desk.start, h0, begun);
    assert desk.history == h0 + begun;
    ghost var turn := SyncTurn(desk.store.Contents(), id, desk.store.requests[id], provider, gaps);
    var failed;
    done, failed := SyncRequest(desk, id, desk.store.requests[id], provider, gaps);
    ghost var r4 := desk.store.requests;
    V.LaterTransitive(r0, r3, r4);
    StaysEnded(r3, r4, id);
    desk.Interleave(synced);
    ghost var r5 := desk.store.requests;
    V.LaterTransitive(r0, r4, r5);
    StaysEnded(r4, r5, id);
    var _ := desk.Do(R.FinishSync(token, if failed then S.Failed else S.Synced(done)));
    V.LaterTransitive(r0, r5, desk.store.requests);
    StaysEnded(r5, desk.store.requests, id);
    worked := true;
    assert desk.history == h0 + (begun + turn.events + synced + [R.FinishSync(token, if turn.failed then S.Failed else S.Synced(turn.done))]);
  }

  lemma LaterThanItself(row: Request)
    ensures V.RowLater(row, row)
  {
  }
}
