/** The loop that watches a managed connection: check, renew, sleep. What it cannot control comes from outside: how
 long a check takes, how late a timer fires, when the session is cancelled, and whether authority holds at an instant. */
module SessionWatch {
  import opened Basics
  import SessionLease

  const CHECK := 5 * SECOND
  const INTERVAL := 10 * SECOND

  /** One turn of the loop. `check` is how long the check would take, `observe` when within it the rows are read and
   `renew` how much later the lease is; `lag` and `sleepLag` are how late the two timers are. */
  datatype Round = Round(check: nat, observe: nat, renew: nat, storeFails: bool, lag: nat, sleepLag: nat,
                         cancelledInCheck: bool, cancelledAsleep: Option<nat>)

  datatype Why = Watching | Cancelled | NoAuthority(seen: int) | TimedOut | StoreFailed | LeaseLost(tried: int)

  /** An optional earlier instant: `a`, or `b` when that is before it. */
  function Min(a: int, b: Option<int>): int {
    if b.Some? && b.value < a then b.value else a
  }

  function Max(a: int, b: int): int {
    if a < b then b else a
  }

  predicate TimelyWithin(rounds: seq<Round>, lag: nat) {
    forall i :: 0 <= i < |rounds| ==> rounds[i].lag <= lag && rounds[i].sleepLag <= lag
  }

  /** Authority is missing from `lost` up to `until`. */
  ghost predicate LostUntil(authority: int -> bool, lost: int, until: int) {
    forall t :: lost <= t <= until ==> !authority(t)
  }

  /** By when the check after the latest possible sleep has met a loss. */
  function Noticed(start: int, lost: int, lag: nat): int {
    Max(start, lost + CHECK + INTERVAL + lag) + CHECK
  }

  predicate Passed(limit: Option<int>, now: int) {
    limit.Some? && now >= limit.value
  }

  // ---- One check ----

  /** How a check ended, and when the rows were read, if they were. */
  datatype Checked = Checked(finished: int, why: Why, lease: Option<int>, read: Option<int>)

  function Check(round: Round, now: int, deadline: Option<int>, lease: Option<int>, authority: int -> bool): Checked {
    var end := Min(Min(now + CHECK, deadline), lease);
    var finished := now + round.check;
    var seen := Min(finished, Some(now + round.observe));
    var tried := Min(finished, Some(seen + round.renew));
    if Passed(deadline, now) then Checked(now, NoAuthority(now), lease, None)
    else if finished > end then Checked(Max(now, end) + round.lag, TimedOut, lease, None)
    else if round.storeFails then Checked(finished, StoreFailed, lease, None)
    else if !authority(seen) || Passed(deadline, seen) then Checked(finished, NoAuthority(seen), lease, Some(seen))
    else if lease.None? then Checked(finished, Watching, None, Some(seen))
    else if Passed(lease, tried) || Passed(deadline, tried) then Checked(finished, LeaseLost(tried), lease, Some(seen))
    else Checked(finished, Watching, Some(tried + SessionLease.TTL), Some(seen))
  }

  /** What the result of a check says: it ends within five seconds, the deadline and the lease, up to timer lateness; it
   goes on only if it saw authority and renewed the lease; and any other reason it gives is so. */
  predicate Sound(c: Checked, round: Round, now: int, deadline: Option<int>, lease: Option<int>, authority: int -> bool) {
    && now <= c.finished <= Max(now, Min(Min(now + CHECK, deadline), lease)) + round.lag
    && (c.lease.Some? <==> lease.Some?)
    && (c.read.Some? ==> now <= c.read.value <= c.finished <= now + CHECK)
    && (c.read.Some? && !authority(c.read.value) ==> c.why == NoAuthority(c.read.value))
    && (c.why.Watching? ==>
          && c.finished <= Min(Min(now + CHECK, deadline), lease)
          && c.read.Some? && authority(c.read.value) && !Passed(deadline, now) && !Passed(lease, now)
          && (lease.Some? ==> now + SessionLease.TTL <= c.lease.value <= c.finished + SessionLease.TTL))
    && (c.why.NoAuthority? ==>
          now <= c.why.seen <= c.finished && (Passed(deadline, c.why.seen) || (c.read == Some(c.why.seen) && !authority(c.why.seen))))
    && (c.why.LeaseLost? ==> now <= c.why.tried <= c.finished && (Passed(lease, c.why.tried) || Passed(deadline, c.why.tried)))
    && (!c.why.Watching? ==> c.lease == lease)
  }

  lemma CheckIsSound(round: Round, now: int, deadline: Option<int>, lease: Option<int>, authority: int -> bool)
    ensures Sound(Check(round, now, deadline, lease, authority), round, now, deadline, lease, authority)
  {
  }

  /** CheckPAMConnectionPermit followed by renewPAMSessionLease, under one context deadline. */
  method CheckAndRenew(round: Round, now: int, deadline: Option<int>, lease: Option<int>, authority: int -> bool)
    returns (finished: int, why: Why, renewed: Option<int>, read: Option<int>)
    ensures Checked(finished, why, renewed, read) == Check(round, now, deadline, lease, authority)
    ensures Sound(Checked(finished, why, renewed, read), round, now, deadline, lease, authority)
  {
    hide Sound, Min, Max;
    CheckIsSound(round, now, deadline, lease, authority);
    renewed, read := lease, None;
    var end := Min(Min(now + CHECK, deadline), lease);
    if deadline.Some? && now >= deadline.value { return now, NoAuthority(now), renewed, read; }
    if now + round.check > end {
      return Max(now, end) + round.lag, TimedOut, renewed, read;
    }
    finished := now + round.check;
    var seen := Min(finished, Some(now + round.observe));
    if round.storeFails { return finished, StoreFailed, renewed, read; }
    read := Some(seen);
    if !authority(seen) || (deadline.Some? && seen >= deadline.value) { return finished, NoAuthority(seen), renewed, read; }
    why := Watching;
    if lease.Some? {
      var tried := Min(finished, Some(seen + round.renew));
      if tried >= lease.value || (deadline.Some? && tried >= deadline.value) { return finished, LeaseLost(tried), renewed, read; }
      renewed := Some(tried + SessionLease.TTL);
    }
  }

  // ---- All of them ----

  /** When, why and with which lease the loop ended, and at which instants the rows were read. */
  datatype Watched = Watched(at: int, why: Why, lease: Option<int>, readAt: seq<int>)

  function OneRead(c: Checked): seq<int> {
    if c.read.Some? then [c.read.value] else []
  }

  /** When the sleep after this check ends. */
  function WakeAt(c: Checked, deadline: Option<int>, late: nat): int {
    Max(c.finished, Min(Min(c.finished + INTERVAL, deadline), c.lease)) + late
  }

  /** The check is the last turn: cancelled, refused, or cancelled in the sleep after it. */
  predicate EndsHere(round: Round, c: Checked) {
    round.cancelledInCheck || !c.why.Watching? || round.cancelledAsleep.Some?
  }

  function LastTurn(round: Round, c: Checked, deadline: Option<int>): Watched
    requires EndsHere(round, c)
  {
    if round.cancelledInCheck then Watched(c.finished, Cancelled, c.lease, OneRead(c))
    else if !c.why.Watching? then Watched(c.finished, c.why, c.lease, OneRead(c))
    else
      var woken := Min(WakeAt(c, deadline, round.sleepLag), Some(c.finished + round.cancelledAsleep.value));
      Watched(woken, Cancelled, c.lease, OneRead(c))
  }

  function After(readAt: seq<int>, r: Watched): Watched {
    r.(readAt := readAt + r.readAt)
  }

  function Turns(rounds: seq<Round>, now: int, deadline: Option<int>, lease: Option<int>, authority: int -> bool): Watched {
    if rounds == [] then Watched(now, Watching, lease, [])
    else
      var c := Check(rounds[0], now, deadline, lease, authority);
      if EndsHere(rounds[0], c) then LastTurn(rounds[0], c, deadline)
      else
        var rest := Turns(rounds[1..], WakeAt(c, deadline, rounds[0].sleepLag), deadline, c.lease, authority);
        After(OneRead(c), rest)
  }

  // ---- What one turn means for the next ----

  lemma CheckBounds(round: Round, now: int, deadline: Option<int>, lease: Option<int>, authority: int -> bool)
    ensures var c := Check(round, now, deadline, lease, authority);
      && now <= c.finished <= now + CHECK + round.lag
      && (deadline.Some? ==> c.finished <= Max(now, deadline.value) + round.lag)
      && (c.lease.Some? <==> lease.Some?) && (c.why.Watching? || c.lease == lease)
      && (c.lease.Some? ==> c.finished <= Max(now, c.lease.value) + round.lag)
      && (c.read.Some? ==> now <= c.read.value <= c.finished <= now + CHECK && !Passed(deadline, now))
      && (c.read.Some? && !authority(c.read.value) ==> c.why == NoAuthority(c.read.value))
  {
  }

  lemma WatchingOn(round: Round, now: int, deadline: Option<int>, lease: Option<int>, authority: int -> bool)
    requires Check(round, now, deadline, lease, authority).why.Watching?
    ensures var c := Check(round, now, deadline, lease, authority);
      var wake := WakeAt(c, deadline, round.sleepLag);
      && c.read.Some? && authority(c.read.value) && c.finished <= wake <= c.finished + INTERVAL + round.sleepLag
      && now <= c.read.value <= c.finished <= now + CHECK
      && (deadline.Some? ==> c.finished <= deadline.value && wake <= deadline.value + round.sleepLag)
      && (c.lease.Some? ==> c.finished + INTERVAL < c.lease.value && wake <= c.lease.value + round.sleepLag)
      && (!Passed(deadline, wake) ==> wake >= c.finished + INTERVAL)
  {
  }

  lemma {:induction false} EndsByDeadline(rounds: seq<Round>, now: int, deadline: Option<int>, lease: Option<int>, authority: int -> bool,
                                          lag: nat)
    requires TimelyWithin(rounds, lag)
    ensures var r := Turns(rounds, now, deadline, lease, authority);
      r.at >= now && (deadline.Some? ==> r.at <= Max(now, deadline.value + lag) + lag)
    decreases |rounds|
  {
    hide Check, WakeAt;
    if rounds != [] {
      var c := Check(rounds[0], now, deadline, lease, authority);
      CheckBounds(rounds[0], now, deadline, lease, authority);
      if c.why.Watching? {
        WatchingOn(rounds[0], now, deadline, lease, authority);
        if !EndsHere(rounds[0], c) { EndsByDeadline(rounds[1..], WakeAt(c, deadline, rounds[0].sleepLag), deadline, c.lease, authority, lag); }
      }
    }
  }

  /** The lease it ends with is the one it had or a renewed one, and it is not outlived. */
  lemma {:induction false} EndsByLease(rounds: seq<Round>, now: int, deadline: Option<int>, lease: Option<int>, authority: int -> bool,
                                       lag: nat)
    requires TimelyWithin(rounds, lag)
    ensures var r := Turns(rounds, now, deadline, lease, authority);
      && (r.lease.Some? <==> lease.Some?) && (r.lease.Some? ==> r.lease == lease || r.lease.value >= now)
      && (r.lease.Some? ==> r.at <= Max(now, r.lease.value + lag) + lag)
    decreases |rounds|
  {
    hide Check, WakeAt;
    if rounds != [] {
      var c := Check(rounds[0], now, deadline, lease, authority);
      CheckBounds(rounds[0], now, deadline, lease, authority);
      if c.why.Watching? {
        WatchingOn(rounds[0], now, deadline, lease, authority);
        if !EndsHere(rounds[0], c) { EndsByLease(rounds[1..], WakeAt(c, deadline, rounds[0].sleepLag), deadline, c.lease, authority, lag); }
      }
    }
  }

  /** Past the deadline and the end of its last lease by timer lateness only. */
  predicate InTime(r: Watched, start: int, deadline: Option<int>, admitted: Option<int>, lag: nat) {
    && r.at >= start && (r.lease.Some? <==> admitted.Some?)
    && (deadline.Some? ==> r.at <= Max(start, deadline.value + lag) + lag)
    && (r.lease.Some? ==> r.at <= Max(start, r.lease.value + lag) + lag)
  }

  lemma EndsInTime(rounds: seq<Round>, now: int, deadline: Option<int>, lease: Option<int>, authority: int -> bool, lag: nat)
    requires TimelyWithin(rounds, lag)
    ensures InTime(Turns(rounds, now, deadline, lease, authority), now, deadline, lease, lag)
  {
    hide Turns;
    EndsByDeadline(rounds, now, deadline, lease, authority, lag);
    EndsByLease(rounds, now, deadline, lease, authority, lag);
  }

  /** A loss that outlasts a check, a sleep and a check is met. */
  lemma {:induction false} LossIsMet(rounds: seq<Round>, now: int, deadline: Option<int>, lease: Option<int>, authority: int -> bool,
                                     start: int, lost: int, lag: nat)
    requires TimelyWithin(rounds, lag) && LostUntil(authority, lost, Noticed(start, lost, lag))
    requires now <= Max(start, lost + CHECK + INTERVAL + lag)
    ensures Turns(rounds, now, deadline, lease, authority).at <= Noticed(start, lost, lag) + lag
    decreases |rounds|
  {
    hide Check, WakeAt;
    if rounds != [] {
      var c := Check(rounds[0], now, deadline, lease, authority);
      CheckBounds(rounds[0], now, deadline, lease, authority);
      if c.why.Watching? {
        WatchingOn(rounds[0], now, deadline, lease, authority);
        assert c.read.value < lost;
        if !EndsHere(rounds[0], c) {
          LossIsMet(rounds[1..], WakeAt(c, deadline, rounds[0].sleepLag), deadline, c.lease, authority, start, lost, lag);
        }
      }
    }
  }

  lemma LossFromStart(rounds: seq<Round>, start: int, deadline: Option<int>, lease: Option<int>, authority: int -> bool, lost: int, lag: nat)
    requires TimelyWithin(rounds, lag) && LostUntil(authority, lost, Noticed(start, lost, lag))
    ensures Turns(rounds, start, deadline, lease, authority).at <= Noticed(start, lost, lag) + lag
  {
    hide Turns;
    LossIsMet(rounds, start, deadline, lease, authority, start, lost, lag);
  }

  lemma {:induction false} GoesOn(rounds: seq<Round>, now: int, deadline: Option<int>, lease: Option<int>, authority: int -> bool)
    requires Turns(rounds, now, deadline, lease, authority).why.Watching? && rounds != []
    ensures Turns(rounds, now, deadline, lease, authority).at >= now + (|rounds| - 1) * INTERVAL
    decreases |rounds|
  {
    hide Check, WakeAt;
    var c := Check(rounds[0], now, deadline, lease, authority);
    var wake := WakeAt(c, deadline, rounds[0].sleepLag);
    WatchingOn(rounds[0], now, deadline, lease, authority);
    if |rounds| > 1 {
      GoesOn(rounds[1..], wake, deadline, c.lease, authority);
      if Passed(deadline, wake) { PassedEnds(rounds[1..], wake, deadline, c.lease, authority); }
    }
  }

  lemma PassedEnds(rounds: seq<Round>, now: int, deadline: Option<int>, lease: Option<int>, authority: int -> bool)
    requires rounds != [] && Passed(deadline, now)
    ensures !Turns(rounds, now, deadline, lease, authority).why.Watching?
  {
  }

  // ---- The rule ----

  /** Two reads are apart by a sleep, and by at most a check, a sleep and a check. */
  ghost predicate Spaced(readAt: seq<int>, start: int, lag: nat) {
    && (readAt != [] ==> start <= readAt[0] <= start + CHECK)
    && (forall k :: 0 < k < |readAt| ==> readAt[k - 1] + INTERVAL <= readAt[k] <= readAt[k - 1] + CHECK + INTERVAL + lag + CHECK)
  }

  /** The first read without authority is the last of all and the reason to end, unless the caller cancelled meanwhile. */
  predicate EndedByRead(r: Watched, authority: int -> bool) {
    && (forall k :: 0 <= k < |r.readAt| - 1 ==> authority(r.readAt[k]))
    && (r.readAt != [] && !authority(r.readAt[|r.readAt| - 1]) ==>
          r.why == NoAuthority(r.readAt[|r.readAt| - 1]) || r.why.Cancelled?)
  }

  lemma {:induction false} ReadsSpaced(rounds: seq<Round>, now: int, deadline: Option<int>, lease: Option<int>, authority: int -> bool, lag: nat)
    requires TimelyWithin(rounds, lag)
    ensures Spaced(Turns(rounds, now, deadline, lease, authority).readAt, now, lag)
    decreases |rounds|
  {
    hide Check, WakeAt;
    if rounds != [] {
      var c := Check(rounds[0], now, deadline, lease, authority);
      CheckBounds(rounds[0], now, deadline, lease, authority);
      if !EndsHere(rounds[0], c) {
        WatchingOn(rounds[0], now, deadline, lease, authority);
        var wake := WakeAt(c, deadline, rounds[0].sleepLag);
        ReadsSpaced(rounds[1..], wake, deadline, c.lease, authority, lag);
        ReadsNothingPassed(rounds[1..], wake, deadline, c.lease, authority);
        SpacedAhead(c.read.value, Turns(rounds[1..], wake, deadline, c.lease, authority).readAt, now, wake, lag);
      }
    }
  }

  lemma SpacedAhead(first: int, rest: seq<int>, now: int, wake: int, lag: nat)
    requires now <= first <= now + CHECK && Spaced(rest, wake, lag)
    requires rest != [] ==> first + INTERVAL <= wake <= first + CHECK + INTERVAL + lag
    ensures Spaced([first] + rest, now, lag)
  {
  }

  lemma {:induction false} ReadsDecide(rounds: seq<Round>, now: int, deadline: Option<int>, lease: Option<int>, authority: int -> bool)
    ensures EndedByRead(Turns(rounds, now, deadline, lease, authority), authority)
    decreases |rounds|
  {
    hide Check, WakeAt;
    if rounds != [] {
      var c := Check(rounds[0], now, deadline, lease, authority);
      CheckBounds(rounds[0], now, deadline, lease, authority);
      if !EndsHere(rounds[0], c) {
        WatchingOn(rounds[0], now, deadline, lease, authority);
        ReadsDecide(rounds[1..], WakeAt(c, deadline, rounds[0].sleepLag), deadline, c.lease, authority);
      }
    }
  }

  lemma ReadsNothingPassed(rounds: seq<Round>, now: int, deadline: Option<int>, lease: Option<int>, authority: int -> bool)
    ensures Passed(deadline, now) ==> Turns(rounds, now, deadline, lease, authority).readAt == []
  {
  }

  /** No other reason is given for ending than what happened. */
  predicate WithReason(r: Watched, deadline: Option<int>, authority: int -> bool) {
    && (r.why.NoAuthority? ==>
          || Passed(deadline, r.why.seen)
          || (r.readAt != [] && r.readAt[|r.readAt| - 1] == r.why.seen && !authority(r.why.seen)))
    && (r.why.LeaseLost? ==> Passed(r.lease, r.why.tried) || Passed(deadline, r.why.tried))
  }

  lemma {:induction false} ReasonsHold(rounds: seq<Round>, now: int, deadline: Option<int>, lease: Option<int>, authority: int -> bool)
    ensures WithReason(Turns(rounds, now, deadline, lease, authority), deadline, authority)
    decreases |rounds|
  {
    if rounds != [] {
      var c := Check(rounds[0], now, deadline, lease, authority);
      if !EndsHere(rounds[0], c) {
        ReasonsHold(rounds[1..], WakeAt(c, deadline, rounds[0].sleepLag), deadline, c.lease, authority);
      }
    }
  }

  /** The rule for a loss of any length: without a deadline, a loop that nobody cancels ends for lack of authority exactly
   if one of its reads falls inside a loss. */
  lemma NoticedExactly(rounds: seq<Round>, now: int, lease: Option<int>, authority: int -> bool)
    requires !Turns(rounds, now, None, lease, authority).why.Cancelled?
    ensures var r := Turns(rounds, now, None, lease, authority);
      r.why.NoAuthority? <==> exists k :: 0 <= k < |r.readAt| && !authority(r.readAt[k])
  {
    hide Turns;
    ReadsDecide(rounds, now, None, lease, authority);
    ReasonsHold(rounds, now, None, lease, authority);
  }

  /** The check takes no time, the timers fire punctually, nothing fails and nobody cancels. */
  predicate Prompt(round: Round) {
    round.check == 0 && !round.storeFails && round.sleepLag == 0 && !round.cancelledInCheck && round.cancelledAsleep.None?
  }

  predicate AllPrompt(rounds: seq<Round>) {
    forall i :: 0 <= i < |rounds| ==> Prompt(rounds[i])
  }

  /** Authority is there at each of the first n turns of a punctual loop. */
  ghost predicate ThereAtTurns(authority: int -> bool, start: int, n: nat) {
    forall k :: 0 <= k < n ==> authority(start + k * INTERVAL)
  }

  lemma PromptTurn(round: Round, now: int, lease: Option<int>, authority: int -> bool)
    requires Prompt(round) && !Passed(lease, now)
    ensures var c := Check(round, now, None, lease, authority);
      && (c.why.Watching? <==> authority(now))
      && (c.why.Watching? ==> WakeAt(c, None, round.sleepLag) == now + INTERVAL && !Passed(c.lease, now + INTERVAL))
  {
  }

  lemma TurnsAhead(authority: int -> bool, start: int, n: nat)
    ensures ThereAtTurns(authority, start, n + 1) <==> authority(start) && ThereAtTurns(authority, start + INTERVAL, n)
  {
    if ThereAtTurns(authority, start, n + 1) {
      assert authority(start + 0 * INTERVAL);
      forall k | 0 <= k < n ensures authority(start + INTERVAL + k * INTERVAL) {
        assert authority(start + (k + 1) * INTERVAL);
      }
    } else if authority(start) && ThereAtTurns(authority, start + INTERVAL, n) {
      forall k | 0 <= k < n + 1 ensures authority(start + k * INTERVAL) {
        if k > 0 { assert authority(start + INTERVAL + (k - 1) * INTERVAL); }
      }
    }
  }

  /** A punctual loop without a deadline goes on exactly while authority is there at every tenth second. */
  lemma {:induction false} PunctualRule(rounds: seq<Round>, now: int, lease: Option<int>, authority: int -> bool)
    requires AllPrompt(rounds) && !Passed(lease, now)
    ensures Turns(rounds, now, None, lease, authority).why.Watching? <==> ThereAtTurns(authority, now, |rounds|)
    decreases |rounds|
  {
    hide Check, WakeAt, ThereAtTurns;
    if rounds == [] {
      NoTurns(authority, now);
    } else {
      var c := Check(rounds[0], now, None, lease, authority);
      PromptTurn(rounds[0], now, lease, authority);
      TurnsAhead(authority, now, |rounds| - 1);
      if c.why.Watching? { PunctualRule(rounds[1..], now + INTERVAL, c.lease, authority); }
    }
  }

  lemma NoTurns(authority: int -> bool, now: int)
    ensures ThereAtTurns(authority, now, 0)
  {
  }

  /** A loss of authority between two punctual checks goes unnoticed, however many follow. */
  lemma LossUnnoticed(start: int, lost: int, back: int, turn: nat, rounds: seq<Round>)
    requires AllPrompt(rounds) && start + turn * INTERVAL < lost <= back <= start + (turn + 1) * INTERVAL
    ensures Turns(rounds, start, None, None, t => !(lost <= t < back)).why.Watching?
  {
    hide Turns, AllPrompt;
    PunctualRule(rounds, start, None, t => !(lost <= t < back));
  }

  /** The check ends in time, nothing fails and nobody cancels. */
  predicate Orderly(round: Round, lag: nat) {
    round.check <= CHECK && !round.storeFails && round.sleepLag <= lag && !round.cancelledInCheck && round.cancelledAsleep.None?
  }

  ghost predicate AllOrderly(rounds: seq<Round>, lag: nat) {
    forall i :: 0 <= i < |rounds| ==> Orderly(rounds[i], lag)
  }

  /** The latest end of so many turns. */
  function LatestEnd(now: int, turns: nat, lag: nat): int
    decreases turns
  {
    if turns == 0 then now else LatestEnd(now + CHECK + INTERVAL + lag, turns - 1, lag)
  }

  lemma OrderlyTurn(round: Round, now: int, deadline: Option<int>, lease: Option<int>, authority: int -> bool, lag: nat)
    requires Orderly(round, lag) && CHECK + INTERVAL + lag + CHECK < SessionLease.TTL
    requires (lease.Some? ==> now + CHECK < lease.value) && (deadline.Some? ==> now + CHECK + INTERVAL < deadline.value)
    ensures var c := Check(round, now, deadline, lease, authority);
      && c.read.Some? && now <= c.read.value <= c.finished == now + round.check
      && (c.why == if authority(c.read.value) then Watching else NoAuthority(c.read.value))
      && (c.why.Watching? ==>
            && var wake := WakeAt(c, deadline, round.sleepLag);
               wake == c.finished + INTERVAL + round.sleepLag && (c.lease.Some? ==> wake + CHECK < c.lease.value))
  {
  }

  /** Nothing but lack of authority ends an orderly loop: with checks that take up to five seconds, timers late by less than
   a quarter of a minute, a lease held and the deadline beyond its last turn, it reads once a turn and goes on exactly
   while every read finds authority. */
  lemma {:induction false} OrderlyRule(rounds: seq<Round>, now: int, deadline: Option<int>, lease: Option<int>, authority: int -> bool, lag: nat)
    requires AllOrderly(rounds, lag) && CHECK + INTERVAL + lag + CHECK < SessionLease.TTL
    requires (lease.Some? ==> now + CHECK < lease.value) && (deadline.Some? ==> LatestEnd(now, |rounds|, lag) < deadline.value)
    ensures var r := Turns(rounds, now, deadline, lease, authority);
      && (r.why.Watching? <==> AllSeen(r.readAt, authority))
      && (r.why.Watching? ==> |r.readAt| == |rounds|)
      && (!r.why.Watching? ==> r.readAt != [] && r.why == NoAuthority(r.readAt[|r.readAt| - 1]) && !authority(r.readAt[|r.readAt| - 1]))
    decreases |rounds|
  {
    hide Check, WakeAt, AllSeen;
    NoneSeen(authority);
    if rounds != [] {
      var c := Check(rounds[0], now, deadline, lease, authority);
      OneSeen(c.read, Turns(rounds[1..], WakeAt(c, deadline, rounds[0].sleepLag), deadline, c.lease, authority).readAt, authority);
      EndsLater(now + CHECK + INTERVAL + lag, |rounds| - 1, lag);
      OrderlyTurn(rounds[0], now, deadline, lease, authority, lag);
      if c.why.Watching? {
        var wake := WakeAt(c, deadline, rounds[0].sleepLag);
        EndsSooner(wake, now + CHECK + INTERVAL + lag, |rounds| - 1, lag);
        OrderlyRule(rounds[1..], wake, deadline, c.lease, authority, lag);
      }
    }
  }

  ghost predicate AllSeen(readAt: seq<int>, authority: int -> bool) {
    forall k :: 0 <= k < |readAt| ==> authority(readAt[k])
  }

  lemma NoneSeen(authority: int -> bool)
    ensures AllSeen([], authority)
  {
  }

  lemma OneSeen(read: Option<int>, rest: seq<int>, authority: int -> bool)
    ensures read.Some? ==> (AllSeen([read.value], authority) <==> authority(read.value))
    ensures read.Some? ==> (AllSeen([read.value] + rest, authority) <==> authority(read.value) && AllSeen(rest, authority))
  {
    if read.Some? {
      assert ([read.value] + rest)[0] == read.value;
      assert forall k :: 0 <= k < |rest| ==> ([read.value] + rest)[k + 1] == rest[k];
    }
  }

  lemma EndsLater(now: int, turns: nat, lag: nat)
    ensures now <= LatestEnd(now, turns, lag)
    decreases turns
  {
    if turns > 0 { EndsLater(now + CHECK + INTERVAL + lag, turns - 1, lag); }
  }

  lemma EndsSooner(a: int, b: int, turns: nat, lag: nat)
    requires a <= b
    ensures LatestEnd(a, turns, lag) <= LatestEnd(b, turns, lag)
    decreases turns
  {
    if turns > 0 { EndsSooner(a + CHECK + INTERVAL + lag, b + CHECK + INTERVAL + lag, turns - 1, lag); }
  }

  /** A loop that is still watching was not cancelled, lost no check and got every answer of the store. */
  lemma {:induction false} WatchingMeans(rounds: seq<Round>, now: int, deadline: Option<int>, lease: Option<int>, authority: int -> bool)
    requires Turns(rounds, now, deadline, lease, authority).why.Watching?
    ensures forall i :: 0 <= i < |rounds| ==>
      !rounds[i].cancelledInCheck && rounds[i].cancelledAsleep.None? && !rounds[i].storeFails && rounds[i].check <= CHECK
    decreases |rounds|
  {
    if rounds != [] {
      var c := Check(rounds[0], now, deadline, lease, authority);
      WatchingMeans(rounds[1..], WakeAt(c, deadline, rounds[0].sleepLag), deadline, c.lease, authority);
      assert forall i :: 0 < i < |rounds| ==> rounds[i] == rounds[1..][i - 1];
    }
  }

  // ---- The loop ----

  lemma OneTurn(rounds: seq<Round>, i: nat, now: int, deadline: Option<int>, lease: Option<int>, authority: int -> bool)
    requires i < |rounds|
    ensures var c := Check(rounds[i], now, deadline, lease, authority);
      Turns(rounds[i..], now, deadline, lease, authority) ==
        if EndsHere(rounds[i], c) then LastTurn(rounds[i], c, deadline)
        else After(OneRead(c), Turns(rounds[i + 1..], WakeAt(c, deadline, rounds[i].sleepLag), deadline, c.lease, authority))
  {
    hide Check;
    assert rounds[i..][1..] == rounds[i + 1..];
  }

  lemma NoTurn(rounds: seq<Round>, now: int, deadline: Option<int>, lease: Option<int>, authority: int -> bool)
    ensures Turns(rounds[|rounds|..], now, deadline, lease, authority) == Watched(now, Watching, lease, [])
  {
  }

  /** WatchPAMConnection. It is past a loss of authority that lasts long enough by at most one check, one sleep and one
   check, past the deadline or the end of its lease only by timer lateness; a loss of any length ends it exactly if one
   of its reads falls inside, and its last turn says why it stopped. */
  method Watch(start: int, deadline: Option<int>, admitted: Option<int>, authority: int -> bool, rounds: seq<Round>,
               ghost lost: int, ghost lag: nat)
    returns (at: int, why: Why, lease: Option<int>, ghost readAt: seq<int>)
    requires TimelyWithin(rounds, lag)
    ensures Watched(at, why, lease, readAt) == Turns(rounds, start, deadline, admitted, authority)
    ensures LostUntil(authority, lost, Noticed(start, lost, lag)) ==> at <= Noticed(start, lost, lag) + lag
    ensures InTime(Watched(at, why, lease, readAt), start, deadline, admitted, lag)
    ensures why.Watching? && rounds != [] ==> at >= start + (|rounds| - 1) * INTERVAL
    ensures Spaced(readAt, start, lag) && EndedByRead(Watched(at, why, lease, readAt), authority)
    ensures WithReason(Watched(at, why, lease, readAt), deadline, authority)
  {
    hide Check, Sound, Turns, LostUntil, Spaced, EndedByRead, InTime, WithReason, Noticed, Min, Max, Passed, TimelyWithin;
    EndsInTime(rounds, start, deadline, admitted, authority, lag);
    ReadsSpaced(rounds, start, deadline, admitted, authority, lag);
    ReadsDecide(rounds, start, deadline, admitted, authority);
    ReasonsHold(rounds, start, deadline, admitted, authority);
    if Turns(rounds, start, deadline, admitted, authority).why.Watching? && rounds != [] {
      GoesOn(rounds, start, deadline, admitted, authority);
    }
    if LostUntil(authority, lost, Noticed(start, lost, lag)) { LossFromStart(rounds, start, deadline, admitted, authority, lost, lag); }
    at, why, lease, readAt := start, Watching, admitted, [];
    for i := 0 to |rounds|
      invariant why.Watching?
      invariant Turns(rounds, start, deadline, admitted, authority) == After(readAt, Turns(rounds[i..], at, deadline, lease, authority))
    {
      var round := rounds[i];
      OneTurn(rounds, i, at, deadline, lease, authority);
      var read;
      at, why, lease, read := CheckAndRenew(round, at, deadline, lease, authority);
      if read.Some? { readAt := readAt + [read.value]; }
      if round.cancelledInCheck { return at, Cancelled, lease, readAt; }
      if !why.Watching? { return; }
      var nextCheck := Min(Min(at + INTERVAL, deadline), lease);
      var wake := Max(at, nextCheck) + round.sleepLag;
      if round.cancelledAsleep.Some? { return Min(wake, Some(at + round.cancelledAsleep.value)), Cancelled, lease, readAt; }
      at := wake;
    }
    NoTurn(rounds, at, deadline, lease, authority);
  }

  /** Enough turns of the loop always end it: authority lost for long enough cannot be outlived. */
  method WatchUntilEnded(start: int, deadline: Option<int>, admitted: Option<int>, authority: int -> bool, rounds: seq<Round>,
                         ghost lost: int, ghost lag: nat)
    returns (at: int, why: Why)
    requires TimelyWithin(rounds, lag) && LostUntil(authority, lost, Noticed(start, lost, lag)) && lost >= start
    requires (|rounds| - 1) * INTERVAL > lost - start + 2 * CHECK + INTERVAL + 2 * lag
    ensures !why.Watching?
    ensures at <= lost + CHECK + INTERVAL + CHECK + 2 * lag
  {
    ghost var lease, readAt;
    at, why, lease, readAt := Watch(start, deadline, admitted, authority, rounds, lost, lag);
  }
}
