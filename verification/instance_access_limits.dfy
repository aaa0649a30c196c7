/**
  How many access requests a run can open: at most nineteen in less than a minute, and never more than a hundred
  rows.
*/
module InstanceAccessLimits {
  import opened InstanceAccess
  import opened InstanceAccessProofs
  import opened Wrappers

  /** When requests were opened. */
  function Times(log: seq<Event>): seq<nat> {
    if |log| == 0 then []
    else if log[|log| - 1].Opened? then Times(log[..|log| - 1]) + [log[|log| - 1].at]
    else Times(log[..|log| - 1])
  }

  lemma TimesAppend(log: seq<Event>, e: Event)
    ensures Times(log + [e]) == if e.Opened? then Times(log) + [e.at] else Times(log)
  {
    assert (log + [e])[..|log|] == log;
  }

  const SPAN: nat := 2 * PER_WINDOW - 1

  ghost predicate Spaced(times: seq<nat>) {
    forall i :: 0 <= i && i + SPAN < |times| ==> times[i + SPAN] >= times[i] + WINDOW
  }

  /** All ten requests of a window were opened only if the call that began it opened one. */
  predicate FullFromStart(times: seq<nat>, from: nat, to: nat, start: nat)
    requires from <= to <= |times|
  {
    to - from >= PER_WINDOW ==> times[from] <= start
  }

  /** The call that began the current window opened its first request, or fewer were opened than counted. */
  predicate CountedFromStart(times: seq<nat>, from: nat, start: nat, count: nat)
    requires from <= |times|
  {
    from < |times| && times[from] > start ==> |times| - from < Min(count, PER_WINDOW)
  }

  /**
    The opened requests fall into those before index `b`, those of the window that began at `w` and those, from index
    `a` on, of the current window.  Before the first counted call there are none.
   */
  ghost predicate Windowed(times: seq<nat>, window: nat, count: nat, now: nat, a: nat, b: nat, w: nat) {
    && b <= a <= |times| && a - b <= PER_WINDOW && |times| - a <= Min(count, PER_WINDOW) && window <= now
    && (a > 0 ==> w + WINDOW <= window)
    && (forall i :: 0 <= i < b ==> times[i] <= w)
    && (forall i :: 0 <= i < a ==> times[i] <= window)
    && (forall i :: 0 <= i < |times| ==> times[i] <= now)
    && FullFromStart(times, b, a, w) && CountedFromStart(times, a, window, count)
    && (count == 0 ==> |times| == 0 && window == 0)
  }

  ghost predicate InWindows(times: seq<nat>, window: nat, count: nat, now: nat) {
    exists a, b, w :: Windowed(times, window, count, now, a, b, w)
  }

  ghost predicate LimitInv(s: State, now: nat) {
    Spaced(Times(s.log)) && CountRows(s.requests) <= QUEUE && InWindows(Times(s.log), s.window, s.count, now)
  }

  /** The window and counter after a counted call. */
  function Rolled(s: State, now: nat): (nat, nat) {
    if now - s.window >= WINDOW then (now, 1) else (s.window, s.count + 1)
  }

  /** A step leaves the counters alone or counts a call, and opens at most one request, within the limit. */
  ghost predicate Counts(s: State, t: State, now: nat) {
    || ((t.window, t.count) == (s.window, s.count) && Times(t.log) == Times(s.log))
    || ((t.window, t.count) == Rolled(s, now)
        && (Times(t.log) == Times(s.log) || (Times(t.log) == Times(s.log) + [now] && t.count <= PER_WINDOW)))
  }

  /** Only asking counts a call or opens a request. */
  ghost predicate Quiet(s: State, t: State) {
    && t.window == s.window && t.count == s.count && Shrinks(s.requests, t.requests)
    && (t.log == s.log || (exists r :: t.log == s.log + [Allowed(r)])
        || exists r, c, token :: t.log == s.log + [Issued(r, c, token)])
  }

  lemma ClaimQuiet(s: State, now: nat, r: nat)
    ensures Quiet(s, ClaimApproved(s, now, r).0)
  {
    var t := ClaimApproved(s, now, r).0;
    if t != s {
      var c := if s.requests[r].client.Some? then s.requests[r].client.value else |s.clients|;
      assert t.log == s.log + [Issued(r, c, s.tokens)];
    }
  }

  lemma DecideQuiet(s: State, now: nat, owner: bool, r: nat, approve: bool, oauth: bool)
    ensures Quiet(s, Decide(s, now, owner, r, approve, oauth).0)
  {
    var t := Decide(s, now, owner, r, approve, oauth).0;
    if t != s && approve { assert t.log == s.log + [Allowed(r)]; }
  }

  lemma OtherQuiet(s: State, now: nat, op: Op)
    requires !op.AskAccess? && !op.AskPermissions?
    ensures Quiet(s, Step(s, now, op))
  {
    match op
    case ClaimIt(r, _) => ClaimQuiet(s, now, r);
    case ExchangeIt(r) => ClaimQuiet(s, now, r);
    case DecideIt(owner, r, approve, oauth) => DecideQuiet(s, now, owner, r, approve, oauth);
    case EditRequestIt(owner, r, checked, oauth) =>
    case EditClientIt(owner, c, checked, oauth) =>
    case RevokeIt(owner, c) =>
    case RevokeTokenIt(token, registered) =>
  }

  lemma QuietCounts(s: State, t: State, now: nat)
    requires Quiet(s, t)
    ensures Counts(s, t, now)
  {
    if t.log != s.log {
      assert t.log == s.log + [t.log[|s.log|]];
      TimesAppend(s.log, t.log[|s.log|]);
    }
  }

  /** What asking leads to: nothing, a counted call, or after one within the limits a request on top of `front`. */
  ghost predicate Asks(s: State, t: State, now: nat, front: seq<Request>) {
    var (limited, refused) := Limit(s, now);
    || t == s || t == limited
    || (&& refused.None? && (t.window, t.count) == (limited.window, limited.count)
        && t.log == s.log + [Opened(|s.requests|, now)]
        && Shrinks(limited.requests, front) && |t.requests| == |front| + 1 && t.requests[..|front|] == front)
  }

  lemma AccessAsks(s: State, now: nat, name: string, access: Access, refresh: bool, token: Option<nat>, secret: nat)
    ensures exists front :: Asks(s, RequestAccess(s, now, name, access, refresh, token, secret).0, now, front)
  {
    var t := RequestAccess(s, now, name, access, refresh, token, secret).0;
    var (limited, refused) := Limit(s, now);
    var previous := if refresh && token.Some? then Holder(limited.clients, token.value) else None;
    var front := if previous.Some? then DenyOf(limited.requests, previous.value, None, false) else limited.requests;
    if t != limited { assert t.requests[..|front|] == front; }
    assert Asks(s, t, now, front);
  }

  lemma PermissionsAsk(s: State, now: nat, token: Option<nat>, asked: seq<Permission>, oauth: bool, secret: nat)
    ensures exists front :: Asks(s, RequestPermissions(s, now, token, asked, oauth, secret).0, now, front)
  {
    var t := RequestPermissions(s, now, token, asked, oauth, secret).0;
    var (limited, refused) := Limit(s, now);
    if t != s && t != limited { assert t.requests[..|limited.requests|] == limited.requests; }
    assert Asks(s, t, now, limited.requests);
  }

  lemma LimitShape(s: State, now: nat)
    ensures var (limited, refused) := Limit(s, now);
      && (limited.window, limited.count) == Rolled(s, now) && limited.log == s.log
      && Shrinks(s.requests, limited.requests)
      && (refused.None? ==> limited.count <= PER_WINDOW && CountRows(limited.requests) < QUEUE)
  {
  }

  lemma AsksCounts(s: State, t: State, now: nat, front: seq<Request>)
    requires Asks(s, t, now, front)
    ensures Counts(s, t, now)
  {
    LimitShape(s, now);
    TimesAppend(s.log, Opened(|s.requests|, now));
  }

  /** A call has just been counted and has not opened a request yet. */
  ghost predicate JustCounted(times: seq<nat>, window: nat, count: nat, now: nat, a: nat, b: nat, w: nat) {
    && Windowed(times, window, count, now, a, b, w) && count > 0
    && |times| - a < count && CountedFromStart(times, a, window, count - 1) && (count == 1 ==> window == now)
  }

  lemma CountCall(s: State, before: nat, now: nat, a: nat, b: nat, w: nat)
    requires Windowed(Times(s.log), s.window, s.count, before, a, b, w) && before <= now && now >= WINDOW
    ensures var (window, count) := Rolled(s, now);
      exists a, b, w :: JustCounted(Times(s.log), window, count, now, a, b, w)
  {
    var times := Times(s.log);
    var (window, count) := Rolled(s, now);
    if now - s.window >= WINDOW {
      assert JustCounted(times, window, count, now, |times|, a, s.window);
    } else {
      assert JustCounted(times, window, count, now, a, b, w);
    }
  }

  /** The request it opens is the twentieth at most since the start of the window before. */
  lemma OpenOne(times: seq<nat>, window: nat, count: nat, now: nat, a: nat, b: nat, w: nat)
    requires JustCounted(times, window, count, now, a, b, w) && count <= PER_WINDOW && Spaced(times)
    ensures Windowed(times + [now], window, count, now, a, b, w) && Spaced(times + [now])
  {
    var after := times + [now];
    if |times| >= SPAN {
      var i := |times| - SPAN;
      assert i < b || (i == b && a - b == PER_WINDOW);
      assert times[i] <= w;
    }
  }

  lemma CountsKeepWindows(s: State, t: State, before: nat, now: nat)
    requires InWindows(Times(s.log), s.window, s.count, before) && Spaced(Times(s.log))
    requires before <= now && now >= WINDOW && Counts(s, t, now)
    ensures InWindows(Times(t.log), t.window, t.count, now) && Spaced(Times(t.log))
  {
    var times := Times(s.log);
    var a, b, w :| Windowed(times, s.window, s.count, before, a, b, w);
    if (t.window, t.count) == (s.window, s.count) && Times(t.log) == times {
      assert Windowed(times, s.window, s.count, now, a, b, w);
    } else {
      CountCall(s, before, now, a, b, w);
      var c, d, v :| JustCounted(times, t.window, t.count, now, c, d, v);
      if Times(t.log) != times { OpenOne(times, t.window, t.count, now, c, d, v); }
      assert Windowed(Times(t.log), t.window, t.count, now, c, d, v);
    }
  }

  // ---------------------------------------------------------------- the queue

  ghost predicate Shrinks(before: seq<Request>, after: seq<Request>) {
    |after| == |before| && forall r :: 0 <= r < |before| ==> before[r].gone ==> after[r].gone
  }

  lemma {:induction false} ShrinksCount(before: seq<Request>, after: seq<Request>)
    requires Shrinks(before, after)
    ensures CountRows(after) <= CountRows(before)
  {
    if |before| > 0 { ShrinksCount(before[..|before| - 1], after[..|after| - 1]); }
  }

  lemma CountAppend(requests: seq<Request>, q: Request)
    ensures CountRows(requests + [q]) <= CountRows(requests) + 1
  {
    assert (requests + [q])[..|requests|] == requests;
  }

  lemma AsksQueue(s: State, t: State, now: nat, front: seq<Request>)
    requires Asks(s, t, now, front) && CountRows(s.requests) <= QUEUE
    ensures CountRows(t.requests) <= QUEUE
  {
    LimitShape(s, now);
    ShrinksCount(s.requests, Limit(s, now).0.requests);
    if t != s && t != Limit(s, now).0 {
      ShrinksCount(Limit(s, now).0.requests, front);
      assert t.requests == front + [t.requests[|front|]];
      CountAppend(front, t.requests[|front|]);
    }
  }

  lemma StepLimit(s: State, before: nat, now: nat, op: Op)
    requires LimitInv(s, before) && before <= now && now >= WINDOW
    ensures LimitInv(Step(s, now, op), now)
  {
    var t := Step(s, now, op);
    if op.AskAccess? || op.AskPermissions? {
      if op.AskAccess? { AccessAsks(s, now, op.name, op.access, op.refresh, op.token, op.secret); }
      else { PermissionsAsk(s, now, op.token, op.asked, op.oauth, op.secret); }
      var front :| Asks(s, t, now, front);
      AsksCounts(s, t, now, front);
      AsksQueue(s, t, now, front);
    } else {
      OtherQuiet(s, now, op);
      QuietCounts(s, t, now);
      ShrinksCount(s.requests, t.requests);
    }
    CountsKeepWindows(s, t, before, now);
  }

  // ---------------------------------------------------------------- the promises

  /** Readings do not fall, and none lies in the first minute of the epoch. */
  ghost predicate ClockRuns(steps: seq<Stamped>) {
    && (forall i :: 0 <= i < |steps| ==> steps[i].at >= WINDOW)
    && (forall i, k :: 0 <= i < k < |steps| ==> steps[i].at <= steps[k].at)
  }

  function LastReading(steps: seq<Stamped>): nat { if |steps| == 0 then 0 else steps[|steps| - 1].at }

  lemma {:induction false} RunLimit(steps: seq<Stamped>)
    requires ClockRuns(steps)
    ensures LimitInv(Run(START, steps), LastReading(steps))
  {
    if |steps| == 0 {
      assert Windowed([], 0, 0, 0, 0, 0, 0);
    } else {
      var front, last := steps[..|steps| - 1], steps[|steps| - 1];
      RunLimit(front);
      StepLimit(Run(START, front), LastReading(front), last.at, last.op);
    }
  }

  /** Any twenty opened requests span at least a minute, and at most a hundred rows are kept. */
  lemma TwentySpanAMinute(steps: seq<Stamped>, i: nat)
    requires ClockRuns(steps) && i + 19 < |Times(Run(START, steps).log)|
    ensures var times := Times(Run(START, steps).log); times[i + 19] >= times[i] + WINDOW
    ensures CountRows(Run(START, steps).requests) <= 100
  {
    RunLimit(steps);
  }

  // ---------------------------------------------------------------- the bound is reached

  const ASK: Op := AskAccess("agent", Read, false, None, 0)

  function Asking(n: nat, now: nat): seq<Stamped> { seq(n, i => Stamped(now, ASK)) }

  function Often(n: nat, now: nat): seq<nat> { seq(n, i => now) }

  /** There is room for `n` more requests at `now`, and no row expires before `until`. */
  ghost predicate Room(s: State, now: nat, until: nat, n: nat) {
    && now <= until < now + REQUEST_LIFETIME
    && Rolled(s, now).1 + n <= PER_WINDOW + 1 && |s.requests| + n <= QUEUE
    && forall r :: 0 <= r < |s.requests| ==> !s.requests[r].gone && s.requests[r].expiresAt > until
  }

  lemma {:induction false} CountsAtMostAll(requests: seq<Request>)
    ensures CountRows(requests) <= |requests|
  {
    if |requests| > 0 { CountsAtMostAll(requests[..|requests| - 1]); }
  }

  lemma AskOnce(s: State, now: nat, until: nat, n: nat)
    requires Room(s, now, until, n) && n > 0
    ensures var t := Step(s, now, ASK);
      && Room(t, now, until, n - 1) && Times(t.log) == Times(s.log) + [now] && |t.requests| == |s.requests| + 1
      && (t.window, t.count) == Rolled(s, now)
  {
    assert Purge(s.requests, now) == s.requests;
    CountsAtMostAll(s.requests);
    TimesAppend(s.log, Opened(|s.requests|, now));
  }

  /** `t` is what `n` requests at `now` make of `s`. */
  ghost predicate Asked(s: State, t: State, now: nat, until: nat, n: nat, room: nat) {
    && n <= room && Room(t, now, until, room - n) && Times(t.log) == Times(s.log) + Often(n, now)
    && |t.requests| == |s.requests| + n
    && (n > 0 ==> (t.window, t.count) == (Rolled(s, now).0, Rolled(s, now).1 + n - 1))
    && (n == 0 ==> t == s)
  }

  lemma AskedOneMore(s: State, t: State, now: nat, until: nat, n: nat, room: nat)
    requires Asked(s, t, now, until, n, room) && n < room
    ensures Asked(s, Step(t, now, ASK), now, until, n + 1, room)
  {
    AskOnce(t, now, until, room - n);
    assert Often(n + 1, now) == Often(n, now) + [now];
  }

  lemma {:induction false} AskOften(s: State, now: nat, until: nat, n: nat, room: nat)
    requires Room(s, now, until, room) && n <= room
    ensures Asked(s, Run(s, Asking(n, now)), now, until, n, room)
  {
    if n > 0 {
      assert Asking(n, now)[..n - 1] == Asking(n - 1, now);
      AskOften(s, now, until, n - 1, room);
      AskedOneMore(s, Run(s, Asking(n - 1, now)), now, until, n - 1, room);
    } else {
      assert Times(s.log) + Often(0, now) == Times(s.log);
    }
  }

  lemma {:induction false} RunConcat(s: State, a: seq<Stamped>, b: seq<Stamped>)
    ensures Run(s, a + b) == Run(Run(s, a), b)
  {
    if |b| == 0 { assert a + b == a; }
    else {
      assert (a + b)[..|a + b| - 1] == a + b[..|b| - 1];
      RunConcat(s, a, b[..|b| - 1]);
    }
  }

  /** One request begins a window, nine end it and ten begin the next. */
  function Burst(at: nat): seq<Stamped> { Asking(1, at) + Asking(9, at + 59999) + Asking(10, at + 60000) }

  lemma BurstBegins(at: nat)
    requires at >= WINDOW
    ensures var s := Run(START, Asking(1, at));
      && Times(s.log) == Often(1, at) && (s.window, s.count) == (at, 1) && |s.requests| == 1
      && Room(s, at + 59999, at + 60000, 9)
  {
    AskOften(START, at, at + 60000, 1, 1);
    assert Times(START.log) + Often(1, at) == Often(1, at);
  }

  lemma BurstGoesOn(s: State, at: nat)
    requires (s.window, s.count) == (at, 1) && |s.requests| == 1 && Room(s, at + 59999, at + 60000, 9)
    ensures var t := Run(s, Asking(9, at + 59999));
      Times(t.log) == Times(s.log) + Often(9, at + 59999) && Room(t, at + 60000, at + 60000, 10)
  {
    AskOften(s, at + 59999, at + 60000, 9, 9);
  }

  lemma BurstTimes(at: nat)
    requires at >= WINDOW
    ensures Times(Run(START, Burst(at)).log) == Often(1, at) + Often(9, at + 59999) + Often(10, at + 60000)
  {
    BurstBegins(at);
    BurstGoesOn(Run(START, Asking(1, at)), at);
    AskTimes(Run(Run(START, Asking(1, at)), Asking(9, at + 59999)), at + 60000, at + 60000, 10);
    RunThree(START, Asking(1, at), Asking(9, at + 59999), Asking(10, at + 60000));
  }

  lemma AskTimes(s: State, now: nat, until: nat, n: nat)
    requires Room(s, now, until, n)
    ensures Times(Run(s, Asking(n, now)).log) == Times(s.log) + Often(n, now)
  {
    AskOften(s, now, until, n, n);
  }

  lemma RunThree(s: State, a: seq<Stamped>, b: seq<Stamped>, c: seq<Stamped>)
    ensures Run(s, a + b + c) == Run(Run(Run(s, a), b), c)
  {
    RunConcat(s, a, b);
    RunConcat(s, a + b, c);
  }

  /** That bound is exact: whenever the first request comes, nineteen can be opened within a millisecond. */
  lemma NineteenWithinAMoment(at: nat)
    requires at >= WINDOW
    ensures ClockRuns(Burst(at))
    ensures var times := Times(Run(START, Burst(at)).log);
      |times| == 20 && times[1] == at + 59999 && times[19] == at + 60000
  {
    BurstTimes(at);
  }
}
