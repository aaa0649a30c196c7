/** What each event does to the tool queue, exactly, as its log tells, and how long calls waited and ran. */
module ToolQueueOutcomes {
  import opened Wrappers
  import opened ToolQueueModel
  import opened ToolQueueProofs

  // ---------------------------------------------------------------- dispatch

  /** A start of a call in time, or the expiry of one whose time is up. */
  ghost predicate Dispatched(e: Event, now: int) {
    && e.at == now
    && ((e.kind.Started? && now - e.call.queuedAt < e.call.timeoutMs)
        || (e.kind.Expired? && now - e.call.queuedAt >= e.call.timeoutMs))
  }

  /** The log went on with events of dispatch only. */
  ghost predicate GoesOn(before: seq<Event>, after: seq<Event>, now: int) {
    && |before| <= |after| && after[..|before|] == before
    && forall i :: |before| <= i < |after| ==> Dispatched(after[i], now)
  }

  /** Every call that waits or runs did so before, and what runs did not start to wait. */
  ghost predicate From(q: Queue, r: Queue) {
    && (forall c :: c in r.waiting ==> c in q.waiting)
    && (forall c :: c in RunningCalls(r.running) ==> c in q.waiting || c in RunningCalls(q.running))
  }

  lemma GoesOnTransitive(a: seq<Event>, b: seq<Event>, c: seq<Event>, now: int)
    requires GoesOn(a, b, now) && GoesOn(b, c, now)
    ensures GoesOn(a, c, now)
  {
    assert c[..|a|] == c[..|b|][..|a|];
    forall i | |a| <= i < |c| ensures Dispatched(c[i], now) {
      if i < |b| { assert c[i] == c[..|b|][i] == b[i]; }
    }
  }

  lemma DropLog(q: Queue, i: nat, kind: Kind, now: int)
    requires i < |q.waiting|
    ensures var r := Drop(q, i, kind, now);
            && r.books.log == q.books.log + [EventOf(q.waiting[i], None, kind, now, |r.waiting|, |q.running|,
                                                     q.settings.maxConcurrency)]
            && r.running == q.running && From(q, r)
  {
    var r := Drop(q, i, kind, now);
    forall c | c in r.waiting ensures c in q.waiting {}
  }

  lemma StartLog(q: Queue, now: int)
    requires |q.waiting| > 0
    ensures var r := Start(q, now);
            && r.books.log == q.books.log + [EventOf(q.waiting[0], Some(now), Started, now, |r.waiting|, |r.running|,
                                                     q.settings.maxConcurrency)]
            && r.waiting == q.waiting[1..] && From(q, r)
  {
    var r := Start(q, now);
    forall c | c in RunningCalls(r.running) ensures c in q.waiting || c in RunningCalls(q.running) {
      var i :| 0 <= i < |r.running| && r.running[i].call == c;
      if i < |q.running| && r.running[i] == q.running[i] { assert RunningCalls(q.running)[i] == c; }
    }
  }

  lemma FromTransitive(p: Queue, q: Queue, r: Queue)
    requires From(p, q) && From(q, r)
    ensures From(p, r)
  {
  }

  /** A pump logs starts in time and expiries that are due, and nothing else; only waiting calls are moved. */
  lemma {:induction false} PumpDispatches(q: Queue, now: int)
    ensures GoesOn(q.books.log, Pump(q, now).books.log, now) && From(q, Pump(q, now))
    decreases |q.waiting|
  {
    if q.stopped || |q.waiting| == 0 || |q.running| >= q.settings.maxConcurrency {
    } else if now - q.waiting[0].queuedAt >= q.waiting[0].timeoutMs {
      var dropped := Drop(q, 0, Expired, now);
      DropLog(q, 0, Expired, now);
      OneMore(q.books.log, dropped.books.log, now);
      PumpDispatches(dropped, now);
      var inner := Pump(dropped, now);
      PumpDispatches(inner, now);
      GoesOnTransitive(q.books.log, dropped.books.log, inner.books.log, now);
      GoesOnTransitive(q.books.log, inner.books.log, Pump(inner, now).books.log, now);
      FromTransitive(q, dropped, inner);
      FromTransitive(q, inner, Pump(inner, now));
    } else {
      var asked := AfterAsking(q);
      if !asked.gateShut {
        var started := Start(asked, now);
        StartLog(asked, now);
        OneMore(q.books.log, started.books.log, now);
        PumpDispatches(started, now);
        GoesOnTransitive(q.books.log, started.books.log, Pump(started, now).books.log, now);
        FromTransitive(q, started, Pump(started, now));
      }
    }
  }

  lemma OneMore(before: seq<Event>, after: seq<Event>, now: int)
    requires |after| == |before| + 1 && after[..|before|] == before && Dispatched(after[|before|], now)
    ensures GoesOn(before, after, now)
  {
  }

  // ---------------------------------------------------------------- the memory gate

  predicate OpenAt(gate: seq<bool>, k: nat) { k < |gate| && !gate[k] }

  /** In how many of the next `n` answers the gate is open; past the listed ones it is shut. */
  ghost function Opens(gate: seq<bool>, n: nat): nat {
    if n == 0 then 0 else Opens(gate, n - 1) + if OpenAt(gate, n - 1) then 1 else 0
  }

  function Rest(gate: seq<bool>, n: nat): seq<bool> { gate[Min(n, |gate|)..] }

  ghost function Starts(log: seq<Event>): nat {
    if |log| == 0 then 0 else Starts(log[..|log| - 1]) + if log[|log| - 1].kind.Started? then 1 else 0
  }

  lemma StartsAppend(log: seq<Event>, e: Event)
    ensures Starts(log + [e]) == Starts(log) + if e.kind.Started? then 1 else 0
  {
    assert (log + [e])[..|log|] == log;
  }

  lemma RestOpenAt(gate: seq<bool>, m: nat, k: nat)
    ensures OpenAt(Rest(gate, m), k) <==> OpenAt(gate, m + k)
  {
  }

  lemma RestOfRest(gate: seq<bool>, m: nat, n: nat)
    ensures Rest(Rest(gate, m), n) == Rest(gate, m + n)
  {
  }

  lemma {:induction false} OpensSplit(gate: seq<bool>, m: nat, n: nat)
    ensures Opens(gate, m + n) == Opens(gate, m) + Opens(Rest(gate, m), n)
  {
    if n > 0 {
      OpensSplit(gate, m, n - 1);
      RestOpenAt(gate, m, n - 1);
      assert m + n - 1 == m + (n - 1);
    }
  }

  /** The queue asked `n` times and started a call each time the gate was open. */
  ghost predicate Asked(q: Queue, r: Queue, n: nat) {
    r.gate == Rest(q.gate, n) && Starts(r.books.log) == Starts(q.books.log) + Opens(q.gate, n)
  }

  ghost predicate StartsAsAsked(q: Queue, r: Queue) { exists n: nat :: Asked(q, r, n) }

  lemma AskedTwice(p: Queue, q: Queue, r: Queue)
    requires StartsAsAsked(p, q) && StartsAsAsked(q, r)
    ensures StartsAsAsked(p, r)
  {
    var m: nat :| Asked(p, q, m);
    var n: nat :| Asked(q, r, n);
    OpensSplit(p.gate, m, n);
    RestOfRest(p.gate, m, n);
    assert Asked(p, r, m + n);
  }

  lemma DropAsksNothing(q: Queue, now: int)
    requires |q.waiting| > 0
    ensures StartsAsAsked(q, Drop(q, 0, Expired, now))
  {
    DropLog(q, 0, Expired, now);
    StartsAppend(q.books.log, Drop(q, 0, Expired, now).books.log[|q.books.log|]);
    assert Asked(q, Drop(q, 0, Expired, now), 0);
  }

  lemma StartAsksOnce(q: Queue, now: int)
    requires |q.waiting| > 0 && !AfterAsking(q).gateShut
    ensures StartsAsAsked(q, Start(AfterAsking(q), now))
  {
    StartLog(AfterAsking(q), now);
    StartsAppend(q.books.log, Start(AfterAsking(q), now).books.log[|q.books.log|]);
    assert Opens(q.gate, 1) == Opens(q.gate, 0) + 1;
    assert Asked(q, Start(AfterAsking(q), now), 1);
  }

  lemma ShutAsksOnce(q: Queue)
    requires AfterAsking(q).gateShut
    ensures StartsAsAsked(q, AfterAsking(q))
  {
    assert Opens(q.gate, 1) == Opens(q.gate, 0);
    assert Asked(q, AfterAsking(q), 1);
  }

  predicate Idles(q: Queue) { q.stopped || |q.waiting| == 0 || |q.running| >= q.settings.maxConcurrency }

  predicate HeadIsDue(q: Queue, now: int)
    requires |q.waiting| > 0
  {
    now - q.waiting[0].queuedAt >= q.waiting[0].timeoutMs
  }

  lemma IdlePump(q: Queue, now: int)
    requires Idles(q)
    ensures StartsAsAsked(q, Pump(q, now))
  {
    assert Asked(q, Pump(q, now), 0);
  }

  lemma ExpiredPump(q: Queue, now: int)
    requires !Idles(q) && HeadIsDue(q, now)
    ensures Pump(q, now) == Pump(Pump(Drop(q, 0, Expired, now), now), now)
    ensures |Drop(q, 0, Expired, now).waiting| < |q.waiting|
  {
    assert Remove(q, 0, Expired, now) == Pump(Drop(q, 0, Expired, now), now);
  }

  lemma GatedPump(q: Queue, now: int)
    requires !Idles(q) && !HeadIsDue(q, now)
    ensures Pump(q, now) == if AfterAsking(q).gateShut then AfterAsking(q) else Pump(Start(AfterAsking(q), now), now)
    ensures |Start(AfterAsking(q), now).waiting| < |q.waiting|
  {
  }

  /** A pump starts a call for every answer of the gate that it is open, and no other. */
  lemma {:induction false} PumpAsks(q: Queue, now: int)
    ensures StartsAsAsked(q, Pump(q, now))
    decreases |q.waiting|
  {
    if Idles(q) {
      IdlePump(q, now);
    } else if HeadIsDue(q, now) {
      ExpiredPump(q, now);
      DropAsksNothing(q, now);
      PumpAsks(Drop(q, 0, Expired, now), now);
      AskedTwice(q, Drop(q, 0, Expired, now), Pump(Drop(q, 0, Expired, now), now));
      PumpAsks(Pump(Drop(q, 0, Expired, now), now), now);
      AskedTwice(q, Pump(Drop(q, 0, Expired, now), now), Pump(q, now));
    } else {
      GatedPump(q, now);
      if AfterAsking(q).gateShut {
        ShutAsksOnce(q);
      } else {
        StartAsksOnce(q, now);
        PumpAsks(Start(AfterAsking(q), now), now);
        AskedTwice(q, Start(AfterAsking(q), now), Pump(q, now));
      }
    }
  }

  // ---------------------------------------------------------------- one event

  /** The first thing logged is this, about this call; the rest is dispatch. */
  ghost predicate Logs(q: Queue, r: Queue, call: Call, kind: Kind, now: int) {
    && |r.books.log| > |q.books.log| && r.books.log[..|q.books.log|] == q.books.log
    && var e := r.books.log[|q.books.log|];
    && e.call == call && e.kind == kind && e.at == now
    && forall i :: |q.books.log| < i < |r.books.log| ==> Dispatched(r.books.log[i], now)
  }

  lemma LogsThenPump(q: Queue, m: Queue, call: Call, kind: Kind, now: int)
    requires |m.books.log| == |q.books.log| + 1 && m.books.log[..|q.books.log|] == q.books.log
    requires var e := m.books.log[|q.books.log|]; e.call == call && e.kind == kind && e.at == now
    ensures Logs(q, Pump(m, now), call, kind, now)
  {
    PumpDispatches(m, now);
    var r := Pump(m, now);
    assert r.books.log[..|q.books.log|] == r.books.log[..|m.books.log|][..|q.books.log|];
    assert r.books.log[|q.books.log|] == r.books.log[..|m.books.log|][|q.books.log|];
  }

  function FirstKind(q: Queue, aborted: bool): Kind {
    if q.stopped then Shutdown else if aborted then Cancelled
    else if |q.waiting| >= q.settings.maxQueueSize then Full else Enqueued
  }

  /**
    An arriving call is turned away if the queue is closed, if it was aborted, or if as many wait as may; otherwise
    it is queued.  What is turned away moves nothing else.
  */
  lemma ArrivalLogged(q: Queue, id: nat, tool: string, aborted: bool, now: int, gate: seq<bool>)
    ensures var r := Apply(q, Arrive(id, tool, aborted), now, gate);
            var call := Call(id, tool, now, q.settings.queueTimeoutMs);
            var kind := FirstKind(q, aborted);
            && Logs(q, r, call, kind, now) && r.arrived == q.arrived + [call] && r.settings == q.settings
            && (if kind.Enqueued? then |r.waiting| <= |q.waiting| + 1
                else |r.books.log| == |q.books.log| + 1 && r.waiting == q.waiting && r.running == q.running)
            && (forall t :: CountOf(r.requests, t) == CountOf(q.requests, t) + if t == tool then 1 else 0)
  {
    var call := Call(id, tool, now, q.settings.queueTimeoutMs);
    if FirstKind(q, aborted).Enqueued? {
      QueuedLogged(q.(gate := gate), call, now);
    } else {
      TurnawayLogged(Counted(q.(gate := gate), tool), call, FirstKind(q, aborted), now);
    }
  }

  lemma QueuedLogged(q: Queue, call: Call, now: int)
    ensures var r := Pump(Enqueue(Counted(q, call.tool), call, now), now);
            && Logs(q, r, call, Enqueued, now) && r.arrived == q.arrived + [call] && r.settings == q.settings
            && |r.waiting| <= |q.waiting| + 1 && r.requests == Counted(q, call.tool).requests
  {
    var m := Enqueue(Counted(q, call.tool), call, now);
    LogsThenPump(q, m, call, Enqueued, now);
    PumpKeeps(m, now);
  }

  lemma TurnawayLogged(q: Queue, call: Call, kind: Kind, now: int)
    ensures var r := Turnaway(q, call, kind, now);
            && Logs(q, r, call, kind, now) && r.arrived == q.arrived + [call] && r.settings == q.settings
            && |r.books.log| == |q.books.log| + 1 && r.waiting == q.waiting && r.running == q.running
            && r.requests == q.requests
  {
  }

  function CountOf(requests: map<string, nat>, tool: string): nat { if tool in requests then requests[tool] else 0 }

  lemma {:induction false} PumpKeeps(q: Queue, now: int)
    ensures SameBut(q, Pump(q, now))
    decreases |q.waiting|
  {
    if q.stopped || |q.waiting| == 0 || |q.running| >= q.settings.maxConcurrency {
    } else if now - q.waiting[0].queuedAt >= q.waiting[0].timeoutMs {
      PumpKeeps(Drop(q, 0, Expired, now), now);
      PumpKeeps(Pump(Drop(q, 0, Expired, now), now), now);
    } else if !AfterAsking(q).gateShut {
      PumpKeeps(Start(AfterAsking(q), now), now);
    }
  }

  /** An abort or a timer takes the call off the queue and says so; a call that does not wait is left alone. */
  lemma RemovalLogged(q: Queue, id: nat, kind: Kind, now: int)
    requires Core(q) && (kind.Cancelled? || kind.Expired?)
    ensures var r := RemoveById(q, id, kind, now);
            && (forall c :: c in q.waiting && c.id == id ==> Logs(q, r, c, kind, now))
            && ((forall c :: c in q.waiting ==> c.id != id) ==> r == q)
            && (forall c :: c in r.waiting ==> c.id != id)
  {
    var i := IndexOf(q.waiting, id);
    if i.Some? {
      var m := Drop(q, i.value, kind, now);
      DropLog(q, i.value, kind, now);
      LogsThenPump(q, m, q.waiting[i.value], kind, now);
      PumpDispatches(m, now);
      assert forall c :: c in m.waiting ==> c.id != id;
    }
  }

  /** A call that ran is over, with its own outcome; one that does not run is left alone. */
  lemma SettlementLogged(q: Queue, id: nat, outcome: Kind, now: int)
    requires Core(q) && Ran(outcome)
    ensures var r := SettleStep(q, id, outcome, now);
            && (forall c :: c in RunningCalls(q.running) && c.id == id ==> Logs(q, r, c, outcome, now))
            && ((forall c :: c in RunningCalls(q.running) ==> c.id != id) ==> r == q)
            && (forall c :: c in RunningCalls(r.running) ==> c.id != id)
  {
    var i := RunningIndex(q.running, id);
    if i.Some? {
      var m := Finish(q, i.value, outcome, now);
      assert RunningCalls(q.running)[i.value] == q.running[i.value].call;
      LogsThenPump(q, m, q.running[i.value].call, outcome, now);
      PumpDispatches(m, now);
      FinishedIsGone(q, i.value, outcome, now);
    } else {
      forall c | c in RunningCalls(q.running) ensures c.id != id {
        var k :| 0 <= k < |q.running| && q.running[k].call == c;
      }
    }
  }

  lemma FinishedIsGone(q: Queue, i: nat, outcome: Kind, now: int)
    requires Distinct(q.waiting, q.running) && i < |q.running|
    ensures var m, id := Finish(q, i, outcome, now), q.running[i].call.id;
            && (forall c :: c in m.waiting ==> c.id != id)
            && (forall c :: c in RunningCalls(m.running) ==> c.id != id)
            && (forall c :: c in RunningCalls(q.running) && c.id == id ==> c == q.running[i].call)
  {
    var m, id := Finish(q, i, outcome, now), q.running[i].call.id;
    forall c | c in RunningCalls(m.running) ensures c.id != id {
      var k :| 0 <= k < |m.running| && m.running[k].call == c;
      assert m.running[k] == if k < i then q.running[k] else q.running[k + 1];
    }
    forall c | c in RunningCalls(q.running) && c.id == id ensures c == q.running[i].call {
      var k :| 0 <= k < |q.running| && q.running[k].call == c;
    }
  }

  /** New settings are in force from then on exactly if they are valid and replace the ones they were made from. */
  lemma ConfiguredIff(q: Queue, next: Settings, expected: Settings, now: int)
    ensures var r := ConfigureStep(q, next, expected, now);
            && (if ValidSettings(next) && expected == q.settings then r.settings == next else r == q)
            && GoesOn(q.books.log, r.books.log, now) && From(q, r)
  {
    if ValidSettings(next) && expected == q.settings {
      PumpKeeps(q.(settings := next), now);
      PumpDispatches(q.(settings := next), now);
      assert RunningCalls(q.(settings := next).running) == RunningCalls(q.running);
    }
  }

  /** A closed queue has told every waiting call, in order, and let go of none that runs. */
  lemma CloseLogged(q: Queue, now: int)
    ensures var r := Apply(q, Close, now, q.gate);
            && r.stopped && r.waiting == [] && r.running == q.running && !r.ticker
            && Tells(q.books.log, r.books.log, q.waiting, now)
  {
    DrainTells(q.(gate := q.gate, stopped := true, ticker := false), now);
  }

  ghost predicate ToldShutdown(e: Event, call: Call, now: int) { e.call == call && e.kind.Shutdown? && e.at == now }

  /** The log went on with one shutdown for each of these calls, in order. */
  ghost predicate Tells(before: seq<Event>, after: seq<Event>, calls: seq<Call>, now: int) {
    && |after| == |before| + |calls| && after[..|before|] == before
    && forall i :: |before| <= i < |after| ==> ToldShutdown(after[i], calls[i - |before|], now)
  }

  lemma TellsMore(before: seq<Event>, first: Event, after: seq<Event>, calls: seq<Call>, now: int)
    requires |calls| > 0 && ToldShutdown(first, calls[0], now) && Tells(before + [first], after, calls[1..], now)
    ensures Tells(before, after, calls, now)
  {
    var n := |before|;
    assert after[..n] == after[..n + 1][..n] == before;
    assert after[n] == after[..n + 1][n] == first;
    forall i | n <= i < |after| ensures ToldShutdown(after[i], calls[i - n], now) {
      if i > n { assert ToldShutdown(after[i], calls[1..][i - n - 1], now); }
    }
  }

  lemma {:induction false} DrainTells(q: Queue, now: int)
    requires q.stopped
    ensures var r := Drain(q, now);
            && r.stopped && r.waiting == [] && r.running == q.running && r.ticker == q.ticker
            && Tells(q.books.log, r.books.log, q.waiting, now)
    decreases |q.waiting|
  {
    if |q.waiting| > 0 {
      var m := Drop(q, 0, Shutdown, now);
      DropLog(q, 0, Shutdown, now);
      DropKeeps(q, 0, Shutdown, now);
      DrainTells(m, now);
      assert m.waiting == q.waiting[1..];
      TellsMore(q.books.log, m.books.log[|q.books.log|], Drain(q, now).books.log, q.waiting, now);
    }
  }

  // ---------------------------------------------------------------- every kind of step

  /** What a step must show: its first event, unless there is nothing to do, and dispatch after it. */
  lemma CallStepsLogged(q: Queue, id: nat, outcome: Kind, now: int, gate: seq<bool>)
    requires Core(q) && Ran(outcome)
    ensures var r := Apply(q, Abort(id), now, gate);
            && (forall c :: c in q.waiting && c.id == id ==> Logs(q, r, c, Cancelled, now))
            && (forall c :: c in r.waiting ==> c.id != id)
            && ((forall c :: c in q.waiting ==> c.id != id) ==> r == q.(gate := gate))
    ensures var r := Apply(q, TimerFires(id), now, gate);
            && (forall c :: c in q.waiting && c.id == id ==> Logs(q, r, c, Expired, now))
            && (forall c :: c in r.waiting ==> c.id != id)
            && ((forall c :: c in q.waiting ==> c.id != id) ==> r == q.(gate := gate))
    ensures var r := Apply(q, Settle(id, outcome), now, gate);
            && (forall c :: c in RunningCalls(q.running) && c.id == id ==> Logs(q, r, c, outcome, now))
            && (forall c :: c in RunningCalls(r.running) ==> c.id != id)
            && ((forall c :: c in RunningCalls(q.running) ==> c.id != id) ==> r == q.(gate := gate))
  {
    var g := q.(gate := gate);
    CoreIgnores(q, g);
    RemovalLogged(g, id, Cancelled, now);
    RemovalLogged(g, id, Expired, now);
    SettlementLogged(g, id, outcome, now);
  }

  lemma QueueStepsLogged(q: Queue, next: Settings, expected: Settings, now: int, gate: seq<bool>)
    ensures var r := Apply(q, Configure(next, expected), now, gate);
            && GoesOn(q.books.log, r.books.log, now)
            && if ValidSettings(next) && expected == q.settings then r.settings == next else r == q.(gate := gate)
    ensures var r := Apply(q, Tick, now, gate);
            GoesOn(q.books.log, r.books.log, now) && SameBut(q, r) && StartsAsAsked(q.(gate := gate), r)
    ensures var r := Apply(q, Sample, now, gate);
            r == q.(gate := gate, books := r.books) && r.books == q.books.(seconds := r.books.seconds,
                                                                           prunedAt := Some(now / 1000))
  {
    var g := q.(gate := gate);
    ConfiguredIff(g, next, expected, now);
    PumpDispatches(g, now);
    PumpKeeps(g, now);
    PumpAsks(g, now);
  }

  // ---------------------------------------------------------------- the queue stays within its size

  /** No step changes how many calls may wait. */
  ghost predicate KeepsSize(steps: seq<Step>, size: nat) {
    forall i :: 0 <= i < |steps| && steps[i].op.Configure? ==> steps[i].op.next.maxQueueSize == size
  }

  lemma StepFits(q: Queue, s: Step, size: nat)
    requires q.settings.maxQueueSize == size && |q.waiting| <= size
    requires s.op.Configure? ==> s.op.next.maxQueueSize == size
    ensures var r := Apply(q, s.op, s.now, s.gate); r.settings.maxQueueSize == size && |r.waiting| <= size
  {
    var g := q.(gate := s.gate);
    match s.op
    case Arrive(id, tool, aborted) => ArrivalLogged(q, id, tool, aborted, s.now, s.gate);
    case Abort(id) => RemoveKeeps(g, id, Cancelled, s.now);
    case TimerFires(id) => RemoveKeeps(g, id, Expired, s.now);
    case Settle(id, outcome) => SettleKeeps(g, id, outcome, s.now);
    case Tick => PumpKeeps(g, s.now);
    case Sample =>
    case Configure(next, expected) => ConfiguredIff(g, next, expected, s.now);
    case Close => CloseLogged(g, s.now); DrainKeeps(g.(stopped := true, ticker := false), s.now);
  }

  lemma RemoveKeeps(q: Queue, id: nat, kind: Kind, now: int)
    ensures var r := RemoveById(q, id, kind, now); r.settings == q.settings && |r.waiting| <= |q.waiting|
  {
    var i := IndexOf(q.waiting, id);
    if i.Some? { PumpKeeps(Drop(q, i.value, kind, now), now); }
  }

  lemma SettleKeeps(q: Queue, id: nat, outcome: Kind, now: int)
    ensures var r := SettleStep(q, id, outcome, now); r.settings == q.settings && |r.waiting| <= |q.waiting|
  {
    var i := RunningIndex(q.running, id);
    if i.Some? && Ran(outcome) { PumpKeeps(Finish(q, i.value, outcome, now), now); }
  }

  lemma {:induction false} DrainKeeps(q: Queue, now: int)
    requires q.stopped
    ensures Drain(q, now).settings == q.settings
    decreases |q.waiting|
  {
    if |q.waiting| > 0 {
      DropKeeps(q, 0, Shutdown, now);
      DrainKeeps(Drop(q, 0, Shutdown, now), now);
    }
  }

  lemma {:induction false} RunFits(q: Queue, clock: int, steps: seq<Step>, size: nat)
    requires Legal(q, clock, steps) && KeepsSize(steps, size)
    requires q.settings.maxQueueSize == size && |q.waiting| <= size
    ensures |Run(q, clock, steps).waiting| <= size
    decreases |steps|
  {
    if |steps| > 0 {
      StepFits(q, steps[0], size);
      RunFits(Apply(q, steps[0].op, steps[0].now, steps[0].gate), steps[0].now, steps[1..], size);
    }
  }

  /** While the size is not changed, never do more calls wait than may. */
  lemma NeverOverfull(settings: Settings, at: int, steps: seq<Step>)
    requires Legal(Opened(settings, at), at, steps) && KeepsSize(steps, settings.maxQueueSize)
    ensures |Run(Opened(settings, at), at, steps).waiting| <= settings.maxQueueSize
  {
    RunFits(Opened(settings, at), at, steps, settings.maxQueueSize);
  }
}
