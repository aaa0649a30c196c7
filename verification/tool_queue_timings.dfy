/** How long calls waited and ran: what every event records, and what the totals by tool add up. */
module ToolQueueTimings {
  import opened Wrappers
  import opened ToolQueueModel
  import opened ToolQueueProofs

  /** The call is recorded as started at this time. */
  ghost predicate StartedAt(log: seq<Event>, n: nat, call: Call, at: int) {
    exists k :: 0 <= k < n && k < |log| && IsStart(log[k], call, at)
  }

  ghost predicate IsStart(e: Event, call: Call, at: int) { e.kind.Started? && e.call == call && e.at == at }

  /** An executed call waited until it was recorded as started and ran from then on; any other only waited. */
  ghost predicate Timed(log: seq<Event>, i: nat)
    requires i < |log|
  {
    var e := log[i];
    if Executed(e.kind)
    then exists at: int :: StartedAt(log, i, e.call, at)
                           && e.waitMs == Max(0, at - e.call.queuedAt) && e.runMs == Max(0, e.at - at)
    else e.waitMs == Max(0, e.at - e.call.queuedAt) && e.runMs == 0
  }

  ghost predicate AllTimed(log: seq<Event>) { forall i :: 0 <= i < |log| ==> Timed(log, i) }

  ghost predicate StartsKnown(log: seq<Event>, running: seq<Running>) {
    forall i :: 0 <= i < |running| ==> StartedAt(log, |log|, running[i].call, running[i].startedAt)
  }

  /** What the calls of a tool that ended have waited, and those that were executed run, by the log. */
  ghost function WaitOf(log: seq<Event>, tool: string): int {
    if |log| == 0 then 0
    else
      var e := log[|log| - 1];
      WaitOf(log[..|log| - 1], tool) + if Ends(e.kind) && e.call.tool == tool then e.waitMs else 0
  }

  ghost function RunOf(log: seq<Event>, tool: string): int {
    if |log| == 0 then 0
    else
      var e := log[|log| - 1];
      RunOf(log[..|log| - 1], tool) + if Executed(e.kind) && e.call.tool == tool then e.runMs else 0
  }

  ghost predicate SummedFor(b: Books, tool: string) {
    TotalsOf(b.timings, tool).waitMs == WaitOf(b.log, tool) && TotalsOf(b.timings, tool).runMs == RunOf(b.log, tool)
  }

  ghost predicate Summed(b: Books) { forall tool :: SummedFor(b, tool) }

  ghost predicate Kept(q: Queue) { AllTimed(q.books.log) && StartsKnown(q.books.log, q.running) && Summed(q.books) }

  // ---------------------------------------------------------------- one event

  lemma StartedStays(log: seq<Event>, e: Event, n: nat, call: Call, at: int)
    requires n <= |log| && StartedAt(log, n, call, at)
    ensures StartedAt(log + [e], n, call, at)
  {
    var k :| 0 <= k < n && k < |log| && IsStart(log[k], call, at);
    assert IsStart((log + [e])[k], call, at);
  }

  lemma TimedStays(log: seq<Event>, e: Event, i: nat)
    requires i < |log| && Timed(log, i)
    ensures Timed(log + [e], i)
  {
    var f := log[i];
    if Executed(f.kind) {
      var at: int :| StartedAt(log, i, f.call, at)
                     && f.waitMs == Max(0, at - f.call.queuedAt) && f.runMs == Max(0, f.at - at);
      StartedStays(log, e, i, f.call, at);
    }
  }

  lemma SumsAppend(log: seq<Event>, e: Event, tool: string)
    ensures WaitOf(log + [e], tool) == WaitOf(log, tool) + if Ends(e.kind) && e.call.tool == tool then e.waitMs else 0
    ensures RunOf(log + [e], tool) == RunOf(log, tool) + if Executed(e.kind) && e.call.tool == tool then e.runMs else 0
  {
    assert (log + [e])[..|log|] == log;
  }

  /** One more event keeps the books, when it names the start on record for what was executed. */
  lemma RecordKeeps(b: Books, running: seq<Running>, call: Call, startedAt: Option<int>, kind: Kind, now: int, w: nat,
                    r: nat, limit: nat)
    requires AllTimed(b.log) && StartsKnown(b.log, running) && Summed(b)
    requires Executed(kind) ==> startedAt.Some? && StartedAt(b.log, |b.log|, call, startedAt.value)
    requires !Executed(kind) ==> startedAt.None? || kind.NotExecuted? || startedAt == Some(now)
    ensures var c := Record(b, call, startedAt, kind, now, w, r, limit);
            AllTimed(c.log) && StartsKnown(c.log, running) && Summed(c)
            && c.log == b.log + [EventOf(call, startedAt, kind, now, w, r, limit)]
  {
    var e := EventOf(call, startedAt, kind, now, w, r, limit);
    var c := Record(b, call, startedAt, kind, now, w, r, limit);
    RecordLog(b, call, startedAt, kind, now, w, r, limit);
    forall i | 0 <= i < |c.log| ensures Timed(c.log, i) {
      if i < |b.log| { TimedStays(b.log, e, i); } else { NewIsTimed(b.log, e, startedAt, now); }
    }
    forall i | 0 <= i < |running| ensures StartedAt(c.log, |c.log|, running[i].call, running[i].startedAt) {
      StartedStays(b.log, e, |b.log|, running[i].call, running[i].startedAt);
    }
    forall tool ensures SummedFor(c, tool) {
      assert SummedFor(b, tool);
      SumsAppend(b.log, e, tool);
    }
  }

  lemma NewIsTimed(log: seq<Event>, e: Event, startedAt: Option<int>, now: int)
    requires e == EventOf(e.call, startedAt, e.kind, now, e.waiting, e.running, e.limit)
    requires Executed(e.kind) ==> startedAt.Some? && StartedAt(log, |log|, e.call, startedAt.value)
    requires !Executed(e.kind) ==> startedAt.None? || e.kind.NotExecuted? || startedAt == Some(now)
    ensures Timed(log + [e], |log|)
  {
    if Executed(e.kind) { StartedStays(log, e, |log|, e.call, startedAt.value); }
  }

  // ---------------------------------------------------------------- one call moves

  lemma DropKeepsBooks(q: Queue, i: nat, kind: Kind, now: int)
    requires Kept(q) && i < |q.waiting| && !Executed(kind)
    ensures Kept(Drop(q, i, kind, now))
  {
    RecordKeeps(q.books, q.running, q.waiting[i], None, kind, now, |q.waiting| - 1, |q.running|,
                q.settings.maxConcurrency);
  }

  lemma StartKeepsBooks(q: Queue, now: int)
    requires Kept(q) && |q.waiting| > 0
    ensures Kept(Start(q, now))
  {
    var head, r := q.waiting[0], Start(q, now);
    RecordKeeps(q.books, q.running, head, Some(now), Started, now, |r.waiting|, |r.running|, q.settings.maxConcurrency);
    var log := r.books.log;
    assert IsStart(log[|q.books.log|], head, now);
    forall i | 0 <= i < |r.running| ensures StartedAt(log, |log|, r.running[i].call, r.running[i].startedAt) {
      if r.running[i] != Running(head, now) { assert r.running[i] == q.running[i]; }
    }
  }

  lemma FinishKeepsBooks(q: Queue, i: nat, outcome: Kind, now: int)
    requires Kept(q) && i < |q.running| && Ran(outcome)
    ensures Kept(Finish(q, i, outcome, now))
  {
    var was, r := q.running[i], Finish(q, i, outcome, now);
    assert StartedAt(q.books.log, |q.books.log|, was.call, was.startedAt);
    forall k | 0 <= k < |r.running|
      ensures StartedAt(q.books.log, |q.books.log|, r.running[k].call, r.running[k].startedAt)
    {
      assert r.running[k] == if k < i then q.running[k] else q.running[k + 1];
    }
    RecordKeeps(q.books, r.running, was.call, Some(was.startedAt), outcome, now, |r.waiting|, |r.running|,
                q.settings.maxConcurrency);
  }

  lemma ArriveKeepsBooks(q: Queue, call: Call, kind: Kind, now: int)
    requires Kept(q) && !Executed(kind)
    ensures Kept(Turnaway(q, call, kind, now)) && Kept(Enqueue(q, call, now))
  {
    RecordKeeps(q.books, q.running, call, None, kind, now, |q.waiting|, |q.running|, q.settings.maxConcurrency);
    RecordKeeps(q.books, q.running, call, None, Enqueued, now, |q.waiting| + 1, |q.running|, q.settings.maxConcurrency);
  }

  // ---------------------------------------------------------------- every step, every run

  lemma {:induction false} PumpKeepsBooks(q: Queue, now: int)
    requires Kept(q)
    ensures Kept(Pump(q, now))
    decreases |q.waiting|
  {
    if q.stopped || |q.waiting| == 0 || |q.running| >= q.settings.maxConcurrency {
    } else if now - q.waiting[0].queuedAt >= q.waiting[0].timeoutMs {
      var dropped := Drop(q, 0, Expired, now);
      DropKeepsBooks(q, 0, Expired, now);
      PumpKeepsBooks(dropped, now);
      PumpKeepsBooks(Pump(dropped, now), now);
    } else {
      var asked := AfterAsking(q);
      if !asked.gateShut {
        StartKeepsBooks(asked, now);
        PumpKeepsBooks(Start(asked, now), now);
      }
    }
  }

  lemma {:induction false} DrainKeepsBooks(q: Queue, now: int)
    requires Kept(q)
    ensures Kept(Drain(q, now))
    decreases |q.waiting|
  {
    if |q.waiting| > 0 {
      DropKeepsBooks(q, 0, Shutdown, now);
      PumpKeepsBooks(Drop(q, 0, Shutdown, now), now);
      DrainKeepsBooks(Remove(q, 0, Shutdown, now), now);
    }
  }

  lemma RemoveKeepsBooks(q: Queue, id: nat, kind: Kind, now: int)
    requires Kept(q) && !Executed(kind)
    ensures Kept(RemoveById(q, id, kind, now))
  {
    var i := IndexOf(q.waiting, id);
    if i.Some? {
      DropKeepsBooks(q, i.value, kind, now);
      PumpKeepsBooks(Drop(q, i.value, kind, now), now);
    }
  }

  lemma SettleKeepsBooks(q: Queue, id: nat, outcome: Kind, now: int)
    requires Kept(q)
    ensures Kept(SettleStep(q, id, outcome, now))
  {
    var i := RunningIndex(q.running, id);
    if i.Some? && Ran(outcome) {
      FinishKeepsBooks(q, i.value, outcome, now);
      PumpKeepsBooks(Finish(q, i.value, outcome, now), now);
    }
  }

  lemma ArriveStepKeepsBooks(q: Queue, id: nat, tool: string, aborted: bool, now: int)
    requires Kept(q)
    ensures Kept(ArriveStep(q, id, tool, aborted, now))
  {
    var counted, call := Counted(q, tool), Call(id, tool, now, q.settings.queueTimeoutMs);
    ArriveKeepsBooks(counted, call, Shutdown, now);
    ArriveKeepsBooks(counted, call, Cancelled, now);
    ArriveKeepsBooks(counted, call, Full, now);
    PumpKeepsBooks(Enqueue(counted, call, now), now);
  }

  lemma PruneKeepsBooks(q: Queue, second: int)
    requires Kept(q)
    ensures Kept(q.(books := PruneBooks(q.books, second)))
  {
    forall tool ensures SummedFor(PruneBooks(q.books, second), tool) { assert SummedFor(q.books, tool); }
  }

  lemma StepKeepsBooks(q: Queue, s: Step)
    requires Kept(q)
    ensures Kept(Apply(q, s.op, s.now, s.gate))
  {
    var g := q.(gate := s.gate);
    match s.op
    case Arrive(id, tool, aborted) => ArriveStepKeepsBooks(g, id, tool, aborted, s.now);
    case Abort(id) => RemoveKeepsBooks(g, id, Cancelled, s.now);
    case TimerFires(id) => RemoveKeepsBooks(g, id, Expired, s.now);
    case Settle(id, outcome) => SettleKeepsBooks(g, id, outcome, s.now);
    case Tick => PumpKeepsBooks(g, s.now);
    case Sample => PruneKeepsBooks(g, s.now / 1000);
    case Configure(next, expected) => PumpKeepsBooks(g.(settings := next), s.now);
    case Close => DrainKeepsBooks(g.(stopped := true, ticker := false), s.now);
  }

  lemma {:induction false} RunKeepsBooks(q: Queue, clock: int, steps: seq<Step>)
    requires Legal(q, clock, steps) && Kept(q)
    ensures Kept(Run(q, clock, steps))
    decreases |steps|
  {
    if |steps| > 0 {
      StepKeepsBooks(q, steps[0]);
      RunKeepsBooks(Apply(q, steps[0].op, steps[0].now, steps[0].gate), steps[0].now, steps[1..]);
    }
  }

  /** Every recorded time is the one the log tells, and the totals of each tool add them up. */
  lemma TimingsAddUp(settings: Settings, at: int, steps: seq<Step>, tool: string)
    requires Legal(Opened(settings, at), at, steps)
    ensures var b := Run(Opened(settings, at), at, steps).books;
            && AllTimed(b.log)
            && TotalsOf(b.timings, tool).waitMs == WaitOf(b.log, tool)
            && TotalsOf(b.timings, tool).runMs == RunOf(b.log, tool)
  {
    assert Kept(Opened(settings, at)) by {
      forall t ensures SummedFor(Opened(settings, at).books, t) {}
    }
    RunKeepsBooks(Opened(settings, at), at, steps);
    assert SummedFor(Run(Opened(settings, at), at, steps).books, tool);
  }
}
