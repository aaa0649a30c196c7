/**
  The tool queue as it runs: fields updated in place, a dispatch loop that drops expired heads, and a
  removal that dispatches again.  Each method is proved to have the effect `ToolQueueModel` gives its event.
*/
module ToolQueues {
  import opened Wrappers
  import opened ToolQueueModel

  class ToolQueue {
    var settings: Settings
    var waiting: seq<Call>
    var running: seq<Running>
    var stopped: bool
    var ticker: bool
    var requests: map<string, nat>
    var timings: map<string, Totals>
    var timeouts: nat
    var rejections: nat
    var shutdowns: nat
    var prunedAt: Option<int>
    /** The memory gate's coming answers, and its last one. */
    var gate: seq<bool>
    var gateShut: bool
    /** The SQLite side: the per-second table, and every event and arrival there ever was. */
    ghost var seconds: map<int, Sum>
    ghost var log: seq<Event>
    ghost var arrived: seq<Call>

    ghost function View(): Queue
      reads this
    {
      Queue(settings, waiting, running, stopped, ticker, arrived, requests,
            Books(log, timings, timeouts, rejections, shutdowns, seconds, prunedAt), gate, gateShut)
    }

    constructor (now: int)
      ensures View() == Queue(DEFAULT_SETTINGS, [], [], false, false, [], map[],
                              Books([], map[], 0, 0, 0, map[], Some(now / 1000)), [], false)
    {
      settings, waiting, running, stopped, ticker := DEFAULT_SETTINGS, [], [], false, false;
      requests, timings, timeouts, rejections, shutdowns := map[], map[], 0, 0, 0;
      prunedAt, gate, gateShut := Some(now / 1000), [], false;
      seconds, log, arrived := map[], [], [];
    }

    method PruneProcessing(now: int)
      modifies this`seconds, this`prunedAt
      ensures View() == old(View()).(books := PruneBooks(old(View()).books, now / 1000))
    {
      seconds := PruneRows(seconds, now / 1000);
      prunedAt := Some(now / 1000);
    }

    method CountExecuted(now: int, waitMs: int, runMs: int)
      modifies this`seconds, this`prunedAt
      ensures View() == old(View()).(books := CountSecond(old(View()).books, now / 1000, waitMs, runMs))
    {
      var second := now / 1000;
      seconds := seconds[second := Plus(RowAt(seconds, second), Sum(1, waitMs, runMs))];
      if prunedAt != Some(second) { PruneProcessing(now); }
    }

    method NoteEvent(e: Event)
      modifies this`timeouts, this`rejections, this`shutdowns, this`timings, this`log
      ensures View() == old(View()).(books := Note(old(View()).books, e))
    {
      if e.kind.Expired? { timeouts := timeouts + 1; }
      else if e.kind.Full? { rejections := rejections + 1; }
      else if e.kind.Shutdown? { shutdowns := shutdowns + 1; }
      if Ends(e.kind) {
        timings := timings[e.call.tool := Tallied(TotalsOf(timings, e.call.tool), e.kind, e.waitMs, e.runMs)];
      }
      log := log + [e];
    }

    method RecordEvent(call: Call, startedAt: Option<int>, kind: Kind, now: int)
      modifies this`timeouts, this`rejections, this`shutdowns, this`timings, this`log, this`seconds, this`prunedAt
      ensures View() == Noted(old(View()), call, startedAt, kind, now)
    {
      var e := EventOf(call, startedAt, kind, now, |waiting|, |running|, settings.maxConcurrency);
      NoteEvent(e);
      if Executed(kind) { CountExecuted(now, e.waitMs, e.runMs); }
    }

    method AskGate() returns (shut: bool)
      modifies this`gate, this`gateShut
      ensures View() == AfterAsking(old(View())) && shut == gateShut
    {
      gateShut := |gate| == 0 || gate[0];
      gate := if |gate| == 0 then [] else gate[1..];
      shut := gateShut;
    }

    method StartHead(now: int)
      requires |waiting| > 0
      modifies this
      ensures View() == Start(old(View()), now)
    {
      var item := waiting[0];
      waiting := waiting[1..];
      running := SetRunning(running, Running(item, now));
      RecordEvent(item, Some(now), Started, now);
    }

    method RemoveAt(i: nat, kind: Kind, now: int)
      requires i < |waiting|
      modifies this
      ensures View() == Remove(old(View()), i, kind, now) && |waiting| < old(|waiting|)
      decreases |waiting| - 1, 1
    {
      var call := waiting[i];
      waiting := waiting[..i] + waiting[i + 1..];
      RecordEvent(call, None, kind, now);
      PumpQueue(now);
    }

    method PumpQueue(now: int)
      modifies this
      ensures View() == Pump(old(View()), now) && |waiting| <= old(|waiting|)
      decreases |waiting|, 0
    {
      if stopped { return; }
      var shut := false;
      while !shut && |waiting| > 0 && |running| < settings.maxConcurrency
        invariant !stopped && |waiting| <= old(|waiting|)
        invariant if shut then View() == Pump(old(View()), now) && |waiting| > 0
                  else Pump(View(), now) == Pump(old(View()), now)
        decreases |waiting|, !shut
      {
        if now - waiting[0].queuedAt >= waiting[0].timeoutMs {
          RemoveAt(0, Expired, now);
          continue;
        }
        shut := AskGate();
        if !shut { StartHead(now); }
      }
      if |waiting| == 0 { ticker := false; }
    }

    method EnqueueCall(call: Call, now: int)
      modifies this
      ensures View() == Pump(Enqueue(old(View()), call, now), now)
    {
      arrived := arrived + [call];
      waiting := waiting + [call];
      RecordEvent(call, None, Enqueued, now);
      ticker := true;
      assert View() == Enqueue(old(View()), call, now);
      PumpQueue(now);
    }

    method TurnAway(call: Call, kind: Kind, now: int)
      modifies this
      ensures View() == Turnaway(old(View()), call, kind, now)
    {
      arrived := arrived + [call];
      RecordEvent(call, None, kind, now);
    }

    method Submit(id: nat, tool: string, aborted: bool, now: int)
      modifies this
      ensures View() == ArriveStep(old(View()), id, tool, aborted, now)
    {
      requests := requests[tool := (if tool in requests then requests[tool] else 0) + 1];
      var call := Call(id, tool, now, settings.queueTimeoutMs);
      if stopped || aborted || |waiting| >= settings.maxQueueSize {
        TurnAway(call, if stopped then Shutdown else if aborted then Cancelled else Full, now);
      } else {
        EnqueueCall(call, now);
      }
    }

    /** An abort signal or a queue timer: `Cancelled` or `Expired`. */
    method Withdraw(id: nat, kind: Kind, now: int)
      modifies this
      ensures View() == RemoveById(old(View()), id, kind, now)
    {
      var i := IndexOf(waiting, id);
      if i.Some? { RemoveAt(i.value, kind, now); }
    }

    method Finish(id: nat, outcome: Kind, now: int)
      requires Ran(outcome)
      modifies this
      ensures View() == SettleStep(old(View()), id, outcome, now)
    {
      var i := RunningIndex(running, id);
      if i.None? { return; }
      var was := running[i.value];
      running := running[..i.value] + running[i.value + 1..];
      RecordEvent(was.call, Some(was.startedAt), outcome, now);
      PumpQueue(now);
    }

    method Configure(next: Settings, expected: Settings, now: int) returns (ok: bool)
      modifies this
      ensures View() == ConfigureStep(old(View()), next, expected, now)
      ensures ok == (ValidSettings(next) && expected == old(settings))
    {
      if !ValidSettings(next) || expected != settings { return false; }
      settings := next;
      PumpQueue(now);
      ok := true;
    }

    method Close(now: int)
      modifies this
      ensures View() == Drain(old(View()).(stopped := true, ticker := false), now)
    {
      stopped := true;
      ticker := false;
      ghost var closing := View();
      while |waiting| > 0
        invariant Drain(View(), now) == Drain(closing, now)
        decreases |waiting|
      {
        RemoveAt(0, Shutdown, now);
      }
    }
  }
}
