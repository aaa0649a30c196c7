/**
  The tool queue's state and the effect of each event on it (control-plane/src/toolQueue.ts).

  `gate` holds the answers the memory gate will give, in the order the queue asks; a step brings its
  own.  `log` is every lifecycle event ever recorded and `arrived` every call ever submitted.
*/
module ToolQueueModel {
  import opened Wrappers

  datatype Settings = Settings(maxConcurrency: nat, maxQueueSize: nat, queueTimeoutMs: nat, heapPausePercent: nat)

  const DEFAULT_SETTINGS: Settings := Settings(4, 16, 5000, 60)

  predicate ValidSettings(s: Settings) {
    && 1 <= s.maxConcurrency <= 64 && 1 <= s.maxQueueSize <= 1000
    && 100 <= s.queueTimeoutMs <= 300000 && 10 <= s.heapPausePercent <= 90
  }

  datatype Call = Call(id: nat, tool: string, queuedAt: int, timeoutMs: int)

  datatype Running = Running(call: Call, startedAt: int)

  datatype Kind = Enqueued | Started | Completed | Failed | NotExecuted | Full | Expired | Cancelled | Shutdown

  /** `waiting`, `running` and `limit` are the queue depth, running count and concurrency cap at the event. */
  datatype Event = Event(at: int, call: Call, kind: Kind, waiting: nat, running: nat, limit: nat, waitMs: int,
                         runMs: int)

  datatype Totals = Totals(finished: nat, executed: nat, waitMs: int, runMs: int)

  /** One row of the per-second table, and any sum of such rows. */
  datatype Sum = Sum(count: int, waitMs: int, runMs: int)

  const ZERO: Sum := Sum(0, 0, 0)

  datatype Books = Books(log: seq<Event>, timings: map<string, Totals>,
                         timeouts: nat, rejections: nat, shutdowns: nat,
                         seconds: map<int, Sum>, prunedAt: Option<int>)

  datatype Queue = Queue(settings: Settings, waiting: seq<Call>, running: seq<Running>,
                         stopped: bool, ticker: bool,
                         arrived: seq<Call>, requests: map<string, nat>, books: Books,
                         gate: seq<bool>, gateShut: bool)

  datatype Op =
    | Arrive(id: nat, tool: string, aborted: bool)
    | Abort(aborting: nat)
    | TimerFires(overdue: nat)
    | Settle(settled: nat, outcome: Kind)
    | Tick
    | Sample
    | Configure(next: Settings, expected: Settings)
    | Close

  const WINDOW := 60

  predicate Ends(k: Kind) { !k.Enqueued? && !k.Started? }

  predicate Executed(k: Kind) { k.Completed? || k.Failed? }

  predicate Ran(k: Kind) { Executed(k) || k.NotExecuted? }

  // ---------------------------------------------------------------- the books

  function Plus(a: Sum, b: Sum): Sum { Sum(a.count + b.count, a.waitMs + b.waitMs, a.runMs + b.runMs) }

  function RowAt(rows: map<int, Sum>, second: int): Sum { if second in rows then rows[second] else ZERO }

  /** `newer` lists 61 rows newer than `second`, in order. */
  ghost predicate ListsNewer(rows: map<int, Sum>, second: int, newer: seq<int>) {
    && |newer| == WINDOW + 1
    && (forall i :: 0 <= i < |newer| ==> newer[i] in rows && newer[i] > second)
    && (forall i :: 0 < i < |newer| ==> newer[i - 1] < newer[i])
  }

  /** Keeps the 61 newest rows, and of those the ones at most a minute old. */
  ghost function PruneRows(rows: map<int, Sum>, second: int): map<int, Sum> {
    map k | k in rows && k >= second - WINDOW && !(exists newer :: ListsNewer(rows, k, newer)) :: rows[k]
  }

  ghost function PruneBooks(b: Books, second: int): Books {
    b.(seconds := PruneRows(b.seconds, second), prunedAt := Some(second))
  }

  function TotalsOf(timings: map<string, Totals>, tool: string): Totals {
    if tool in timings then timings[tool] else Totals(0, 0, 0, 0)
  }

  function Tallied(t: Totals, kind: Kind, waitMs: int, runMs: int): Totals {
    t.(finished := t.finished + 1, waitMs := t.waitMs + waitMs,
       executed := if Executed(kind) then t.executed + 1 else t.executed,
       runMs := if Executed(kind) then t.runMs + runMs else t.runMs)
  }

  function WaitMs(call: Call, startedAt: Option<int>, kind: Kind, now: int): int {
    Max(0, (if startedAt.Some? && !kind.NotExecuted? then startedAt.value else now) - call.queuedAt)
  }

  function RunMs(startedAt: Option<int>, kind: Kind, now: int): int {
    if startedAt.Some? && !kind.NotExecuted? then Max(0, now - startedAt.value) else 0
  }

  ghost function CountSecond(b: Books, second: int, waitMs: int, runMs: int): Books {
    var counted := b.(seconds := b.seconds[second := Plus(RowAt(b.seconds, second), Sum(1, waitMs, runMs))]);
    if counted.prunedAt == Some(second) then counted else PruneBooks(counted, second)
  }

  /** Every counter except the per-second table. */
  ghost function Note(b: Books, e: Event): Books {
    b.(log := b.log + [e],
       timeouts := b.timeouts + if e.kind.Expired? then 1 else 0,
       rejections := b.rejections + if e.kind.Full? then 1 else 0,
       shutdowns := b.shutdowns + if e.kind.Shutdown? then 1 else 0,
       timings := if Ends(e.kind)
                  then b.timings[e.call.tool := Tallied(TotalsOf(b.timings, e.call.tool), e.kind, e.waitMs, e.runMs)]
                  else b.timings)
  }

  function EventOf(call: Call, startedAt: Option<int>, kind: Kind, now: int, w: nat, r: nat, limit: nat): Event {
    Event(now, call, kind, w, r, limit, WaitMs(call, startedAt, kind, now), RunMs(startedAt, kind, now))
  }

  ghost function Record(b: Books, call: Call, startedAt: Option<int>, kind: Kind, now: int,
                        waiting: nat, running: nat, limit: nat): Books
  {
    var e := EventOf(call, startedAt, kind, now, waiting, running, limit);
    if Executed(kind) then CountSecond(Note(b, e), now / 1000, e.waitMs, e.runMs) else Note(b, e)
  }

  ghost function Noted(q: Queue, call: Call, startedAt: Option<int>, kind: Kind, now: int): Queue {
    q.(books := Record(q.books, call, startedAt, kind, now, |q.waiting|, |q.running|, q.settings.maxConcurrency))
  }

  /** The reading of the per-second table over the seconds in (lo, hi]. */
  function RowsBetween(rows: map<int, Sum>, lo: int, hi: int): Sum
    decreases hi - lo
  {
    if hi <= lo then ZERO else Plus(RowsBetween(rows, lo, hi - 1), RowAt(rows, hi))
  }

  // ---------------------------------------------------------------- moves of one call

  function WithoutAt(calls: seq<Call>, i: nat): seq<Call>
    requires i < |calls|
  {
    calls[..i] + calls[i + 1..]
  }

  function IndexOf(calls: seq<Call>, id: nat): (i: Option<nat>)
    ensures i.Some? ==> i.value < |calls| && calls[i.value].id == id
    ensures i.None? ==> forall k :: 0 <= k < |calls| ==> calls[k].id != id
  {
    if |calls| == 0 then None
    else
      var earlier := IndexOf(calls[..|calls| - 1], id);
      if earlier.Some? then earlier else if calls[|calls| - 1].id == id then Some(|calls| - 1) else None
  }

  function RunningIndex(running: seq<Running>, id: nat): (i: Option<nat>)
    ensures i.Some? ==> i.value < |running| && running[i.value].call.id == id
    ensures i.None? ==> forall k :: 0 <= k < |running| ==> running[k].call.id != id
  {
    if |running| == 0 then None
    else
      var earlier := RunningIndex(running[..|running| - 1], id);
      if earlier.Some? then earlier else if running[|running| - 1].call.id == id then Some(|running| - 1) else None
  }

  /** A keyed map in insertion order: setting a present key overwrites it in place. */
  function SetRunning(running: seq<Running>, r: Running): seq<Running> {
    var i := RunningIndex(running, r.call.id);
    if i.Some? then running[i.value := r] else running + [r]
  }

  /** Takes a waiting call off the queue for good. */
  ghost function Drop(q: Queue, i: nat, kind: Kind, now: int): Queue
    requires i < |q.waiting|
  {
    Noted(q.(waiting := WithoutAt(q.waiting, i)), q.waiting[i], None, kind, now)
  }

  /** Starts the head of the queue. */
  ghost function Start(q: Queue, now: int): Queue
    requires |q.waiting| > 0
  {
    var head := q.waiting[0];
    Noted(q.(waiting := q.waiting[1..], running := SetRunning(q.running, Running(head, now))),
          head, Some(now), Started, now)
  }

  ghost function Finish(q: Queue, i: nat, outcome: Kind, now: int): Queue
    requires i < |q.running|
  {
    var r := q.running[i];
    Noted(q.(running := q.running[..i] + q.running[i + 1..]), r.call, Some(r.startedAt), outcome, now)
  }

  ghost function Enqueue(q: Queue, call: Call, now: int): Queue {
    Noted(q.(waiting := q.waiting + [call], arrived := q.arrived + [call]), call, None, Enqueued, now).(ticker := true)
  }

  ghost function Turnaway(q: Queue, call: Call, kind: Kind, now: int): Queue {
    Noted(q.(arrived := q.arrived + [call]), call, None, kind, now)
  }

  // ---------------------------------------------------------------- dispatch

  function GateAnswer(q: Queue): bool { |q.gate| == 0 || q.gate[0] }

  function AfterAsking(q: Queue): Queue {
    q.(gate := if |q.gate| == 0 then [] else q.gate[1..], gateShut := GateAnswer(q))
  }

  /** Starts what may start.  Dropping an expired head pumps the queue itself before this pump goes on. */
  ghost function Pump(q: Queue, now: int): (r: Queue)
    ensures |r.waiting| <= |q.waiting| && r.stopped == q.stopped
    decreases |q.waiting|, 0
  {
    if q.stopped then q
    else if |q.waiting| == 0 then q.(ticker := false)
    else if |q.running| >= q.settings.maxConcurrency then q
    else if now - q.waiting[0].queuedAt >= q.waiting[0].timeoutMs then Pump(Remove(q, 0, Expired, now), now)
    else
      var asked := AfterAsking(q);
      if asked.gateShut then asked else Pump(Start(asked, now), now)
  }

  ghost function Remove(q: Queue, i: nat, kind: Kind, now: int): (r: Queue)
    requires i < |q.waiting|
    ensures |r.waiting| < |q.waiting| && r.stopped == q.stopped
    decreases |q.waiting| - 1, 1
  {
    Pump(Drop(q, i, kind, now), now)
  }

  ghost function RemoveById(q: Queue, id: nat, kind: Kind, now: int): Queue {
    var i := IndexOf(q.waiting, id);
    if i.None? then q else Remove(q, i.value, kind, now)
  }

  ghost function ArriveStep(q: Queue, id: nat, tool: string, aborted: bool, now: int): Queue {
    var counted := q.(requests := q.requests[tool := (if tool in q.requests then q.requests[tool] else 0) + 1]);
    var call := Call(id, tool, now, q.settings.queueTimeoutMs);
    if q.stopped then Turnaway(counted, call, Shutdown, now)
    else if aborted then Turnaway(counted, call, Cancelled, now)
    else if |q.waiting| >= q.settings.maxQueueSize then Turnaway(counted, call, Full, now)
    else Pump(Enqueue(counted, call, now), now)
  }

  ghost function SettleStep(q: Queue, id: nat, outcome: Kind, now: int): Queue {
    var i := RunningIndex(q.running, id);
    if i.None? || !Ran(outcome) then q else Pump(Finish(q, i.value, outcome, now), now)
  }

  ghost function ConfigureStep(q: Queue, next: Settings, expected: Settings, now: int): Queue {
    if !ValidSettings(next) || expected != q.settings then q else Pump(q.(settings := next), now)
  }

  /** Empties a stopped queue from the front. */
  ghost function Drain(q: Queue, now: int): (r: Queue)
    decreases |q.waiting|
  {
    if |q.waiting| == 0 then q else Drain(Remove(q, 0, Shutdown, now), now)
  }

  ghost function Apply(q: Queue, op: Op, now: int, gate: seq<bool>): Queue {
    var s := q.(gate := gate);
    match op
    case Arrive(id, tool, aborted) => ArriveStep(s, id, tool, aborted, now)
    case Abort(id) => RemoveById(s, id, Cancelled, now)
    case TimerFires(id) => RemoveById(s, id, Expired, now)
    case Settle(id, outcome) => SettleStep(s, id, outcome, now)
    case Tick => Pump(s, now)
    case Sample => s.(books := PruneBooks(s.books, now / 1000))
    case Configure(next, expected) => ConfigureStep(s, next, expected, now)
    case Close => Drain(s.(stopped := true, ticker := false), now)
  }
}
