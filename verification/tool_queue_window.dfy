/** The pruned per-second table answers as the full history would. */
module ToolQueueWindow {
  import opened Wrappers
  import opened ToolQueueModel
  import opened ToolQueueProofs

  function SumOf(e: Event): Sum { if Executed(e.kind) then Sum(1, e.waitMs, e.runMs) else ZERO }

  /** The executed calls of the log recorded in the seconds (lo, hi]. */
  ghost function HistoryBetween(log: seq<Event>, lo: int, hi: int): Sum {
    if |log| == 0 then ZERO
    else
      var e := log[|log| - 1];
      AddWithin(HistoryBetween(log[..|log| - 1], lo, hi), SumOf(e), e.at / 1000, lo, hi)
  }

  lemma HistoryAppend(log: seq<Event>, e: Event, lo: int, hi: int)
    ensures HistoryBetween(log + [e], lo, hi)
            == if lo < e.at / 1000 <= hi then Plus(HistoryBetween(log, lo, hi), SumOf(e))
               else HistoryBetween(log, lo, hi)
  {
    assert (log + [e])[..|log|] == log;
  }

  lemma {:induction false} HistorySplits(log: seq<Event>, lo: int, hi: int)
    requires lo < hi
    ensures HistoryBetween(log, lo, hi) == Plus(HistoryBetween(log, lo, hi - 1), HistoryBetween(log, hi - 1, hi))
  {
    if |log| > 0 {
      var front, e := log[..|log| - 1], log[|log| - 1];
      HistorySplits(front, lo, hi);
      var whole, left, right := HistoryBetween(front, lo, hi), HistoryBetween(front, lo, hi - 1),
        HistoryBetween(front, hi - 1, hi);
      OneMoreSplits(whole, left, right, SumOf(e), e.at / 1000, lo, hi);
    }
  }

  function AddWithin(earlier: Sum, one: Sum, second: int, lo: int, hi: int): Sum {
    if lo < second <= hi then Plus(earlier, one) else earlier
  }

  lemma OneMoreSplits(whole: Sum, left: Sum, right: Sum, one: Sum, second: int, lo: int, hi: int)
    requires whole == Plus(left, right) && lo < hi
    ensures AddWithin(whole, one, second, lo, hi)
            == Plus(AddWithin(left, one, second, lo, hi - 1), AddWithin(right, one, second, hi - 1, hi))
  {
  }

  lemma {:induction false} HistoryEmpty(log: seq<Event>, lo: int, hi: int)
    requires hi <= lo
    ensures HistoryBetween(log, lo, hi) == ZERO
  {
    if |log| > 0 { HistoryEmpty(log[..|log| - 1], lo, hi); }
  }

  // ---------------------------------------------------------------- the invariant

  ghost predicate RowExact(b: Books, k: int) {
    RowAt(b.seconds, k) == HistoryBetween(b.log, k - 1, k)
  }

  /** Rows and events lie in the past, and rows young enough at the last pruning are exact. */
  ghost predicate RowsOk(b: Books, second: int) {
    && b.prunedAt.Some? && b.prunedAt.value <= second
    && (forall k :: k in b.seconds ==> k <= second)
    && (forall k :: k >= b.prunedAt.value - WINDOW ==> RowExact(b, k))
  }

  lemma RowsLater(b: Books, second: int, later: int)
    requires RowsOk(b, second) && second <= later
    ensures RowsOk(b, later)
  {
  }

  lemma {:induction false} NewerClimbs(rows: map<int, Sum>, second: int, newer: seq<int>, i: nat)
    requires ListsNewer(rows, second, newer) && i < |newer|
    ensures newer[i] > second + i
  {
    if i > 0 { NewerClimbs(rows, second, newer, i - 1); }
  }

  /** Pruning never drops a row that this reading or any later one counts. */
  lemma PruneKeepsWindow(b: Books, second: int, k: int)
    requires RowsOk(b, second) && k >= second - WINDOW
    ensures RowAt(PruneRows(b.seconds, second), k) == RowAt(b.seconds, k)
  {
    forall newer | ListsNewer(b.seconds, k, newer) ensures false {
      NewerClimbs(b.seconds, k, newer, WINDOW);
    }
  }

  lemma PruneOk(b: Books, second: int)
    requires RowsOk(b, second)
    ensures RowsOk(PruneBooks(b, second), second)
  {
    forall k | k >= second - WINDOW ensures RowExact(PruneBooks(b, second), k) {
      PruneKeepsWindow(b, second, k);
      assert RowExact(b, k);
    }
  }

  /** `c` is `b` with an event and, if it was executed, its share of its second's row. */
  ghost predicate Appended(b: Books, c: Books, e: Event, second: int) {
    && c.prunedAt == b.prunedAt && c.log == b.log + [e] && second == e.at / 1000
    && c.seconds
       == if Executed(e.kind) then b.seconds[second := Plus(RowAt(b.seconds, second), SumOf(e))] else b.seconds
  }

  lemma AppendExact(b: Books, c: Books, e: Event, second: int, k: int)
    requires Appended(b, c, e, second) && RowExact(b, k)
    ensures RowExact(c, k)
  {
    HistoryAppend(b.log, e, k - 1, k);
    assert k - 1 < e.at / 1000 <= k <==> k == second;
    if Executed(e.kind) {
      RowSet(b.seconds, second, Plus(RowAt(b.seconds, second), SumOf(e)), k);
    } else {
      PlusZero(RowAt(b.seconds, k));
    }
  }

  lemma RowSet(rows: map<int, Sum>, second: int, row: Sum, k: int)
    ensures RowAt(rows[second := row], k) == if k == second then row else RowAt(rows, k)
  {
  }

  lemma PlusZero(row: Sum)
    ensures Plus(row, ZERO) == row
  {
  }

  lemma RecordRows(b: Books, call: Call, startedAt: Option<int>, kind: Kind, now: int, w: nat, r: nat, limit: nat)
    requires RowsOk(b, now / 1000)
    ensures RowsOk(Record(b, call, startedAt, kind, now, w, r, limit), now / 1000)
  {
    var second := now / 1000;
    var e := EventOf(call, startedAt, kind, now, w, r, limit);
    var c := Record(b, call, startedAt, kind, now, w, r, limit).(prunedAt := b.prunedAt,
               seconds := if Executed(kind) then b.seconds[second := Plus(RowAt(b.seconds, second), SumOf(e))]
                          else b.seconds);
    assert Appended(b, c, e, second);
    forall k | k >= b.prunedAt.value - WINDOW ensures RowExact(c, k) {
      assert RowExact(b, k);
      AppendExact(b, c, e, second, k);
    }
    if Executed(kind) { PruneOk(c, second); }
  }

  // ---------------------------------------------------------------- every step

  lemma {:induction false} PumpRows(q: Queue, now: int)
    requires RowsOk(q.books, now / 1000)
    ensures RowsOk(Pump(q, now).books, now / 1000)
    decreases |q.waiting|
  {
    if q.stopped || |q.waiting| == 0 || |q.running| >= q.settings.maxConcurrency {
    } else if now - q.waiting[0].queuedAt >= q.waiting[0].timeoutMs {
      var dropped := Drop(q, 0, Expired, now);
      RecordRows(q.books, q.waiting[0], None, Expired, now, |dropped.waiting|, |q.running|, q.settings.maxConcurrency);
      PumpRows(dropped, now);
      PumpRows(Pump(dropped, now), now);
    } else {
      var asked := AfterAsking(q);
      if !asked.gateShut {
        var started := Start(asked, now);
        RecordRows(q.books, q.waiting[0], Some(now), Started, now, |started.waiting|, |started.running|,
                   q.settings.maxConcurrency);
        PumpRows(started, now);
      }
    }
  }

  lemma RemoveRows(q: Queue, i: nat, kind: Kind, now: int)
    requires RowsOk(q.books, now / 1000) && i < |q.waiting|
    ensures RowsOk(Remove(q, i, kind, now).books, now / 1000)
  {
    var dropped := Drop(q, i, kind, now);
    RecordRows(q.books, q.waiting[i], None, kind, now, |dropped.waiting|, |q.running|, q.settings.maxConcurrency);
    PumpRows(dropped, now);
  }

  lemma {:induction false} DrainRows(q: Queue, now: int)
    requires RowsOk(q.books, now / 1000)
    ensures RowsOk(Drain(q, now).books, now / 1000)
    decreases |q.waiting|
  {
    if |q.waiting| > 0 {
      RemoveRows(q, 0, Shutdown, now);
      DrainRows(Remove(q, 0, Shutdown, now), now);
    }
  }

  lemma ArriveRows(q: Queue, id: nat, tool: string, aborted: bool, now: int)
    requires RowsOk(q.books, now / 1000)
    ensures RowsOk(ArriveStep(q, id, tool, aborted, now).books, now / 1000)
  {
    var counted := q.(requests := q.requests[tool := (if tool in q.requests then q.requests[tool] else 0) + 1]);
    var call := Call(id, tool, now, q.settings.queueTimeoutMs);
    var kind := if q.stopped then Shutdown else if aborted then Cancelled
                else if |q.waiting| >= q.settings.maxQueueSize then Full else Enqueued;
    var depth := if kind.Enqueued? then |q.waiting| + 1 else |q.waiting|;
    RecordRows(q.books, call, None, kind, now, depth, |q.running|, q.settings.maxConcurrency);
    if kind.Enqueued? { PumpRows(Enqueue(counted, call, now), now); }
  }

  lemma SettleRows(q: Queue, id: nat, outcome: Kind, now: int)
    requires RowsOk(q.books, now / 1000)
    ensures RowsOk(SettleStep(q, id, outcome, now).books, now / 1000)
  {
    var i := RunningIndex(q.running, id);
    if i.Some? && Ran(outcome) {
      var was := q.running[i.value];
      RecordRows(q.books, was.call, Some(was.startedAt), outcome, now, |q.waiting|,
                 |Finish(q, i.value, outcome, now).running|, q.settings.maxConcurrency);
      PumpRows(Finish(q, i.value, outcome, now), now);
    }
  }

  lemma StepRows(q: Queue, op: Op, now: int, gate: seq<bool>)
    requires RowsOk(q.books, now / 1000)
    ensures RowsOk(Apply(q, op, now, gate).books, now / 1000)
  {
    var s := q.(gate := gate);
    match op
    case Arrive(id, tool, aborted) => ArriveRows(s, id, tool, aborted, now);
    case Abort(id) => if IndexOf(s.waiting, id).Some? { RemoveRows(s, IndexOf(s.waiting, id).value, Cancelled, now); }
    case TimerFires(id) =>
      if IndexOf(s.waiting, id).Some? { RemoveRows(s, IndexOf(s.waiting, id).value, Expired, now); }
    case Settle(id, outcome) => SettleRows(s, id, outcome, now);
    case Tick => PumpRows(s, now);
    case Sample => PruneOk(s.books, now / 1000);
    case Configure(next, expected) => PumpRows(s.(settings := next), now);
    case Close => DrainRows(s.(stopped := true, ticker := false), now);
  }

  function LastTime(clock: int, steps: seq<Step>): int {
    if |steps| == 0 then clock else steps[|steps| - 1].now
  }

  lemma {:induction false} RunRows(q: Queue, clock: int, steps: seq<Step>)
    requires RowsOk(q.books, clock / 1000) && Legal(q, clock, steps)
    ensures RowsOk(Run(q, clock, steps).books, LastTime(clock, steps) / 1000)
    ensures LastTime(clock, steps) >= clock
    decreases |steps|
  {
    if |steps| > 0 {
      var s := steps[0];
      NextRows(q, clock, s);
      RunRows(Apply(q, s.op, s.now, s.gate), s.now, steps[1..]);
      assert LastTime(s.now, steps[1..]) == LastTime(clock, steps);
    }
  }

  lemma NextRows(q: Queue, clock: int, s: Step)
    requires RowsOk(q.books, clock / 1000) && clock <= s.now
    ensures RowsOk(Apply(q, s.op, s.now, s.gate).books, s.now / 1000)
  {
    RowsLater(q.books, clock / 1000, s.now / 1000);
    StepRows(q, s.op, s.now, s.gate);
  }

  // ---------------------------------------------------------------- the reading

  lemma {:induction false} WindowExact(b: Books, lo: int, hi: int)
    requires b.prunedAt.Some? && lo >= b.prunedAt.value - WINDOW
    requires forall k :: k >= b.prunedAt.value - WINDOW ==> RowExact(b, k)
    ensures RowsBetween(b.seconds, lo, hi) == HistoryBetween(b.log, lo, hi)
    decreases hi - lo
  {
    if hi <= lo {
      HistoryEmpty(b.log, lo, hi);
    } else {
      WindowExact(b, lo, hi - 1);
      HistorySplits(b.log, lo, hi);
      assert RowExact(b, hi);
    }
  }

  lemma OpenedRows(settings: Settings, at: int)
    ensures RowsOk(Opened(settings, at).books, at / 1000)
  {
    forall k ensures RowExact(Opened(settings, at).books, k) {}
  }

  ghost predicate ReadsExactly(b: Books, second: int) {
    && RowsBetween(b.seconds, second - WINDOW, second) == HistoryBetween(b.log, second - WINDOW, second)
    && RowsBetween(b.seconds, second - 10, second) == HistoryBetween(b.log, second - 10, second)
  }

  lemma ReadingExact(b: Books, second: int)
    requires RowsOk(b, second)
    ensures ReadsExactly(b, second)
  {
    WindowExact(b, second - WINDOW, second);
    WindowExact(b, second - 10, second);
  }

  /**
    Whatever the run, a reading taken now or later sums, over the last minute and over the last ten
    seconds, every call that completed or failed in that time.
  */
  lemma ProcessingIsExact(settings: Settings, at: int, steps: seq<Step>, now: int)
    requires Legal(Opened(settings, at), at, steps) && now >= LastTime(at, steps)
    ensures ReadsExactly(Run(Opened(settings, at), at, steps).books, now / 1000)
  {
    var b := Run(Opened(settings, at), at, steps).books;
    OpenedRows(settings, at);
    RunRows(Opened(settings, at), at, steps);
    RowsLater(b, LastTime(at, steps) / 1000, now / 1000);
    ReadingExact(b, now / 1000);
  }
}
