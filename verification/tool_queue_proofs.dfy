/** Conservation, order and punctuality of the tool queue over every run, through all nested dispatch. */
module ToolQueueProofs {
  import opened Wrappers
  import opened ToolQueueModel

  const ENDS: set<Kind> := {Completed, Failed, NotExecuted, Full, Expired, Cancelled, Shutdown}
  const EXECUTED: set<Kind> := {Completed, Failed}
  const RAN: set<Kind> := {Completed, Failed, NotExecuted}

  /** The calls of the events of the given kinds, in order. */
  ghost function Pick(log: seq<Event>, kinds: set<Kind>): seq<Call> {
    if |log| == 0 then []
    else
      var e := log[|log| - 1];
      if e.kind in kinds then Pick(log[..|log| - 1], kinds) + [e.call] else Pick(log[..|log| - 1], kinds)
  }

  ghost function RunningCalls(running: seq<Running>): seq<Call> {
    seq(|running|, i requires 0 <= i < |running| => running[i].call)
  }

  ghost function CountTool(calls: seq<Call>, tool: string): nat {
    if |calls| == 0 then 0
    else CountTool(calls[..|calls| - 1], tool) + if calls[|calls| - 1].tool == tool then 1 else 0
  }

  lemma PickAppend(log: seq<Event>, e: Event, kinds: set<Kind>)
    ensures Pick(log + [e], kinds) == if e.kind in kinds then Pick(log, kinds) + [e.call] else Pick(log, kinds)
  {
    assert (log + [e])[..|log|] == log;
  }

  lemma NamedKinds(k: Kind)
    ensures (k in ENDS <==> Ends(k)) && (k in RAN <==> Ran(k)) && (k in EXECUTED <==> Executed(k))
  {
  }

  /** One more event, seen by each of the named lists. */
  lemma PickAppends(log: seq<Event>, e: Event)
    ensures Pick(log + [e], ENDS) == if Ends(e.kind) then Pick(log, ENDS) + [e.call] else Pick(log, ENDS)
    ensures Pick(log + [e], RAN) == if Ran(e.kind) then Pick(log, RAN) + [e.call] else Pick(log, RAN)
    ensures Pick(log + [e], EXECUTED)
            == if Executed(e.kind) then Pick(log, EXECUTED) + [e.call] else Pick(log, EXECUTED)
    ensures Pick(log + [e], {Started})
            == if e.kind.Started? then Pick(log, {Started}) + [e.call] else Pick(log, {Started})
  {
    NamedKinds(e.kind);
    PickAppend(log, e, ENDS);
    PickAppend(log, e, RAN);
    PickAppend(log, e, EXECUTED);
    PickAppend(log, e, {Started});
  }

  lemma CountToolAppend(calls: seq<Call>, call: Call, tool: string)
    ensures CountTool(calls + [call], tool) == CountTool(calls, tool) + if call.tool == tool then 1 else 0
  {
    assert (calls + [call])[..|calls|] == calls;
  }

  // ---------------------------------------------------------------- the invariant

  /** No two calls on the queue or in flight share an id. */
  ghost predicate Distinct(waiting: seq<Call>, running: seq<Running>) {
    && (forall i, k :: 0 <= i < k < |waiting| ==> waiting[i].id != waiting[k].id)
    && (forall i, k :: 0 <= i < k < |running| ==> running[i].call.id != running[k].call.id)
    && (forall i, k :: 0 <= i < |waiting| && 0 <= k < |running| ==> waiting[i].id != running[k].call.id)
  }

  /** Every arrival is waiting, in flight or settled, once; every start is in flight or done, once. */
  ghost predicate Balanced(arrived: seq<Call>, waiting: seq<Call>, flying: seq<Call>, log: seq<Event>) {
    && multiset(arrived) == multiset(waiting) + multiset(flying) + multiset(Pick(log, ENDS))
    && multiset(Pick(log, {Started})) == multiset(flying) + multiset(Pick(log, RAN))
  }

  /** `a` is a subsequence of `b`, at the positions `at`. */
  ghost predicate EmbedsAt(a: seq<Call>, b: seq<Call>, at: seq<nat>) {
    && |at| == |a|
    && (forall i :: 0 <= i < |at| ==> at[i] < |b| && b[at[i]] == a[i])
    && (forall i, k :: 0 <= i < k < |at| ==> at[i] < at[k])
  }

  ghost predicate Embeds(a: seq<Call>, b: seq<Call>) { exists at: seq<nat> :: EmbedsAt(a, b, at) }

  /** What has started, followed by what waits, is in order of enqueueing. */
  ghost predicate Ordered(log: seq<Event>, waiting: seq<Call>) {
    Embeds(Pick(log, {Started}) + waiting, Pick(log, {Enqueued}))
  }

  /** Nothing starts at its deadline or later, or above the cap in force. */
  ghost predicate Punctual(log: seq<Event>) {
    forall i :: 0 <= i < |log| && log[i].kind.Started? ==>
      log[i].at - log[i].call.queuedAt < log[i].call.timeoutMs && log[i].running <= log[i].limit
  }

  ghost predicate Requested(q: Queue) {
    forall tool :: (if tool in q.requests then q.requests[tool] else 0) == CountTool(q.arrived, tool)
  }

  ghost predicate TallyFor(b: Books, tool: string) {
    && TotalsOf(b.timings, tool).finished == CountTool(Pick(b.log, ENDS), tool)
    && TotalsOf(b.timings, tool).executed == CountTool(Pick(b.log, EXECUTED), tool)
  }

  ghost predicate Tally(b: Books) {
    && (forall tool :: TallyFor(b, tool))
    && b.timeouts == |Pick(b.log, {Expired})|
    && b.rejections == |Pick(b.log, {Full})|
    && b.shutdowns == |Pick(b.log, {Shutdown})|
  }

  ghost predicate Core(q: Queue) {
    && Distinct(q.waiting, q.running) && Requested(q) && Tally(q.books)
    && Balanced(q.arrived, q.waiting, RunningCalls(q.running), q.books.log)
    && Ordered(q.books.log, q.waiting) && Punctual(q.books.log)
  }

  /** Why nothing more has started. */
  ghost predicate Stalled(q: Queue) {
    && (q.stopped ==> |q.waiting| == 0)
    && (!q.stopped ==> |q.waiting| == 0 || |q.running| >= q.settings.maxConcurrency || q.gateShut)
    && (q.ticker <==> |q.waiting| > 0)
  }

  // ---------------------------------------------------------------- recording

  lemma RecordLog(b: Books, call: Call, startedAt: Option<int>, kind: Kind, now: int, w: nat, r: nat, limit: nat)
    ensures Record(b, call, startedAt, kind, now, w, r, limit).log
            == b.log + [EventOf(call, startedAt, kind, now, w, r, limit)]
  {
  }

  lemma TallyOne(b: Books, c: Books, e: Event, tool: string)
    requires TallyFor(b, tool) && c.log == b.log + [e]
    requires TotalsOf(c.timings, tool).finished
             == TotalsOf(b.timings, tool).finished + if Ends(e.kind) && tool == e.call.tool then 1 else 0
    requires TotalsOf(c.timings, tool).executed
             == TotalsOf(b.timings, tool).executed + if Executed(e.kind) && tool == e.call.tool then 1 else 0
    ensures TallyFor(c, tool)
  {
    PickAppends(b.log, e);
    CountToolAppend(Pick(b.log, ENDS), e.call, tool);
    CountToolAppend(Pick(b.log, EXECUTED), e.call, tool);
  }

  lemma RecordTally(b: Books, call: Call, startedAt: Option<int>, kind: Kind, now: int, w: nat, r: nat, limit: nat)
    requires Tally(b)
    ensures Tally(Record(b, call, startedAt, kind, now, w, r, limit))
  {
    var c := Record(b, call, startedAt, kind, now, w, r, limit);
    var e := EventOf(call, startedAt, kind, now, w, r, limit);
    RecordLog(b, call, startedAt, kind, now, w, r, limit);
    forall tool ensures TallyFor(c, tool) {
      assert TallyFor(b, tool);
      TallyOne(b, c, e, tool);
    }
    PickAppend(b.log, e, {Expired});
    PickAppend(b.log, e, {Full});
    PickAppend(b.log, e, {Shutdown});
  }

  // ---------------------------------------------------------------- one call moves: order

  lemma EmbedMore(a: seq<Call>, b: seq<Call>, call: Call)
    requires Embeds(a, b)
    ensures Embeds(a + [call], b + [call])
  {
    var at: seq<nat> :| EmbedsAt(a, b, at);
    var end: nat := |b|;
    assert EmbedsAt(a + [call], b + [call], at + [end]);
  }

  lemma EmbedFewer(a: seq<Call>, b: seq<Call>, i: nat)
    requires Embeds(a, b) && i < |a|
    ensures Embeds(WithoutAt(a, i), b)
  {
    var at: seq<nat> :| EmbedsAt(a, b, at);
    assert EmbedsAt(WithoutAt(a, i), b, at[..i] + at[i + 1..]);
  }

  lemma OrderedDrop(log: seq<Event>, waiting: seq<Call>, i: nat, e: Event)
    requires Ordered(log, waiting) && i < |waiting| && Ends(e.kind)
    ensures Ordered(log + [e], WithoutAt(waiting, i))
  {
    var starts := Pick(log, {Started});
    EmbedFewer(starts + waiting, Pick(log, {Enqueued}), |starts| + i);
    OrderedIgnores(log, e, waiting);
    assert WithoutAt(starts + waiting, |starts| + i) == starts + WithoutAt(waiting, i);
  }

  lemma OrderedIgnores(log: seq<Event>, e: Event, waiting: seq<Call>)
    requires Ends(e.kind)
    ensures Pick(log + [e], {Started}) == Pick(log, {Started}) && Pick(log + [e], {Enqueued}) == Pick(log, {Enqueued})
    ensures Ordered(log, waiting) ==> Ordered(log + [e], waiting)
  {
    PickAppend(log, e, {Started});
    PickAppend(log, e, {Enqueued});
  }

  lemma OrderedStart(log: seq<Event>, waiting: seq<Call>, e: Event)
    requires Ordered(log, waiting) && |waiting| > 0 && e.kind.Started? && e.call == waiting[0]
    ensures Ordered(log + [e], waiting[1..])
  {
    PickAppend(log, e, {Started});
    PickAppend(log, e, {Enqueued});
    assert Pick(log, {Started}) + waiting == Pick(log + [e], {Started}) + waiting[1..];
  }

  lemma OrderedEnqueue(log: seq<Event>, waiting: seq<Call>, e: Event)
    requires Ordered(log, waiting) && e.kind.Enqueued?
    ensures Ordered(log + [e], waiting + [e.call])
  {
    PickAppend(log, e, {Started});
    PickAppend(log, e, {Enqueued});
    EmbedMore(Pick(log, {Started}) + waiting, Pick(log, {Enqueued}), e.call);
    assert (Pick(log, {Started}) + waiting) + [e.call] == Pick(log + [e], {Started}) + (waiting + [e.call]);
  }

  // ---------------------------------------------------------------- one call moves: balance

  lemma SplitAt(calls: seq<Call>, i: nat)
    requires i < |calls|
    ensures multiset(calls) == multiset(WithoutAt(calls, i)) + multiset{calls[i]}
  {
    assert calls == calls[..i] + [calls[i]] + calls[i + 1..];
  }

  lemma BalancedDrop(arrived: seq<Call>, waiting: seq<Call>, flying: seq<Call>, log: seq<Event>, i: nat, e: Event)
    requires Balanced(arrived, waiting, flying, log) && i < |waiting| && e.call == waiting[i]
    requires Ends(e.kind) && !Ran(e.kind)
    ensures Balanced(arrived, WithoutAt(waiting, i), flying, log + [e])
  {
    SplitAt(waiting, i);
    PickAppends(log, e);
  }

  lemma BalancedStart(arrived: seq<Call>, waiting: seq<Call>, flying: seq<Call>, log: seq<Event>, e: Event)
    requires Balanced(arrived, waiting, flying, log) && |waiting| > 0 && e.call == waiting[0] && e.kind.Started?
    ensures Balanced(arrived, waiting[1..], flying + [e.call], log + [e])
  {
    HeadOut(waiting);
    PickAppends(log, e);
    StartMoves(multiset(arrived), multiset(waiting), multiset(waiting[1..]), multiset(flying),
               multiset(Pick(log, ENDS)), e.call);
  }

  lemma HeadOut(waiting: seq<Call>)
    requires |waiting| > 0
    ensures multiset(waiting) == multiset{waiting[0]} + multiset(waiting[1..])
  {
    assert waiting == [waiting[0]] + waiting[1..];
  }

  lemma StartMoves(arrived: multiset<Call>, waiting: multiset<Call>, rest: multiset<Call>, flying: multiset<Call>,
                   ended: multiset<Call>, head: Call)
    requires arrived == waiting + flying + ended && waiting == multiset{head} + rest
    ensures arrived == rest + (flying + multiset{head}) + ended
  {
  }

  lemma BalancedFinish(arrived: seq<Call>, waiting: seq<Call>, flying: seq<Call>, log: seq<Event>, i: nat, e: Event)
    requires Balanced(arrived, waiting, flying, log) && i < |flying| && e.call == flying[i] && Ran(e.kind)
    ensures Balanced(arrived, waiting, WithoutAt(flying, i), log + [e])
  {
    SplitAt(flying, i);
    PickAppends(log, e);
  }

  lemma BalancedEnqueue(arrived: seq<Call>, waiting: seq<Call>, flying: seq<Call>, log: seq<Event>, e: Event)
    requires Balanced(arrived, waiting, flying, log) && e.kind.Enqueued?
    ensures Balanced(arrived + [e.call], waiting + [e.call], flying, log + [e])
  {
    PickAppends(log, e);
  }

  lemma BalancedTurnaway(arrived: seq<Call>, waiting: seq<Call>, flying: seq<Call>, log: seq<Event>, e: Event)
    requires Balanced(arrived, waiting, flying, log) && Ends(e.kind) && !Ran(e.kind)
    ensures Balanced(arrived + [e.call], waiting, flying, log + [e])
  {
    PickAppends(log, e);
  }

  // ---------------------------------------------------------------- one call moves

  lemma DistinctDrop(waiting: seq<Call>, running: seq<Running>, i: nat)
    requires Distinct(waiting, running) && i < |waiting|
    ensures Distinct(WithoutAt(waiting, i), running)
  {
  }

  lemma DistinctStart(waiting: seq<Call>, running: seq<Running>, now: int)
    requires Distinct(waiting, running) && |waiting| > 0
    ensures SetRunning(running, Running(waiting[0], now)) == running + [Running(waiting[0], now)]
    ensures Distinct(waiting[1..], running + [Running(waiting[0], now)])
  {
    assert RunningIndex(running, waiting[0].id).None?;
  }

  lemma DistinctFinish(waiting: seq<Call>, running: seq<Running>, i: nat)
    requires Distinct(waiting, running) && i < |running|
    ensures Distinct(waiting, running[..i] + running[i + 1..])
  {
  }

  lemma DropOk(q: Queue, i: nat, kind: Kind, now: int)
    requires Core(q) && i < |q.waiting| && Ends(kind) && !Ran(kind)
    ensures Core(Drop(q, i, kind, now))
  {
    var r := Drop(q, i, kind, now);
    var e := EventOf(q.waiting[i], None, kind, now, |r.waiting|, |q.running|, q.settings.maxConcurrency);
    RecordTally(q.books, q.waiting[i], None, kind, now, |r.waiting|, |q.running|, q.settings.maxConcurrency);
    DistinctDrop(q.waiting, q.running, i);
    BalancedDrop(q.arrived, q.waiting, RunningCalls(q.running), q.books.log, i, e);
    OrderedDrop(q.books.log, q.waiting, i, e);
  }

  lemma StartOk(q: Queue, now: int)
    requires Core(q) && |q.waiting| > 0 && |q.running| < q.settings.maxConcurrency
    requires now - q.waiting[0].queuedAt < q.waiting[0].timeoutMs
    ensures Core(Start(q, now)) && |Start(q, now).running| == |q.running| + 1
  {
    var r := Start(q, now);
    var head := q.waiting[0];
    DistinctStart(q.waiting, q.running, now);
    assert RunningCalls(r.running) == RunningCalls(q.running) + [head];
    var e := EventOf(head, Some(now), Started, now, |r.waiting|, |r.running|, q.settings.maxConcurrency);
    RecordTally(q.books, head, Some(now), Started, now, |r.waiting|, |r.running|, q.settings.maxConcurrency);
    BalancedStart(q.arrived, q.waiting, RunningCalls(q.running), q.books.log, e);
    OrderedStart(q.books.log, q.waiting, e);
  }

  lemma FinishTally(q: Queue, i: nat, outcome: Kind, now: int)
    requires Tally(q.books) && i < |q.running|
    ensures Tally(Finish(q, i, outcome, now).books)
  {
    var r := Finish(q, i, outcome, now);
    RecordTally(q.books, q.running[i].call, Some(q.running[i].startedAt), outcome, now,
                |r.waiting|, |r.running|, q.settings.maxConcurrency);
  }

  lemma FinishOk(q: Queue, i: nat, outcome: Kind, now: int)
    requires Core(q) && i < |q.running| && Ran(outcome)
    ensures Core(Finish(q, i, outcome, now))
  {
    var r := Finish(q, i, outcome, now);
    var was := q.running[i];
    var e := EventOf(was.call, Some(was.startedAt), outcome, now, |r.waiting|, |r.running|, q.settings.maxConcurrency);
    assert r.books.log == q.books.log + [e];
    FinishTally(q, i, outcome, now);
    assert RunningCalls(r.running) == WithoutAt(RunningCalls(q.running), i);
    DistinctFinish(q.waiting, q.running, i);
    BalancedFinish(q.arrived, q.waiting, RunningCalls(q.running), q.books.log, i, e);
    OrderedIgnores(q.books.log, e, q.waiting);
  }

  /** No earlier arrival used this id. */
  ghost predicate Fresh(q: Queue, id: nat) {
    forall i :: 0 <= i < |q.arrived| ==> q.arrived[i].id != id
  }

  lemma FreshIsAbsent(q: Queue, id: nat)
    requires Balanced(q.arrived, q.waiting, RunningCalls(q.running), q.books.log) && Fresh(q, id)
    ensures forall i :: 0 <= i < |q.waiting| ==> q.waiting[i].id != id
    ensures forall i :: 0 <= i < |q.running| ==> q.running[i].call.id != id
  {
    forall i | 0 <= i < |q.waiting| ensures q.waiting[i].id != id {
      assert q.waiting[i] in multiset(q.arrived);
    }
    forall i | 0 <= i < |q.running| ensures q.running[i].call.id != id {
      assert RunningCalls(q.running)[i] in multiset(RunningCalls(q.running));
      assert q.running[i].call in multiset(q.arrived);
    }
  }

  /** The queue as `ArriveStep` hands it on: the request is counted, its arrival not yet recorded. */
  ghost predicate Arriving(q: Queue, call: Call) {
    && Distinct(q.waiting, q.running) && Tally(q.books)
    && Balanced(q.arrived, q.waiting, RunningCalls(q.running), q.books.log)
    && Ordered(q.books.log, q.waiting) && Punctual(q.books.log)
    && Requested(q.(arrived := q.arrived + [call]))
  }

  lemma EnqueueOk(q: Queue, call: Call, now: int)
    requires Arriving(q, call) && Fresh(q, call.id)
    ensures Core(Enqueue(q, call, now))
  {
    var r := Enqueue(q, call, now);
    var e := EventOf(call, None, Enqueued, now, |r.waiting|, |q.running|, q.settings.maxConcurrency);
    RecordTally(q.books, call, None, Enqueued, now, |r.waiting|, |q.running|, q.settings.maxConcurrency);
    FreshIsAbsent(q, call.id);
    BalancedEnqueue(q.arrived, q.waiting, RunningCalls(q.running), q.books.log, e);
    OrderedEnqueue(q.books.log, q.waiting, e);
  }

  lemma TurnawayOk(q: Queue, call: Call, kind: Kind, now: int)
    requires Arriving(q, call) && Ends(kind) && !Ran(kind)
    ensures Core(Turnaway(q, call, kind, now))
  {
    var e := EventOf(call, None, kind, now, |q.waiting|, |q.running|, q.settings.maxConcurrency);
    RecordTally(q.books, call, None, kind, now, |q.waiting|, |q.running|, q.settings.maxConcurrency);
    BalancedTurnaway(q.arrived, q.waiting, RunningCalls(q.running), q.books.log, e);
    OrderedIgnores(q.books.log, e, q.waiting);
  }

  // ---------------------------------------------------------------- dispatch

  ghost predicate SameBut(q: Queue, r: Queue) {
    r.settings == q.settings && r.stopped == q.stopped && r.arrived == q.arrived && r.requests == q.requests
  }

  lemma {:induction false} PumpOk(q: Queue, now: int)
    requires Core(q) && (|q.waiting| > 0 ==> q.ticker)
    ensures Core(Pump(q, now)) && SameBut(q, Pump(q, now))
    ensures !q.stopped ==> Stalled(Pump(q, now))
    decreases |q.waiting|
  {
    if q.stopped || |q.waiting| == 0 || |q.running| >= q.settings.maxConcurrency {
    } else if now - q.waiting[0].queuedAt >= q.waiting[0].timeoutMs {
      var dropped := Drop(q, 0, Expired, now);
      DropOk(q, 0, Expired, now);
      PumpOk(dropped, now);
      PumpOk(Pump(dropped, now), now);
    } else {
      var asked := AfterAsking(q);
      if !asked.gateShut {
        StartOk(asked, now);
        PumpOk(Start(asked, now), now);
      }
    }
  }

  lemma RemoveOk(q: Queue, id: nat, kind: Kind, now: int)
    requires Core(q) && Stalled(q) && Ends(kind) && !Ran(kind)
    ensures Core(RemoveById(q, id, kind, now)) && Stalled(RemoveById(q, id, kind, now))
    ensures SameBut(q, RemoveById(q, id, kind, now))
  {
    var i := IndexOf(q.waiting, id);
    if i.Some? {
      DropOk(q, i.value, kind, now);
      PumpOk(Drop(q, i.value, kind, now), now);
    }
  }

  lemma DropKeeps(q: Queue, i: nat, kind: Kind, now: int)
    requires i < |q.waiting|
    ensures SameBut(q, Drop(q, i, kind, now)) && Drop(q, i, kind, now).ticker == q.ticker
    ensures q.stopped ==> Remove(q, i, kind, now) == Drop(q, i, kind, now)
  {
  }

  lemma {:induction false} DrainOk(q: Queue, now: int)
    requires Core(q) && q.stopped && !q.ticker
    ensures Core(Drain(q, now)) && SameBut(q, Drain(q, now)) && Stalled(Drain(q, now))
    decreases |q.waiting|
  {
    if |q.waiting| > 0 {
      DropOk(q, 0, Shutdown, now);
      DropKeeps(q, 0, Shutdown, now);
      DrainOk(Drop(q, 0, Shutdown, now), now);
    }
  }

  /** Which memory answers are to come, and the switches of the queue, are no part of `Core`. */
  lemma CoreIgnores(q: Queue, r: Queue)
    requires Core(q) && r.waiting == q.waiting && r.running == q.running && r.arrived == q.arrived
    requires r.requests == q.requests && r.books == q.books
    ensures Core(r)
  {
  }

  lemma SettleOk(q: Queue, id: nat, outcome: Kind, now: int)
    requires Core(q) && Stalled(q)
    ensures Core(SettleStep(q, id, outcome, now)) && Stalled(SettleStep(q, id, outcome, now))
    ensures SameBut(q, SettleStep(q, id, outcome, now))
  {
    var i := RunningIndex(q.running, id);
    if i.Some? && Ran(outcome) {
      FinishOk(q, i.value, outcome, now);
      PumpOk(Finish(q, i.value, outcome, now), now);
    }
  }

  lemma ConfigureOk(q: Queue, next: Settings, expected: Settings, now: int)
    requires Core(q) && Stalled(q)
    ensures Core(ConfigureStep(q, next, expected, now)) && Stalled(ConfigureStep(q, next, expected, now))
    ensures ConfigureStep(q, next, expected, now).arrived == q.arrived
  {
    if ValidSettings(next) && expected == q.settings {
      CoreIgnores(q, q.(settings := next));
      PumpOk(q.(settings := next), now);
    }
  }

  lemma SampleOk(q: Queue, second: int)
    requires Core(q) && Stalled(q)
    ensures Core(q.(books := PruneBooks(q.books, second))) && Stalled(q.(books := PruneBooks(q.books, second)))
  {
    forall tool ensures TallyFor(PruneBooks(q.books, second), tool) { assert TallyFor(q.books, tool); }
  }

  ghost function Counted(q: Queue, tool: string): Queue {
    q.(requests := q.requests[tool := (if tool in q.requests then q.requests[tool] else 0) + 1])
  }

  lemma CountedArrives(q: Queue, call: Call)
    requires Core(q) && Stalled(q) && Fresh(q, call.id)
    ensures Arriving(Counted(q, call.tool), call)
  {
    var counted := Counted(q, call.tool);
    forall t ensures (if t in counted.requests then counted.requests[t] else 0) == CountTool(q.arrived + [call], t) {
      CountToolAppend(q.arrived, call, t);
    }
  }

  lemma TurnedAwayOk(q: Queue, call: Call, kind: Kind, now: int)
    requires Core(q) && Stalled(q) && Fresh(q, call.id) && Ends(kind) && !Ran(kind)
    ensures var r := Turnaway(Counted(q, call.tool), call, kind, now);
            Core(r) && Stalled(r) && r.arrived == q.arrived + [call]
  {
    CountedArrives(q, call);
    TurnawayOk(Counted(q, call.tool), call, kind, now);
  }

  lemma TakenInOk(q: Queue, call: Call, now: int)
    requires Core(q) && Stalled(q) && Fresh(q, call.id) && !q.stopped
    ensures var r := Pump(Enqueue(Counted(q, call.tool), call, now), now);
            Core(r) && Stalled(r) && r.arrived == q.arrived + [call]
  {
    CountedArrives(q, call);
    EnqueueOk(Counted(q, call.tool), call, now);
    PumpOk(Enqueue(Counted(q, call.tool), call, now), now);
  }

  /** An arrival is turned away, with the reason the step names, or taken in and dispatched. */
  lemma ArrivesOneWay(q: Queue, id: nat, tool: string, aborted: bool, now: int) returns (kind: Option<Kind>)
    ensures var r, call := ArriveStep(q, id, tool, aborted, now), Call(id, tool, now, q.settings.queueTimeoutMs);
            && (kind.Some? ==> Ends(kind.value) && !Ran(kind.value)
                               && r == Turnaway(Counted(q, tool), call, kind.value, now))
            && (kind.None? ==> !q.stopped && r == Pump(Enqueue(Counted(q, tool), call, now), now))
  {
    kind := if q.stopped then Some(Shutdown) else if aborted then Some(Cancelled)
            else if |q.waiting| >= q.settings.maxQueueSize then Some(Full) else None;
  }

  lemma ArriveOk(q: Queue, id: nat, tool: string, aborted: bool, now: int)
    requires Core(q) && Stalled(q) && Fresh(q, id)
    ensures var r := ArriveStep(q, id, tool, aborted, now);
            Core(r) && Stalled(r) && r.arrived == q.arrived + [Call(id, tool, now, q.settings.queueTimeoutMs)]
  {
    var call := Call(id, tool, now, q.settings.queueTimeoutMs);
    var kind := ArrivesOneWay(q, id, tool, aborted, now);
    if kind.Some? { TurnedAwayOk(q, call, kind.value, now); } else { TakenInOk(q, call, now); }
  }

  // ---------------------------------------------------------------- runs

  datatype Step = Step(op: Op, now: int, gate: seq<bool>)

  /** A call id is used once, and the clock does not run backwards. */
  ghost predicate Possible(q: Queue, clock: int, s: Step) {
    s.now >= clock && (s.op.Arrive? ==> Fresh(q, s.op.id))
  }

  ghost predicate Legal(q: Queue, clock: int, steps: seq<Step>)
    decreases |steps|
  {
    |steps| == 0 ||
    (Possible(q, clock, steps[0]) &&
     Legal(Apply(q, steps[0].op, steps[0].now, steps[0].gate), steps[0].now, steps[1..]))
  }

  ghost function Run(q: Queue, clock: int, steps: seq<Step>): Queue
    requires Legal(q, clock, steps)
    decreases |steps|
  {
    if |steps| == 0 then q
    else Run(Apply(q, steps[0].op, steps[0].now, steps[0].gate), steps[0].now, steps[1..])
  }

  /** A new queue, opened at time `at` on empty tables. */
  function Opened(settings: Settings, at: int): Queue {
    Queue(settings, [], [], false, false, [], map[], Books([], map[], 0, 0, 0, map[], Some(at / 1000)), [], false)
  }

  ghost predicate DistinctIds(calls: seq<Call>) {
    forall i, k :: 0 <= i < k < |calls| ==> calls[i].id != calls[k].id
  }

  /** What holds of the queue between steps. */
  ghost predicate Sound(q: Queue) {
    Core(q) && Stalled(q) && DistinctIds(q.arrived)
  }

  lemma FreshStaysDistinct(q: Queue, call: Call)
    requires DistinctIds(q.arrived) && Fresh(q, call.id)
    ensures DistinctIds(q.arrived + [call])
  {
  }

  lemma CallStepOk(q: Queue, op: Op, now: int)
    requires Sound(q) && (op.Arrive? || op.Abort? || op.TimerFires? || op.Settle?)
    requires op.Arrive? ==> Fresh(q, op.id)
    ensures Sound(Apply(q, op, now, q.gate))
  {
    assert q.(gate := q.gate) == q;
    match op
    case Arrive(id, tool, aborted) =>
      ArriveOk(q, id, tool, aborted, now);
      FreshStaysDistinct(q, Call(id, tool, now, q.settings.queueTimeoutMs));
    case Abort(id) => RemoveOk(q, id, Cancelled, now);
    case TimerFires(id) => RemoveOk(q, id, Expired, now);
    case Settle(id, outcome) => SettleOk(q, id, outcome, now);
  }

  lemma QueueStepOk(q: Queue, op: Op, now: int)
    requires Sound(q) && (op.Tick? || op.Sample? || op.Configure? || op.Close?)
    ensures Sound(Apply(q, op, now, q.gate))
  {
    match op
    case Tick => PumpOk(q, now);
    case Sample => SampleOk(q, now / 1000);
    case Configure(next, expected) => ConfigureOk(q, next, expected, now);
    case Close =>
      CoreIgnores(q, q.(stopped := true, ticker := false));
      DrainOk(q.(stopped := true, ticker := false), now);
  }

  lemma StepOk(q: Queue, clock: int, s: Step)
    requires Sound(q) && Possible(q, clock, s)
    ensures Sound(Apply(q, s.op, s.now, s.gate))
  {
    var g := q.(gate := s.gate);
    CoreIgnores(q, g);
    assert Apply(g, s.op, s.now, g.gate) == Apply(q, s.op, s.now, s.gate);
    if s.op.Tick? || s.op.Sample? || s.op.Configure? || s.op.Close? {
      QueueStepOk(g, s.op, s.now);
    } else {
      CallStepOk(g, s.op, s.now);
    }
  }

  lemma {:induction false} RunOk(q: Queue, clock: int, steps: seq<Step>)
    requires Sound(q) && Legal(q, clock, steps)
    ensures Sound(Run(q, clock, steps))
    decreases |steps|
  {
    if |steps| > 0 {
      StepOk(q, clock, steps[0]);
      RunOk(Apply(q, steps[0].op, steps[0].now, steps[0].gate), steps[0].now, steps[1..]);
    }
  }

  // ---------------------------------------------------------------- the promises, over every run

  lemma {:induction false} CountToolConcat(a: seq<Call>, b: seq<Call>, tool: string)
    ensures CountTool(a + b, tool) == CountTool(a, tool) + CountTool(b, tool)
  {
    if |b| == 0 {
      assert a + b == a;
    } else {
      assert (a + b)[..|a + b| - 1] == a + b[..|b| - 1];
      CountToolConcat(a, b[..|b| - 1], tool);
    }
  }

  lemma CountToolAt(calls: seq<Call>, i: nat, tool: string)
    requires i < |calls|
    ensures CountTool(calls, tool) == CountTool(WithoutAt(calls, i), tool) + if calls[i].tool == tool then 1 else 0
  {
    assert calls == (calls[..i] + [calls[i]]) + calls[i + 1..];
    CountToolConcat(calls[..i] + [calls[i]], calls[i + 1..], tool);
    CountToolAppend(calls[..i], calls[i], tool);
    CountToolConcat(calls[..i], calls[i + 1..], tool);
  }

  /** Counting by tool depends on the calls, not on their order. */
  lemma {:induction false} CountToolPermutes(a: seq<Call>, b: seq<Call>, tool: string)
    requires multiset(a) == multiset(b)
    ensures CountTool(a, tool) == CountTool(b, tool)
    decreases |a|
  {
    if |a| == 0 {
      assert |multiset(b)| == 0;
    } else {
      assert a[0] in multiset(b);
      var i :| 0 <= i < |b| && b[i] == a[0];
      SplitAt(a, 0);
      SplitAt(b, i);
      assert multiset(WithoutAt(a, 0)) == multiset(a) - multiset{a[0]};
      assert multiset(WithoutAt(b, i)) == multiset(b) - multiset{a[0]};
      CountToolPermutes(WithoutAt(a, 0), WithoutAt(b, i), tool);
      CountToolAt(a, 0, tool);
      CountToolAt(b, i, tool);
    }
  }

  /** For each tool, every request is finished, waiting or running. */
  lemma Conservation(settings: Settings, at: int, steps: seq<Step>, tool: string)
    requires Legal(Opened(settings, at), at, steps)
    ensures var q := Run(Opened(settings, at), at, steps);
            (if tool in q.requests then q.requests[tool] else 0)
            == TotalsOf(q.books.timings, tool).finished + CountTool(q.waiting, tool)
              + CountTool(RunningCalls(q.running), tool)
  {
    var q := Run(Opened(settings, at), at, steps);
    OpenedSound(settings, at);
    RunOk(Opened(settings, at), at, steps);
    var flying, settled := RunningCalls(q.running), Pick(q.books.log, ENDS);
    assert multiset(q.waiting + flying + settled) == multiset(q.arrived);
    CountToolPermutes(q.waiting + flying + settled, q.arrived, tool);
    CountToolConcat(q.waiting + flying, settled, tool);
    CountToolConcat(q.waiting, flying, tool);
    assert TallyFor(q.books, tool);
  }

  lemma OpenedSound(settings: Settings, at: int)
    ensures Sound(Opened(settings, at))
  {
    var q := Opened(settings, at);
    assert EmbedsAt(Pick([], {Started}) + q.waiting, Pick([], {Enqueued}), []);
    forall tool ensures TallyFor(q.books, tool) {}
  }

  /** Every call ever made is in exactly one place, once: waiting, in flight, or settled. */
  lemma SettlesOnce(settings: Settings, at: int, steps: seq<Step>, i: nat)
    requires Legal(Opened(settings, at), at, steps)
    requires i < |Run(Opened(settings, at), at, steps).arrived|
    ensures var q := Run(Opened(settings, at), at, steps);
            var c := q.arrived[i];
            multiset(q.waiting)[c] + multiset(RunningCalls(q.running))[c] + multiset(Pick(q.books.log, ENDS))[c] == 1
  {
    OpenedSound(settings, at);
    RunOk(Opened(settings, at), at, steps);
    OncePerId(Run(Opened(settings, at), at, steps).arrived, i);
  }

  lemma OncePerId(calls: seq<Call>, i: nat)
    requires DistinctIds(calls) && i < |calls|
    ensures multiset(calls)[calls[i]] == 1
  {
    SplitAt(calls, i);
    assert calls[i] !in WithoutAt(calls, i);
  }

  /** Starts happen in order of arrival, before the deadline fixed on arrival, and within the cap in force. */
  lemma StartsInOrder(settings: Settings, at: int, steps: seq<Step>)
    requires Legal(Opened(settings, at), at, steps)
    ensures var log := Run(Opened(settings, at), at, steps).books.log;
            Embeds(Pick(log, {Started}), Pick(log, {Enqueued})) && Punctual(log)
  {
    var q := Run(Opened(settings, at), at, steps);
    OpenedSound(settings, at);
    RunOk(Opened(settings, at), at, steps);
    PrefixEmbeds(Pick(q.books.log, {Started}), q.waiting, Pick(q.books.log, {Enqueued}));
  }

  lemma PrefixEmbeds(a: seq<Call>, rest: seq<Call>, b: seq<Call>)
    requires Embeds(a + rest, b)
    ensures Embeds(a, b)
  {
    var where: seq<nat> :| EmbedsAt(a + rest, b, where);
    forall k | 0 <= k < |a| ensures a[k] == (a + rest)[k] {}
    assert EmbedsAt(a, b, where[..|a|]);
  }

  /** Between steps the queue is never idle without a reason. */
  lemma NoIdleCapacity(settings: Settings, at: int, steps: seq<Step>)
    requires Legal(Opened(settings, at), at, steps)
    ensures Stalled(Run(Opened(settings, at), at, steps))
  {
    OpenedSound(settings, at);
    RunOk(Opened(settings, at), at, steps);
  }

  const DROPPED: set<Kind> := {Full, Expired, Cancelled, Shutdown}

  lemma {:induction false} EndsSplit(log: seq<Event>)
    ensures multiset(Pick(log, ENDS)) == multiset(Pick(log, RAN)) + multiset(Pick(log, DROPPED))
  {
    if |log| > 0 { EndsSplit(log[..|log| - 1]); }
  }

  lemma DroppedNotStarted(arrived: seq<Call>, waiting: seq<Call>, flying: seq<Call>, log: seq<Event>, i: nat)
    requires Balanced(arrived, waiting, flying, log) && DistinctIds(arrived) && i < |arrived|
    requires arrived[i] in multiset(Pick(log, DROPPED))
    ensures arrived[i] !in multiset(Pick(log, {Started}))
  {
    EndsSplit(log);
    OncePerId(arrived, i);
  }

  /** A call refused as full, expired, cancelled or shut down is never executed. */
  lemma DroppedNeverStarts(settings: Settings, at: int, steps: seq<Step>, c: Call)
    requires Legal(Opened(settings, at), at, steps)
    requires c in Pick(Run(Opened(settings, at), at, steps).books.log, DROPPED)
    ensures c !in Pick(Run(Opened(settings, at), at, steps).books.log, {Started})
  {
    var q := Run(Opened(settings, at), at, steps);
    OpenedSound(settings, at);
    RunOk(Opened(settings, at), at, steps);
    ArrivedIfEnded(q, c);
    var i :| 0 <= i < |q.arrived| && q.arrived[i] == c;
    DroppedNotStarted(q.arrived, q.waiting, RunningCalls(q.running), q.books.log, i);
  }

  lemma ArrivedIfEnded(q: Queue, c: Call)
    requires Core(q) && c in Pick(q.books.log, DROPPED)
    ensures c in q.arrived && c in multiset(Pick(q.books.log, DROPPED))
  {
    EndsSplit(q.books.log);
    assert c in multiset(q.arrived);
  }

  // ---------------------------------------------------------------- totals over all tools

  ghost function Finished(timings: map<string, Totals>): nat
    decreases |timings|
  {
    if |timings| == 0 then 0
    else
      var tool :| tool in timings;
      timings[tool].finished + Finished(timings - {tool})
  }

  ghost function OtherTools(calls: seq<Call>, tool: string): seq<Call> {
    if |calls| == 0 then []
    else
      var rest := OtherTools(calls[..|calls| - 1], tool);
      if calls[|calls| - 1].tool == tool then rest else rest + [calls[|calls| - 1]]
  }

  lemma {:induction false} OtherToolsCount(calls: seq<Call>, tool: string, other: string)
    ensures CountTool(OtherTools(calls, tool), other) == if other == tool then 0 else CountTool(calls, other)
    ensures |OtherTools(calls, tool)| + CountTool(calls, tool) == |calls|
  {
    if |calls| > 0 {
      var front := calls[..|calls| - 1];
      OtherToolsCount(front, tool, other);
      CountToolAppend(OtherTools(front, tool), calls[|calls| - 1], other);
    }
  }

  lemma LastIsCounted(calls: seq<Call>)
    ensures |calls| > 0 ==> CountTool(calls, calls[|calls| - 1].tool) > 0
  {
  }

  lemma {:induction false} FinishedIsTotal(timings: map<string, Totals>, calls: seq<Call>)
    requires forall tool :: TotalsOf(timings, tool).finished == CountTool(calls, tool)
    ensures Finished(timings) == |calls|
    decreases |timings|
  {
    if |timings| == 0 {
      LastIsCounted(calls);
    } else {
      var tool :| tool in timings && Finished(timings) == timings[tool].finished + Finished(timings - {tool});
      var others := OtherTools(calls, tool);
      forall t ensures TotalsOf(timings - {tool}, t).finished == CountTool(others, t) {
        OtherToolsCount(calls, tool, t);
        assert TotalsOf(timings, t).finished == CountTool(calls, t);
      }
      OtherToolsCount(calls, tool, tool);
      assert TotalsOf(timings, tool).finished == CountTool(calls, tool);
      FinishedIsTotal(timings - {tool}, others);
    }
  }

  lemma {:induction false} EndsByKind(log: seq<Event>)
    ensures |Pick(log, ENDS)| == |Pick(log, EXECUTED)| + |Pick(log, {NotExecuted})| + |Pick(log, {Cancelled})|
                                 + |Pick(log, {Expired})| + |Pick(log, {Full})| + |Pick(log, {Shutdown})|
  {
    if |log| > 0 { EndsByKind(log[..|log| - 1]); }
  }

  /** Over all tools, the finished total is the sum of every way a call can end. */
  lemma FinishedAddsUp(settings: Settings, at: int, steps: seq<Step>)
    requires Legal(Opened(settings, at), at, steps)
    ensures var b := Run(Opened(settings, at), at, steps).books;
            Finished(b.timings)
            == |Pick(b.log, EXECUTED)| + |Pick(b.log, {NotExecuted})| + |Pick(b.log, {Cancelled})|
               + b.timeouts + b.rejections + b.shutdowns
  {
    var b := Run(Opened(settings, at), at, steps).books;
    OpenedSound(settings, at);
    RunOk(Opened(settings, at), at, steps);
    forall tool ensures TotalsOf(b.timings, tool).finished == CountTool(Pick(b.log, ENDS), tool) {
      assert TallyFor(b, tool);
    }
    FinishedIsTotal(b.timings, Pick(b.log, ENDS));
    EndsByKind(b.log);
  }
}
