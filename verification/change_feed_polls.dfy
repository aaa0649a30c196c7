/** Every poll is answered once, and as soon as there is something to tell. */
module ChangeFeedPolls {
  import opened Wrappers
  import opened DocumentStore
  import opened ChangeFeed
  import opened ChangeFeedProofs

  ghost function Run(storeVersion: nat, ops: seq<PollOp>): Polls {
    if |ops| == 0 then Polls(Feed(storeVersion, []), [], [], [])
    else PollStep(Run(storeVersion, ops[..|ops| - 1]), ops[|ops| - 1])
  }

  // ---------------------------------------------------------------- each poll once

  function Asked(ops: seq<PollOp>): seq<nat> {
    if |ops| == 0 then []
    else
      var last := ops[|ops| - 1];
      Asked(ops[..|ops| - 1]) + if last.Ask? then [last.request] else []
  }

  function Waiting(waiting: seq<Waiter>): seq<nat> {
    seq(|waiting|, i requires 0 <= i < |waiting| => waiting[i].request)
  }

  function Answered(answered: seq<Answer>): seq<nat> {
    seq(|answered|, i requires 0 <= i < |answered| => answered[i].request)
  }

  /** Every poll that was asked is in one place. */
  ghost function Placed(p: Polls): multiset<nat> {
    multiset(Answered(p.answered)) + multiset(Waiting(p.waiting)) + multiset(p.hungUp)
  }

  lemma AnsweredConcat(a: seq<Answer>, f: Feed, waiting: seq<Waiter>)
    ensures Answered(a + AnswersTo(f, waiting)) == Answered(a) + Waiting(waiting)
  {
  }

  lemma AskPlaces(p: Polls, request: nat, since: Option<nat>)
    ensures Placed(PollStep(p, Ask(request, since))) == Placed(p) + multiset{request}
  {
    var answer := Answer(request, Snapshot(p.feed, since));
    assert Waiting(p.waiting + [Waiter(request, since)]) == Waiting(p.waiting) + [request];
    assert Answered(p.answered + [answer]) == Answered(p.answered) + [request];
  }

  lemma AnswersPlace(a: seq<Answer>, f: Feed, now: seq<Waiter>, later: seq<Waiter>)
    ensures multiset(Answered(a + AnswersTo(f, now))) + multiset(Waiting(later))
            == multiset(Answered(a)) + multiset(Waiting(now + later))
  {
    AnsweredConcat(a, f, now);
    assert Waiting(now + later) == Waiting(now) + Waiting(later);
  }

  lemma HangUpPlaces(p: Polls, place: nat)
    ensures Placed(PollStep(p, HangUp(place))) == Placed(p)
  {
    var w := p.waiting;
    if place < |w| {
      assert Waiting(w) == Waiting(w[..place]) + [w[place].request] + Waiting(w[place + 1..]);
      assert Waiting(w[..place] + w[place + 1..]) == Waiting(w[..place]) + Waiting(w[place + 1..]);
    }
  }

  lemma StepPlaces(p: Polls, op: PollOp)
    ensures Placed(PollStep(p, op)) == Placed(p) + if op.Ask? then multiset{op.request} else multiset{}
  {
    var w := p.waiting;
    assert w + [] == w;
    match op {
      case Ask(request, since) => AskPlaces(p, request, since);
      case Hear(changes) => if |changes| > 0 { AnswersPlace(p.answered, Heard(p.feed, changes), w, []); }
      case Expire =>
        if |w| > 0 {
          AnswersPlace(p.answered, p.feed, w[..1], w[1..]);
          assert w[..1] + w[1..] == w;
        }
      case HangUp(place) => HangUpPlaces(p, place);
      case Shut => AnswersPlace(p.answered, p.feed, w, []);
    }
  }

  /** After any run every poll was answered once, waits, or its client hung up; none is lost or answered twice. */
  lemma {:induction false} PollsAnsweredOnce(storeVersion: nat, ops: seq<PollOp>)
    ensures Placed(Run(storeVersion, ops)) == multiset(Asked(ops))
  {
    if |ops| > 0 {
      var n := |ops| - 1;
      PollsAnsweredOnce(storeVersion, ops[..n]);
      StepPlaces(Run(storeVersion, ops[..n]), ops[n]);
    }
  }

  // ---------------------------------------------------------------- answered when there is something to tell

  /** What the store announced so far. */
  ghost function Announced(ops: seq<PollOp>): seq<Change> {
    if |ops| == 0 then []
    else
      var last := ops[|ops| - 1];
      Announced(ops[..|ops| - 1]) + if last.Hear? then last.changes else []
  }

  /** The store announces its commits, each at the next version. */
  ghost predicate InOrder(storeVersion: nat, ops: seq<PollOp>) {
    Consecutive(storeVersion, Announced(ops), storeVersion + |Announced(ops)|)
  }

  /** Polls wait at the feed's version only, so there is nothing to tell them. */
  ghost predicate UpToDate(p: Polls) {
    forall i :: 0 <= i < |p.waiting| ==> p.waiting[i].since == Some(p.feed.version)
  }

  lemma SplitConsecutive(base: nat, before: seq<Change>, changes: seq<Change>)
    requires Consecutive(base, before + changes, base + |before + changes|)
    ensures Consecutive(base, before, base + |before|)
    ensures Consecutive(base + |before|, changes, base + |before| + |changes|)
  {
    var log := before + changes;
    forall i | 0 <= i < |before| ensures before[i].version == base + 1 + i { assert log[i] == before[i]; }
    forall i | 0 <= i < |changes| ensures changes[i].version == base + |before| + 1 + i {
      assert log[|before| + i] == changes[i];
    }
  }

  lemma HearFollows(base: nat, before: seq<Change>, p: Polls, changes: seq<Change>)
    requires FeedOk(base, before, p.feed) && UpToDate(p)
    requires Consecutive(base + |before|, changes, base + |before| + |changes|)
    ensures var t := PollStep(p, Hear(changes)); FeedOk(base, before + changes, t.feed) && UpToDate(t)
  {
    if |changes| > 0 { HeardOk(base, before, p.feed, changes); } else { assert before + changes == before; }
  }

  lemma OthersFollow(p: Polls, op: PollOp)
    requires UpToDate(p) && !op.Hear?
    ensures UpToDate(PollStep(p, op)) && PollStep(p, op).feed == p.feed
  {
  }

  lemma {:induction false} FollowsStore(storeVersion: nat, ops: seq<PollOp>)
    requires InOrder(storeVersion, ops)
    ensures UpToDate(Run(storeVersion, ops)) && FeedOk(storeVersion, Announced(ops), Run(storeVersion, ops).feed)
  {
    if |ops| > 0 {
      var n := |ops| - 1;
      var before, changes := Announced(ops[..n]), if ops[n].Hear? then ops[n].changes else [];
      assert Announced(ops) == before + changes;
      SplitConsecutive(storeVersion, before, changes);
      FollowsStore(storeVersion, ops[..n]);
      var p := Run(storeVersion, ops[..n]);
      if ops[n].Hear? { HearFollows(storeVersion, before, p, changes); } else { OthersFollow(p, ops[n]); }
    }
  }

  /** The reply carries a change or asks for a reload. */
  predicate Tells(r: Reply) { r.reset || |r.changes| > 0 }

  /**
    A poll is answered at once exactly if it is behind, and then is told something; so is every open poll when
    documents change.  A poll that times out is told that nothing changed.
  */
  lemma AnsweredWithNews(storeVersion: nat, ops: seq<PollOp>, op: PollOp, i: nat)
    requires InOrder(storeVersion, ops + [op]) && InOrder(storeVersion, ops)
    requires var p := Run(storeVersion, ops); |p.answered| <= i < |PollStep(p, op).answered|
    ensures var p, t := Run(storeVersion, ops), PollStep(Run(storeVersion, ops), op);
      && t.answered[i].reply.version == t.feed.version
      && (op.Ask? ==> op.since != Some(p.feed.version) && t.answered[i].request == op.request)
      && (op.Ask? || op.Hear? <==> Tells(t.answered[i].reply))
  {
    var p := Run(storeVersion, ops);
    FollowsStore(storeVersion, ops);
    if op.Ask? {
      AskTold(storeVersion, Announced(ops), p, op.request, op.since);
    } else {
      assert (ops + [op])[..|ops|] == ops;
      FollowsStore(storeVersion, ops + [op]);
      OpenTold(storeVersion, Announced(ops + [op]), p, op, i);
    }
  }

  lemma AskTold(base: nat, log: seq<Change>, p: Polls, request: nat, since: Option<nat>)
    requires FeedOk(base, log, p.feed)
    ensures var t := PollStep(p, Ask(request, since));
      |t.answered| > |p.answered| ==>
        && since != Some(p.feed.version) && |t.answered| == |p.answered| + 1 && t.feed == p.feed
        && t.answered[|p.answered|].request == request
        && t.answered[|p.answered|].reply.version == t.feed.version && Tells(t.answered[|p.answered|].reply)
  {
    SnapshotHidesNothing(base, log, p.feed, since);
  }

  lemma OpenTold(base: nat, log: seq<Change>, p: Polls, op: PollOp, i: nat)
    requires !op.Ask? && UpToDate(p) && |p.answered| <= i < |PollStep(p, op).answered|
    requires FeedOk(base, log, PollStep(p, op).feed)
    requires PollStep(p, op).feed.version >= p.feed.version
    requires op.Hear? ==> PollStep(p, op).feed.version > p.feed.version
    ensures var t := PollStep(p, op);
      t.answered[i].reply.version == t.feed.version && (op.Hear? <==> Tells(t.answered[i].reply))
  {
    var t := PollStep(p, op);
    var w := p.waiting[i - |p.answered|];
    assert t.answered[i] == Answer(w.request, Snapshot(t.feed, w.since));
    ToldIffBehind(base, log, t.feed, w.since.value);
  }

  lemma ToldIffBehind(base: nat, log: seq<Change>, f: Feed, since: nat)
    requires FeedOk(base, log, f) && since <= f.version
    ensures Snapshot(f, Some(since)).version == f.version
    ensures Tells(Snapshot(f, Some(since))) <==> since < f.version
  {
    SnapshotHidesNothing(base, log, f, Some(since));
  }

  // ---------------------------------------------------------------- what the client hands on

  /** The first reply, a reset, or a version other than the reply before named. */
  predicate IsNews(known: Option<nat>, replies: seq<Reply>, i: nat)
    requires i < |replies|
  {
    || replies[i].reset
    || (if i == 0 then known != Some(replies[0].version) else replies[i].version != replies[i - 1].version)
  }

  /** The places of the replies handed on, in order. */
  ghost predicate Picks(known: Option<nat>, replies: seq<Reply>, delivered: seq<Reply>, at: seq<nat>) {
    && |at| == |delivered| && (forall i, k :: 0 <= i < k < |at| ==> at[i] < at[k])
    && (forall i :: 0 <= i < |at| ==> at[i] < |replies| && delivered[i] == replies[at[i]])
    && forall i: nat :: i < |replies| ==> (i in at <==> IsNews(known, replies, i))
  }

  lemma NewsLater(known: Option<nat>, replies: seq<Reply>, i: nat)
    requires 0 < i < |replies|
    ensures IsNews(Some(replies[0].version), replies[1..], i - 1) <==> IsNews(known, replies, i)
  {
  }

  function Moved(at: seq<nat>): seq<nat> { seq(|at|, i requires 0 <= i < |at| => at[i] + 1) }

  lemma MovedHolds(at: seq<nat>, i: nat)
    ensures i in Moved(at) <==> i > 0 && i - 1 in at
  {
    if i > 0 && i - 1 in at {
      var k: nat :| k < |at| && at[k] == i - 1;
      assert Moved(at)[k] == i;
    }
  }

  lemma PicksMoved(known: Option<nat>, replies: seq<Reply>, rest: seq<nat>, at: seq<nat>)
    requires |replies| > 0
    requires Picks(Some(replies[0].version), replies[1..], Delivered(Some(replies[0].version), replies[1..]), rest)
    requires at == (if IsNews(known, replies, 0) then [0] else []) + Moved(rest)
    ensures Picks(known, replies, Delivered(known, replies), at)
  {
    forall i: nat | i < |replies| ensures i in at <==> IsNews(known, replies, i) {
      MovedHolds(rest, i);
      if i > 0 { NewsLater(known, replies, i); }
    }
  }

  /** The client hands on exactly the news, in the order of the replies. */
  lemma {:induction false} HandsOnTheNews(known: Option<nat>, replies: seq<Reply>) returns (at: seq<nat>)
    ensures Picks(known, replies, Delivered(known, replies), at)
    decreases |replies|
  {
    if |replies| == 0 {
      at := [];
    } else {
      var rest := HandsOnTheNews(Some(replies[0].version), replies[1..]);
      at := (if IsNews(known, replies, 0) then [0] else []) + Moved(rest);
      PicksMoved(known, replies, rest, at);
    }
  }
}
