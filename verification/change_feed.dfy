/**
  The document change feed (control-plane/src/documentChangeFeed.ts): the last 256 changes are kept for
  replay, and a client that may have missed more is told to reload.
*/
module ChangeFeed {
  import opened Wrappers
  import opened DocumentStore

  const HISTORY_LIMIT := 256

  datatype Feed = Feed(version: nat, history: seq<Change>)

  datatype Reply = Reply(version: nat, reset: bool, changes: seq<Change>)

  function Newest(history: seq<Change>): seq<Change> {
    if |history| > HISTORY_LIMIT then history[|history| - HISTORY_LIMIT..] else history
  }

  /** The listener; the store calls it with at least one change. */
  function Heard(f: Feed, changes: seq<Change>): Feed
    requires |changes| > 0
  {
    Feed(changes[|changes| - 1].version, Newest(f.history + changes))
  }

  function After(history: seq<Change>, since: nat): seq<Change> {
    if |history| == 0 then []
    else
      var earlier := After(history[..|history| - 1], since);
      if history[|history| - 1].version > since then earlier + [history[|history| - 1]] else earlier
  }

  function Snapshot(f: Feed, since: Option<nat>): Reply {
    var first := if |f.history| > 0 then f.history[0].version else f.version + 1;
    var reset := since.None? || since.value > f.version || (since.value < f.version && since.value < first - 1);
    Reply(f.version, reset, if reset then [] else After(f.history, since.value))
  }

  datatype Waiter = Waiter(request: nat, since: Option<nat>)

  datatype Answer = Answer(request: nat, reply: Reply)

  function AnswersTo(f: Feed, waiting: seq<Waiter>): seq<Answer> {
    seq(|waiting|, i requires 0 <= i < |waiting| => Answer(waiting[i].request, Snapshot(f, waiting[i].since)))
  }

  /** The feed with its polls: those it holds open, those it answered, and those whose client hung up. */
  datatype Polls = Polls(feed: Feed, waiting: seq<Waiter>, answered: seq<Answer>, hungUp: seq<nat>)

  datatype PollOp =
    | Ask(request: nat, since: Option<nat>)
    | Hear(changes: seq<Change>)
    | Expire
    | HangUp(place: nat)
    | Shut

  function PollStep(p: Polls, op: PollOp): Polls {
    match op
    case Ask(request, since) =>
      if since != Some(p.feed.version) then p.(answered := p.answered + [Answer(request, Snapshot(p.feed, since))])
      else p.(waiting := p.waiting + [Waiter(request, since)])
    case Hear(changes) =>
      if |changes| == 0 then p
      else
        var f := Heard(p.feed, changes);
        p.(feed := f, waiting := [], answered := p.answered + AnswersTo(f, p.waiting))
    case Expire =>
      if |p.waiting| == 0 then p
      else p.(waiting := p.waiting[1..], answered := p.answered + AnswersTo(p.feed, p.waiting[..1]))
    case HangUp(i) =>
      if i >= |p.waiting| then p
      else p.(waiting := p.waiting[..i] + p.waiting[i + 1..], hungUp := p.hungUp + [p.waiting[i].request])
    case Shut => p.(waiting := [], answered := p.answered + AnswersTo(p.feed, p.waiting))
  }

  /** The feed as it runs, with the polls it holds open until something changes. */
  class LiveFeed {
    var version: nat
    var history: seq<Change>
    var waiting: seq<Waiter>
    var answered: seq<Answer>
    ghost var hungUp: seq<nat>

    ghost function View(): Polls
      reads this
    {
      Polls(Feed(version, history), waiting, answered, hungUp)
    }

    constructor (storeVersion: nat)
      ensures View() == Polls(Feed(storeVersion, []), [], [], [])
    {
      version, history, waiting, answered, hungUp := storeVersion, [], [], [], [];
    }

    method Respond(w: Waiter)
      modifies this`answered
      ensures answered == old(answered) + [Answer(w.request, Snapshot(View().feed, w.since))]
    {
      answered := answered + [Answer(w.request, Snapshot(Feed(version, history), w.since))];
    }

    /** Answers every open poll as things stand. */
    method RespondToAll()
      modifies this`waiting, this`answered
      ensures waiting == [] && answered == old(answered) + AnswersTo(View().feed, old(waiting))
    {
      var held := waiting;
      waiting := [];
      for i := 0 to |held|
        invariant waiting == [] && answered == old(answered) + AnswersTo(View().feed, held)[..i]
      {
        Respond(held[i]);
      }
    }

    method OnDocumentsChanged(changes: seq<Change>)
      requires |changes| > 0
      modifies this
      ensures View() == PollStep(old(View()), Hear(changes))
    {
      history := history + changes;
      if |history| > HISTORY_LIMIT { history := history[|history| - HISTORY_LIMIT..]; }
      version := changes[|changes| - 1].version;
      RespondToAll();
    }

    method Handle(request: nat, since: Option<nat>)
      modifies this`waiting, this`answered
      ensures View() == PollStep(old(View()), Ask(request, since))
    {
      if since != Some(version) {
        Respond(Waiter(request, since));
      } else {
        waiting := waiting + [Waiter(request, since)];
      }
    }

    /** The poll timeout, the same for every poll: the oldest open one is answered as things stand. */
    method TimeOut()
      modifies this`waiting, this`answered
      ensures View() == PollStep(old(View()), Expire)
    {
      if |waiting| == 0 { return; }
      var w := waiting[0];
      waiting := waiting[1..];
      Respond(w);
    }

    /** The client went away. */
    method Forget(place: nat)
      modifies this`waiting, this`hungUp
      ensures View() == PollStep(old(View()), HangUp(place))
    {
      if place >= |waiting| { return; }
      hungUp := hungUp + [waiting[place].request];
      waiting := waiting[..place] + waiting[place + 1..];
    }

    method Close()
      modifies this`waiting, this`answered
      ensures View() == PollStep(old(View()), Shut)
    {
      RespondToAll();
    }
  }

  /** The client's loop over replies: `onChange` runs for a reset or a version it has not seen. */
  function Delivered(known: Option<nat>, replies: seq<Reply>): seq<Reply>
    decreases |replies|
  {
    if |replies| == 0 then []
    else
      var rest := Delivered(Some(replies[0].version), replies[1..]);
      if replies[0].reset || Some(replies[0].version) != known then [replies[0]] + rest else rest
  }

  method WatchDocumentChanges(replies: seq<Reply>) returns (delivered: seq<Reply>)
    ensures delivered == Delivered(None, replies)
  {
    delivered := [];
    var known: Option<nat> := None;
    for i := 0 to |replies|
      invariant delivered + Delivered(known, replies[i..]) == Delivered(None, replies)
    {
      var reply := replies[i];
      assert replies[i..][1..] == replies[i + 1..];
      if reply.reset || Some(reply.version) != known { delivered := delivered + [reply]; }
      known := Some(reply.version);
    }
  }
}
