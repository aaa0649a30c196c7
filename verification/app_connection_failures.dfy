/** A failed attempt is shown exactly if nothing took its place while it failed. */
module AppConnectionFailures {
  import opened Wrappers
  import opened AppConnections
  import opened AppConnectionProofs
  import opened AppConnectionOutcomes

  /** The operation ends whatever the app has or is about to have. */
  ghost predicate Ends(s: State, op: Op, app: string) {
    match op
    case Connect(other, endpoint) => other == app && !Reaches(s, app, endpoint)
    case Disconnect(gone) => gone == app
    case DisconnectAll => app in s.connections || app in s.inFlight
    case _ => false
  }

  /** What an attempt was made for. */
  predicate SameOrigin(a: Attempt, b: Attempt) {
    b.app == a.app && b.token == a.token && b.endpoint == a.endpoint && b.epoch == a.epoch
  }

  ghost predicate OriginsKept(s: State, t: State) {
    |s.attempts| <= |t.attempts| && forall c :: 0 <= c < |s.attempts| ==> SameOrigin(s.attempts[c], t.attempts[c])
  }

  ghost predicate Moves(s: State, t: State, app: string, ends: bool) {
    OriginsKept(s, t) && Generation(t, app) == Generation(s, app) + if ends then 1 else 0
  }

  lemma DropMoves(s: State, gone: string, app: string)
    requires Core(s)
    ensures Moves(s, Drop(s, gone), app, gone == app)
  {
    DropCloses(s, gone);
    forall c | 0 <= c < |s.attempts| ensures SameOrigin(s.attempts[c], Drop(s, gone).attempts[c]) {
      assert ClosedBy(s.attempts[c], Drop(s, gone).attempts[c], gone);
    }
  }

  lemma {:induction false} DropEachMoves(s: State, apps: seq<string>, app: string)
    requires Core(s) && forall i, k :: 0 <= i < k < |apps| ==> apps[i] != apps[k]
    ensures Moves(s, DropEach(s, apps), app, app in apps)
    decreases |apps|
  {
    if |apps| > 0 {
      var front, last := apps[..|apps| - 1], apps[|apps| - 1];
      DropEachMoves(s, front, app);
      DropEachOk(s, front);
      DropMoves(DropEach(s, front), last, app);
      OriginsThen(s, DropEach(s, front), DropEach(s, apps));
      assert apps == front + [last];
    }
  }

  lemma OriginsThen(s: State, t: State, u: State)
    requires OriginsKept(s, t) && OriginsKept(t, u)
    ensures OriginsKept(s, u)
  {
    forall c | 0 <= c < |s.attempts| ensures SameOrigin(s.attempts[c], u.attempts[c]) {
      assert SameOrigin(s.attempts[c], t.attempts[c]) && SameOrigin(t.attempts[c], u.attempts[c]);
    }
  }

  lemma DisconnectAllMoves(s: State, t: State, app: string)
    requires Inv(s) && DisconnectAllStep(s, t)
    ensures Moves(s, t, app, app in s.connections || app in s.inFlight)
  {
    var apps :| DropsAll(s, apps) && t == DropEach(s.(epoch := s.epoch + 1), apps);
    var bumped := s.(epoch := s.epoch + 1);
    BumpOk(s, bumped);
    DropEachMoves(bumped, apps, app);
    assert app in apps <==> app in s.connections || app in s.inFlight;
    OriginsThen(s, bumped, t);
  }

  lemma ConnectMoves(s: State, asked: string, endpoint: string, app: string)
    requires Inv(s)
    ensures Moves(s, ConnectStep(s, asked, endpoint), app, asked == app && !Reaches(s, asked, endpoint))
  {
    var t := ConnectStep(s, asked, endpoint);
    ConnectStartsUnlessReached(s, asked, endpoint);
    if !Reaches(s, asked, endpoint) {
      forall c | 0 <= c < |s.attempts| ensures SameOrigin(s.attempts[c], t.attempts[c]) {
        assert ClosedBy(s.attempts[c], t.attempts[c], asked);
      }
      if app != asked { assert SameFor(s, t, app); }
    }
  }

  ghost predicate Quiet(s: State, t: State) { OriginsKept(s, t) && t.generations == s.generations }

  lemma CaughtQuiet(s: State, c: nat, message: string)
    requires c < |s.attempts|
    ensures Quiet(s, Caught(s, c, message))
  {
  }

  lemma DisconnectSettledQuiet(s: State, c: nat, ok: bool)
    ensures Quiet(s, DisconnectSettledStep(s, c, ok))
  {
    if c < |s.attempts| {
      CaughtQuiet(s, c, "disconnect failed");
      CaughtQuiet(s, c, "aborted");
      CaughtQuiet(s, c, "cancelled");
    }
  }

  lemma ConnectSettledQuiet(s: State, c: nat, ok: bool)
    ensures Quiet(s, ConnectSettledStep(s, c, ok))
  {
    if c < |s.attempts| { CaughtQuiet(s, c, "connect failed"); }
  }

  lemma CloseSettledQuiet(s: State, c: nat)
    ensures Quiet(s, CloseSettledStep(s, c))
  {
    if c < |s.attempts| { CaughtQuiet(s, c, "cancelled"); }
  }

  lemma ReportQuiet(s: State, c: nat)
    ensures Quiet(s, ReportStep(s, c)) && Quiet(s, AbandonStep(s, c))
  {
  }

  lemma AwaitQuiet(s: State, op: Op, t: State)
    requires Next(s, op, t) && !op.Connect? && !op.Disconnect? && !op.DisconnectAll?
    ensures Quiet(s, t)
  {
    match op
    case DisconnectSettled(c, ok) => DisconnectSettledQuiet(s, c, ok);
    case ConnectSettled(c, ok) => ConnectSettledQuiet(s, c, ok);
    case CloseSettled(c) => CloseSettledQuiet(s, c);
    case Report(c) => ReportQuiet(s, c);
    case Abandon(c) => ReportQuiet(s, c);
    case ListTools(_, _) =>
    case CallTool(_, _, _) =>
  }

  /** Exactly the steps that end what an app has move its generation on, and no step changes what an attempt is for. */
  lemma StepMoves(s: State, op: Op, t: State, app: string)
    requires Inv(s) && Next(s, op, t)
    ensures Moves(s, t, app, Ends(s, op, app))
  {
    if op.Connect? { ConnectMoves(s, op.app, op.endpoint, app); }
    else if op.Disconnect? { DropMoves(s, op.gone, app); }
    else if op.DisconnectAll? { DisconnectAllMoves(s, t, app); }
    else { AwaitQuiet(s, op, t); }
  }

  /** No step between the two ended anything of the app. */
  ghost predicate Untouched(states: seq<State>, ops: seq<Op>, i: nat, n: nat, app: string) {
    i <= n <= |ops| < |states| && forall k :: i <= k < n ==> !Ends(states[k], ops[k], app)
  }

  lemma {:induction false} GenerationTells(states: seq<State>, ops: seq<Op>, i: nat, n: nat, app: string)
    requires Run(states, ops) && i <= n < |states|
    ensures OriginsKept(states[i], states[n]) && Generation(states[i], app) <= Generation(states[n], app)
    ensures Generation(states[n], app) == Generation(states[i], app) <==> Untouched(states, ops, i, n, app)
  {
    if i < n {
      GenerationTells(states, ops, i, n - 1, app);
      RunOk(states, ops, n - 1);
      StepMoves(states[n - 1], ops[n - 1], states[n], app);
      OriginsThen(states[i], states[n - 1], states[n]);
    }
  }

  /**
    An attempt started at step i and reported as failed at step n is shown with its message exactly if it was not
    aborted and nothing of its app was ended in between; otherwise what is shown stays as it was.
  */
  lemma FailureShownIffUntouched(states: seq<State>, ops: seq<Op>, i: nat, n: nat)
    requires Run(states, ops) && i < n < |ops| && ops[i].Connect? && !Reaches(states[i], ops[i].app, ops[i].endpoint)
    requires ops[n] == Report(|states[i].attempts|) && |states[i].attempts| < |states[n].attempts|
    requires states[n].attempts[|states[i].attempts|].phase.Failing?
    ensures var s, a := states[n], states[n].attempts[|states[i].attempts|];
      states[n + 1].errors
      == if !a.aborted && Untouched(states, ops, i + 1, n, ops[i].app) then s.errors[ops[i].app := a.phase.message]
         else s.errors
  {
    var c, app := |states[i].attempts|, ops[i].app;
    RunOk(states, ops, i);
    ConnectStartsUnlessReached(states[i], app, ops[i].endpoint);
    GenerationTells(states, ops, i + 1, n, app);
    assert SameOrigin(states[i + 1].attempts[c], states[n].attempts[c]);
    ShownIffCurrent(states[n], c);
  }
}
