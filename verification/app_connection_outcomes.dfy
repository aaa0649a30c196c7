/** What each step of a connection attempt comes to, and that an attempt left alone connects. */
module AppConnectionOutcomes {
  import opened Wrappers
  import opened AppConnections
  import opened AppConnectionProofs

  // ---------------------------------------------------------------- asking for a connection

  /** The app is connected, or connecting, to this endpoint already. */
  ghost predicate Reaches(s: State, app: string, endpoint: string) {
    || (app in s.connections && s.connections[app].endpoint == endpoint)
    || (app in s.inFlight && s.inFlight[app].endpoint == endpoint)
  }

  ghost predicate SameFor(s: State, t: State, app: string) {
    && (app in t.connections <==> app in s.connections) && (app in t.inFlight <==> app in s.inFlight)
    && (app in t.errors <==> app in s.errors) && Generation(t, app) == Generation(s, app)
    && (app in s.connections ==> t.connections[app] == s.connections[app])
    && (app in s.inFlight ==> t.inFlight[app] == s.inFlight[app])
    && (app in s.errors ==> t.errors[app] == s.errors[app])
  }

  /** Only this app's entries of the maps may have changed. */
  ghost predicate OnlyFor(s: State, t: State, app: string) {
    t.epoch == s.epoch && forall other :: other != app ==> SameFor(s, t, other)
  }

  /**
    Asking for an endpoint the app has, or is about to have, does nothing; otherwise it starts an attempt of the next
    generation, and every earlier client of the app is closed.
  */
  lemma ConnectStartsUnlessReached(s: State, app: string, endpoint: string)
    requires Inv(s)
    ensures var t, c := ConnectStep(s, app, endpoint), |s.attempts|;
      && (Reaches(s, app, endpoint) ==> t == s)
      && (!Reaches(s, app, endpoint) ==>
            && |t.attempts| == c + 1 && OnlyFor(s, t, app) && t.nextId == s.nextId && t.log == s.log
            && app !in t.connections && app !in t.errors && app in t.inFlight
            && t.inFlight[app] == Pending(c, Generation(s, app) + 1, endpoint)
            && Generation(t, app) == Generation(s, app) + 1
            && t.attempts[c] == Attempt(app, endpoint, Generation(s, app) + 1, s.epoch, Disconnecting, false, false)
            && forall d :: 0 <= d < c ==> ClosedBy(s.attempts[d], t.attempts[d], app))
  {
    if !Reaches(s, app, endpoint) { StartsAttempt(s, app, endpoint); }
  }

  lemma StartsAttempt(s: State, app: string, endpoint: string)
    requires Inv(s) && !Reaches(s, app, endpoint)
    ensures var t, c := ConnectStep(s, app, endpoint), |s.attempts|;
      && |t.attempts| == c + 1 && OnlyFor(s, t, app) && t.nextId == s.nextId && t.log == s.log
      && app !in t.connections && app !in t.errors && app in t.inFlight
      && t.inFlight[app] == Pending(c, Generation(s, app) + 1, endpoint)
      && Generation(t, app) == Generation(s, app) + 1
      && t.attempts[c] == Attempt(app, endpoint, Generation(s, app) + 1, s.epoch, Disconnecting, false, false)
      && forall d :: 0 <= d < c ==> ClosedBy(s.attempts[d], t.attempts[d], app)
  {
    var d := Drop(s, app);
    DropOk(s, app);
    var a := Attempt(app, endpoint, Generation(d, app), d.epoch, Disconnecting, false, false);
    var t := d.(attempts := d.attempts + [a],
                inFlight := d.inFlight[app := Pending(|d.attempts|, Generation(d, app), endpoint)]);
    assert ConnectStep(s, app, endpoint) == t;
    forall i | 0 <= i < |s.attempts| ensures ClosedBy(s.attempts[i], t.attempts[i], app) {
      assert ClosedBy(s.attempts[i], d.attempts[i], app);
    }
    forall other | other != app ensures SameFor(s, t, other) { assert SameFor(s, d, other); }
  }

  /** A disconnect takes the app out of both maps, aborts what was pending and closes the app's clients. */
  lemma DisconnectEnds(s: State, app: string)
    requires Inv(s)
    ensures var t := Drop(s, app);
      && OnlyFor(s, t, app) && app !in t.connections && app !in t.inFlight && app !in t.errors
      && Generation(t, app) == Generation(s, app) + 1 && |t.attempts| == |s.attempts|
      && forall c :: 0 <= c < |s.attempts| ==> EndedBy(s, t, app, c)
  {
    DropCloses(s, app);
    forall c | 0 <= c < |s.attempts| ensures EndedBy(s, Drop(s, app), app, c) { EndsAt(s, app, c); }
    DropOnlyFor(s, Drop(s, app), app);
  }

  ghost predicate EndedBy(s: State, t: State, app: string, c: nat) {
    && c < |s.attempts| && c < |t.attempts| && ClosedBy(s.attempts[c], t.attempts[c], app)
    && (t.attempts[c].aborted <==> s.attempts[c].aborted || (IsInFlight(s, c) && s.attempts[c].app == app))
  }

  lemma EndsAt(s: State, app: string, c: nat)
    requires Inv(s) && c < |s.attempts|
    ensures EndedBy(s, Drop(s, app), app, c)
  {
    DropAt(s, app, c);
    ClosesAt(s, app, c);
  }

  lemma DropOnlyFor(s: State, t: State, app: string)
    requires Dropped(s, t, app) && t.epoch == s.epoch
    ensures OnlyFor(s, t, app)
  {
  }

  // ---------------------------------------------------------------- the awaits of an attempt

  /** The attempt failed: its client is closed, its failure waits to be reported, and it is not pending any more. */
  ghost predicate Fails(s: State, t: State, c: nat, message: string)
    requires c < |s.attempts|
  {
    var a := s.attempts[c];
    && t.attempts == s.attempts[c := a.(closed := true, phase := Failing(message))]
    && t.inFlight == (if IsInFlight(s, c) then s.inFlight - {a.app} else s.inFlight)
    && t.connections == s.connections && t.errors == s.errors && t.generations == s.generations && t.log == s.log
  }

  /** After the disconnect before it, an attempt goes on to connect exactly if that went well and nothing stopped it. */
  lemma GoesOnIff(s: State, c: nat, ok: bool)
    requires c < |s.attempts| && s.attempts[c].phase.Disconnecting?
    ensures var t, a := DisconnectSettledStep(s, c, ok), s.attempts[c];
      && (t.attempts[c].phase.Connecting? <==> ok && !a.aborted && s.epoch == a.epoch)
      && (t.attempts[c].phase.Connecting? ==> t == s.(attempts := s.attempts[c := a.(phase := Connecting)]))
      && (!t.attempts[c].phase.Connecting? ==>
            Fails(s, t, c, if !ok then "disconnect failed" else if a.aborted then "aborted" else "cancelled"))
  {
  }

  /** The app is connected through this client, to the attempt's endpoint and under an id that was never used. */
  ghost predicate Connects(s: State, t: State, c: nat)
    requires c < |s.attempts|
  {
    var a := s.attempts[c];
    && OnlyFor(s, t, a.app) && a.app !in t.inFlight && a.app !in t.errors && t.generations == s.generations
    && a.app in t.connections && t.connections[a.app] == Connection(c, a.endpoint, s.nextId) && t.nextId == s.nextId + 1
    && t.attempts == s.attempts[c := a.(phase := Finished)] && t.log == s.log + [Installed(a.app, c, s.nextId)]
    && (forall other :: other in s.connections ==> s.connections[other].id != s.nextId)
    && (forall i :: 0 <= i < |s.log| && s.log[i].Installed? ==> s.log[i].id != s.nextId)
  }

  /** A connect that succeeds connects exactly the attempt that is still in flight; any other client is closed. */
  lemma ConnectsIffInFlight(s: State, c: nat, ok: bool)
    requires Inv(s) && c < |s.attempts| && s.attempts[c].phase.Connecting?
    ensures var t, a := ConnectSettledStep(s, c, ok), s.attempts[c];
      && (IsConnected(t, c) <==> ok && IsInFlight(s, c))
      && (ok && IsInFlight(s, c) ==> Connects(s, t, c))
      && (ok && !IsInFlight(s, c) ==> t == s.(attempts := s.attempts[c := a.(closed := true, phase := Superseded)]))
      && (!ok ==> Fails(s, t, c, "connect failed"))
  {
    WantedIffInFlight(s, c);
    NotConnectedYet(s, c);
    if ok && IsInFlight(s, c) { FreshId(s); }
  }

  lemma NotConnectedYet(s: State, c: nat)
    requires Inv(s) && c < |s.attempts| && !s.attempts[c].phase.Finished?
    ensures !IsConnected(s, c)
  {
    if s.attempts[c].app in s.connections { assert ConnectionOk(s, s.attempts[c].app); }
  }

  lemma FreshId(s: State)
    requires Inv(s)
    ensures forall other :: other in s.connections ==> s.connections[other].id != s.nextId
    ensures forall i :: 0 <= i < |s.log| && s.log[i].Installed? ==> s.log[i].id != s.nextId
  {
    forall i | 0 <= i < |s.log| && s.log[i].Installed? ensures s.log[i].id != s.nextId { assert EventOk(s, s.log[i]); }
    forall other | other in s.connections ensures s.connections[other].id != s.nextId {
      assert ConnectionOk(s, other);
      var i :| 0 <= i < |s.log| && s.log[i] == Installed(other, s.connections[other].client, s.connections[other].id);
    }
  }

  /** A superseded client, once closed, fails as cancelled. */
  lemma SupersededFails(s: State, c: nat)
    requires c < |s.attempts| && s.attempts[c].phase.Superseded?
    ensures Fails(s, CloseSettledStep(s, c), c, "cancelled")
  {
  }

  /** A failure is shown exactly if the app was not connected or disconnected since and nobody gave the attempt up. */
  lemma ShownIffCurrent(s: State, c: nat)
    requires c < |s.attempts| && s.attempts[c].phase.Failing?
    ensures var t, a := ReportStep(s, c), s.attempts[c];
      var current := Generation(s, a.app) == a.token && !a.aborted;
      && t.attempts == s.attempts[c := a.(phase := Finished)]
      && t.errors == (if current then s.errors[a.app := a.phase.message] else s.errors)
      && t == s.(attempts := t.attempts, errors := t.errors)
  {
  }

  // ---------------------------------------------------------------- using a connection

  /** Tools are listed, and a tool called, exactly on the connection the caller had in mind. */
  lemma UsedIffExpected(s: State, app: string, began: Connection, pinned: Option<nat>, expected: Option<string>)
    ensures var t := ListToolsStep(s, app, began);
      if app in s.connections && s.connections[app] == began
      then t == s.(log := s.log + [Listed(app, began.client, began.id)]) else t == s
    ensures var t := CallToolStep(s, app, pinned, expected);
      if app in s.connections && (pinned.None? || pinned == Some(s.connections[app].id))
         && (expected.None? || expected == Some(s.connections[app].endpoint))
      then t == s.(log := s.log + [Called(app, s.connections[app].client, pinned)]) else t == s
  {
  }

  // ---------------------------------------------------------------- an attempt left alone connects

  /** A step that ends the attempt, or is one of its own awaits. */
  predicate Concerns(op: Op, c: nat, app: string, endpoint: string) {
    match op
    case Connect(other, e) => other == app && e != endpoint
    case Disconnect(gone) => gone == app
    case DisconnectAll => true
    case Abandon(d) => d == c
    case DisconnectSettled(d, _) => d == c
    case ConnectSettled(d, _) => d == c
    case _ => false
  }

  lemma LeftAloneByApps(s: State, op: Op, t: State, c: nat)
    requires Inv(s) && Next(s, op, t) && IsInFlight(s, c) && (op.Connect? || op.Disconnect?)
    requires !Concerns(op, c, s.attempts[c].app, s.attempts[c].endpoint)
    ensures IsInFlight(t, c) && t.attempts[c] == s.attempts[c] && t.epoch == s.epoch
  {
    var a := s.attempts[c];
    assert PendingOk(s, a.app);
    if op.Connect? {
      ConnectStartsUnlessReached(s, op.app, op.endpoint);
      if t != s {
        assert SameFor(s, t, a.app) && ClosedBy(a, t.attempts[c], op.app);
        ConnectAborts(s, op.app, op.endpoint, c);
      }
    } else {
      DisconnectEnds(s, op.gone);
      assert SameFor(s, t, a.app) && ClosedBy(a, t.attempts[c], op.gone);
    }
  }

  lemma ConnectAborts(s: State, app: string, endpoint: string, c: nat)
    requires Inv(s) && c < |s.attempts| && s.attempts[c].app != app
    ensures c < |ConnectStep(s, app, endpoint).attempts|
    ensures ConnectStep(s, app, endpoint).attempts[c] == s.attempts[c]
  {
    DropAt(s, app, c);
    ClosesAt(s, app, c);
  }

  /** An await of another attempt settles: it may take that one out of flight, and nothing else. */
  ghost predicate Elsewhere(s: State, t: State, d: nat) {
    && t.epoch == s.epoch && |t.attempts| == |s.attempts|
    && (forall c :: 0 <= c < |s.attempts| && c != d ==> t.attempts[c] == s.attempts[c])
    && (t.inFlight == s.inFlight || (IsInFlight(s, d) && t.inFlight == s.inFlight - {s.attempts[d].app}))
  }

  lemma CaughtIsElsewhere(s: State, d: nat, message: string)
    requires d < |s.attempts|
    ensures Elsewhere(s, Caught(s, d, message), d)
  {
  }

  lemma DisconnectIsElsewhere(s: State, d: nat, ok: bool)
    ensures Elsewhere(s, DisconnectSettledStep(s, d, ok), d)
  {
    if d < |s.attempts| {
      CaughtIsElsewhere(s, d, "disconnect failed");
      CaughtIsElsewhere(s, d, "aborted");
      CaughtIsElsewhere(s, d, "cancelled");
    }
  }

  lemma CloseIsElsewhere(s: State, d: nat)
    ensures Elsewhere(s, CloseSettledStep(s, d), d) && Elsewhere(s, ReportStep(s, d), d)
  {
    if d < |s.attempts| { CaughtIsElsewhere(s, d, "cancelled"); }
  }

  lemma ConnectIsElsewhere(s: State, d: nat, ok: bool)
    ensures Elsewhere(s, ConnectSettledStep(s, d, ok), d)
  {
    if d < |s.attempts| { CaughtIsElsewhere(s, d, "connect failed"); }
  }

  lemma LeftAloneElsewhere(s: State, t: State, c: nat, d: nat)
    requires Inv(s) && IsInFlight(s, c) && d != c && Elsewhere(s, t, d)
    ensures IsInFlight(t, c) && t.attempts[c] == s.attempts[c] && t.epoch == s.epoch
  {
    if IsInFlight(s, d) { OnePending(s, c, d); }
  }

  lemma OnePending(s: State, c: nat, d: nat)
    requires Inv(s) && IsInFlight(s, c) && d != c && IsInFlight(s, d)
    ensures s.attempts[d].app != s.attempts[c].app
  {
  }

  /** The attempt whose await an operation settles. */
  function Settles(op: Op): Option<nat> {
    match op
    case DisconnectSettled(d, _) => Some(d)
    case ConnectSettled(d, _) => Some(d)
    case CloseSettled(d) => Some(d)
    case Report(d) => Some(d)
    case _ => None
  }

  lemma LeftAlone(s: State, op: Op, t: State, c: nat)
    requires Inv(s) && Next(s, op, t) && IsInFlight(s, c) && Waiting(s.attempts[c].phase)
    requires !Concerns(op, c, s.attempts[c].app, s.attempts[c].endpoint)
    ensures IsInFlight(t, c) && t.attempts[c] == s.attempts[c] && t.epoch == s.epoch
  {
    if op.Connect? || op.Disconnect? {
      LeftAloneByApps(s, op, t, c);
    } else if Settles(op).Some? {
      var d := Settles(op).value;
      if op.ConnectSettled? { ConnectIsElsewhere(s, d, op.ok); }
      else if op.DisconnectSettled? { DisconnectIsElsewhere(s, d, op.ok); }
      else { CloseIsElsewhere(s, d); }
      if d != c { LeftAloneElsewhere(s, t, c, d); } else { Waits(s, op, t, c); }
    }
  }

  /** Closing and reporting concern no attempt that still waits for a connection. */
  lemma Waits(s: State, op: Op, t: State, c: nat)
    requires Next(s, op, t) && c < |s.attempts| && Waiting(s.attempts[c].phase)
    requires op == CloseSettled(c) || op == Report(c)
    ensures t == s
  {
  }

  /** From one state of a run to another nothing concerned the attempt. */
  ghost predicate Undisturbed(ops: seq<Op>, i: nat, n: nat, c: nat, app: string, endpoint: string) {
    i <= n <= |ops| && forall k :: i <= k < n ==> !Concerns(ops[k], c, app, endpoint)
  }

  lemma {:induction false} StaysPending(states: seq<State>, ops: seq<Op>, i: nat, n: nat, c: nat)
    requires Run(states, ops) && i <= n < |states| && c < |states[i].attempts|
    requires IsInFlight(states[i], c) && Waiting(states[i].attempts[c].phase)
    requires Undisturbed(ops, i, n, c, states[i].attempts[c].app, states[i].attempts[c].endpoint)
    ensures IsInFlight(states[n], c) && states[n].attempts[c] == states[i].attempts[c]
    ensures states[n].epoch == states[i].epoch
  {
    if i < n {
      StaysPending(states, ops, i, n - 1, c);
      RunOk(states, ops, n - 1);
      LeftAlone(states[n - 1], ops[n - 1], states[n], c);
    }
  }

  /**
    An attempt whose two awaits succeed is connected, unless a disconnect, another endpoint or an abort came first:
    it starts at step i, its disconnect settles at step j and its connect at step k.
  */
  lemma LeftAloneConnects(states: seq<State>, ops: seq<Op>, i: nat, j: nat, k: nat)
    requires Run(states, ops) && i < j < k < |ops| && ops[i].Connect?
    requires !Reaches(states[i], ops[i].app, ops[i].endpoint)
    requires var c := |states[i].attempts|;
      && ops[j] == DisconnectSettled(c, true) && ops[k] == ConnectSettled(c, true)
      && Undisturbed(ops, i + 1, j, c, ops[i].app, ops[i].endpoint)
      && Undisturbed(ops, j + 1, k, c, ops[i].app, ops[i].endpoint)
    ensures var t, c := states[k + 1], |states[i].attempts|;
      && ops[i].app in t.connections && t.connections[ops[i].app].client == c
      && t.connections[ops[i].app].endpoint == ops[i].endpoint && ops[i].app !in t.errors
  {
    var c := |states[i].attempts|;
    RunOk(states, ops, i);
    ConnectStartsUnlessReached(states[i], ops[i].app, ops[i].endpoint);
    StaysPending(states, ops, i + 1, j, c);
    RunOk(states, ops, j);
    GoesOnIff(states[j], c, true);
    PendingHasEpoch(states[j], c);
    StaysPending(states, ops, j + 1, k, c);
    RunOk(states, ops, k);
    ConnectsIffInFlight(states[k], c, true);
  }

  lemma PendingHasEpoch(s: State, c: nat)
    requires Inv(s) && IsInFlight(s, c)
    ensures s.attempts[c].epoch == s.epoch
  {
  }
}
