/**
  Superseded attempts never connect, dropped clients are closed, and a pinned call runs where its tools were
  listed.
*/
module AppConnectionProofs {
  import opened Wrappers
  import opened AppConnections

  // ---------------------------------------------------------------- the invariant

  ghost predicate Waiting(p: Phase) { p.Disconnecting? || p.Connecting? }

  /** A pending attempt is current: its token is the app's generation. */
  ghost predicate PendingOk(s: State, app: string)
    requires app in s.inFlight
  {
    var p := s.inFlight[app];
    && p.client < |s.attempts|
    && var a := s.attempts[p.client];
    && a.app == app && a.token == p.token == Generation(s, app) && a.endpoint == p.endpoint && !a.closed
    && Waiting(a.phase)
  }

  ghost predicate ConnectionOk(s: State, app: string)
    requires app in s.connections
  {
    var k := s.connections[app];
    && k.client < |s.attempts|
    && var a := s.attempts[k.client];
    && a.app == app && a.endpoint == k.endpoint && a.token == Generation(s, app) && !a.closed && a.phase.Finished?
    && Installed(app, k.client, k.id) in s.log
  }

  /** A client that is neither connected nor in flight has been closed. */
  ghost predicate AttemptOk(s: State, c: nat)
    requires c < |s.attempts|
  {
    && (s.attempts[c].closed || IsInFlight(s, c) || IsConnected(s, c))
    && s.attempts[c].token <= Generation(s, s.attempts[c].app)
  }

  /** Attempts of one app carry growing tokens. */
  ghost predicate Numbered(s: State) {
    forall c, d :: 0 <= c < d < |s.attempts| && s.attempts[c].app == s.attempts[d].app ==>
      s.attempts[c].token < s.attempts[d].token
  }

  /** An app is idle, connected or connecting, and shows an error only while idle. */
  ghost predicate Exclusive(s: State) {
    && (forall app :: app in s.connections ==> app !in s.inFlight && app !in s.errors)
    && (forall app :: app in s.inFlight ==> app !in s.errors)
  }

  ghost predicate EventOk(s: State, e: Event) {
    match e
    case Installed(_, client, id) => client < |s.attempts| && id < s.nextId && s.attempts[client].phase.Finished?
    case Listed(app, client, id) => Installed(app, client, id) in s.log
    case Called(app, client, pinned) => pinned.Some? ==> Installed(app, client, pinned.value) in s.log
  }

  ghost predicate InstalledOnce(log: seq<Event>) {
    forall i, k :: 0 <= i < k < |log| && log[i].Installed? && log[k].Installed? ==> log[i].id != log[k].id
  }

  ghost predicate LogOk(s: State) {
    (forall i :: 0 <= i < |s.log| ==> EventOk(s, s.log[i])) && InstalledOnce(s.log)
  }

  ghost predicate AttemptsOk(s: State) { forall c :: 0 <= c < |s.attempts| ==> AttemptOk(s, c) }

  ghost predicate PendingsOk(s: State) { forall app :: app in s.inFlight ==> PendingOk(s, app) }

  ghost predicate ConnectionsOk(s: State) { forall app :: app in s.connections ==> ConnectionOk(s, app) }

  ghost predicate Core(s: State) {
    Exclusive(s) && PendingsOk(s) && ConnectionsOk(s) && AttemptsOk(s) && Numbered(s) && LogOk(s)
  }

  /** Pending attempts belong to the service's epoch; `disconnectAll` breaks this only while it runs. */
  ghost predicate SameEpoch(s: State) {
    forall app :: app in s.inFlight && s.inFlight[app].client < |s.attempts| ==>
      s.attempts[s.inFlight[app].client].epoch == s.epoch
  }

  ghost predicate Inv(s: State) { Core(s) && SameEpoch(s) }

  /** Attempts are never forgotten, closed ones never reopened, and the log only grows. */
  ghost predicate Grows(s: State, t: State) {
    && |s.attempts| <= |t.attempts|
    && (forall c :: 0 <= c < |s.attempts| ==>
          t.attempts[c].app == s.attempts[c].app && (s.attempts[c].closed ==> t.attempts[c].closed))
    && s.log <= t.log
  }

  ghost predicate Good(s: State, t: State) { Inv(t) && Grows(s, t) }

  // ---------------------------------------------------------------- every step keeps it

  /** The part of an attempt that its app's connection depends on. */
  ghost predicate Alike(a: Attempt, b: Attempt) {
    && b.app == a.app && b.token == a.token && b.endpoint == a.endpoint && b.epoch == a.epoch && b.closed == a.closed
    && (Waiting(a.phase) ==> Waiting(b.phase)) && (a.phase.Finished? ==> b.phase.Finished?)
  }

  ghost predicate PendingKept(s: State, t: State, app: string)
    requires app in t.inFlight
  {
    && app in s.inFlight && t.inFlight[app] == s.inFlight[app] && Generation(t, app) == Generation(s, app)
    && var c := s.inFlight[app].client;
    c < |s.attempts| ==> c < |t.attempts| && Alike(s.attempts[c], t.attempts[c])
  }

  ghost predicate ConnectionKept(s: State, t: State, app: string)
    requires app in t.connections
  {
    && app in s.connections && t.connections[app] == s.connections[app] && Generation(t, app) == Generation(s, app)
    && var c := s.connections[app].client;
    c < |s.attempts| ==> c < |t.attempts| && Alike(s.attempts[c], t.attempts[c])
  }

  lemma PendingsKept(s: State, t: State)
    requires PendingsOk(s) && forall app :: app in t.inFlight ==> PendingKept(s, t, app)
    ensures PendingsOk(t)
  {
    forall app | app in t.inFlight ensures PendingOk(t, app) { assert PendingKept(s, t, app) && PendingOk(s, app); }
  }

  lemma ConnectionsKept(s: State, t: State)
    requires ConnectionsOk(s) && s.log <= t.log && forall app :: app in t.connections ==> ConnectionKept(s, t, app)
    ensures ConnectionsOk(t)
  {
    forall app | app in t.connections ensures ConnectionOk(t, app) {
      assert ConnectionKept(s, t, app) && ConnectionOk(s, app);
      InstalledStays(s.log, t.log, Installed(app, s.connections[app].client, s.connections[app].id));
    }
  }

  lemma InstalledStays(before: seq<Event>, after: seq<Event>, e: Event)
    requires before <= after && e in before
    ensures e in after
  {
    var i: nat :| i < |before| && before[i] == e;
    assert after[i] == e;
  }

  /** A drop closes every open client of the app and touches no other attempt. */
  ghost predicate Dropped(s: State, t: State, app: string) {
    && |t.attempts| == |s.attempts|
    && (forall c :: 0 <= c < |s.attempts| ==> ClosedBy(s.attempts[c], t.attempts[c], app))
    && t.connections == s.connections - {app} && t.inFlight == s.inFlight - {app} && t.errors == s.errors - {app}
    && t.generations == s.generations[app := Generation(s, app) + 1]
    && t.nextId == s.nextId && t.log == s.log
  }

  lemma DropCloses(s: State, app: string)
    requires Core(s)
    ensures Dropped(s, Drop(s, app), app)
  {
    forall c | 0 <= c < |s.attempts| ensures ClosedBy(s.attempts[c], Drop(s, app).attempts[c], app) {
      DropAt(s, app, c);
      ClosesAt(s, app, c);
    }
  }

  predicate ClosedBy(a: Attempt, b: Attempt, app: string) {
    && b.(closed := a.closed, aborted := a.aborted) == a
    && (if a.app == app then b.closed else b == a)
  }

  /** The app's clients are the ones the drop closes. */
  lemma ClosesAt(s: State, app: string, c: nat)
    requires Core(s) && c < |s.attempts|
    ensures app in s.inFlight && s.inFlight[app].client == c ==> s.attempts[c].app == app
    ensures app in s.connections && s.connections[app].client == c ==> s.attempts[c].app == app
    ensures s.attempts[c].app == app ==>
      || s.attempts[c].closed || (app in s.inFlight && s.inFlight[app].client == c)
      || (app in s.connections && s.connections[app].client == c)
  {
    assert AttemptOk(s, c);
    if app in s.inFlight { assert PendingOk(s, app); }
    if app in s.connections { assert ConnectionOk(s, app); }
  }

  lemma DropAt(s: State, app: string, c: nat)
    requires c < |s.attempts|
    ensures var pending := app in s.inFlight && s.inFlight[app].client == c;
      var connected := app in s.connections && s.connections[app].client == c;
      var a := s.attempts[c];
      && |Drop(s, app).attempts| == |s.attempts|
      && Drop(s, app).attempts[c] == a.(aborted := a.aborted || pending, closed := a.closed || pending || connected)
  {
  }

  lemma DroppedLog(s: State, t: State, app: string)
    requires LogOk(s) && Dropped(s, t, app)
    ensures LogOk(t)
  {
    forall i | 0 <= i < |t.log| ensures EventOk(t, t.log[i]) { assert EventOk(s, s.log[i]); }
  }

  lemma DroppedAttempts(s: State, t: State, app: string)
    requires AttemptsOk(s) && Dropped(s, t, app)
    ensures AttemptsOk(t)
  {
    forall c | 0 <= c < |t.attempts| ensures AttemptOk(t, c) { assert AttemptOk(s, c); }
  }

  lemma DroppedPendings(s: State, t: State, app: string)
    requires PendingsOk(s) && Dropped(s, t, app)
    ensures PendingsOk(t)
  {
    forall other | other in t.inFlight ensures PendingKept(s, t, other) { assert PendingOk(s, other); }
    PendingsKept(s, t);
  }

  lemma DroppedConnections(s: State, t: State, app: string)
    requires ConnectionsOk(s) && Dropped(s, t, app)
    ensures ConnectionsOk(t)
  {
    forall other | other in t.connections ensures ConnectionKept(s, t, other) { assert ConnectionOk(s, other); }
    ConnectionsKept(s, t);
  }

  lemma DroppedRest(s: State, t: State, app: string)
    requires Exclusive(s) && Numbered(s) && Dropped(s, t, app)
    ensures Exclusive(t) && Numbered(t) && Grows(s, t)
  {
  }

  /** A drop leaves nothing of the app open. */
  lemma DropOk(s: State, app: string)
    requires Core(s)
    ensures var t := Drop(s, app); Core(t) && Grows(s, t) && Dropped(s, t, app)
  {
    var t := Drop(s, app);
    DropCloses(s, app);
    DroppedLog(s, t, app);
    DroppedAttempts(s, t, app);
    DroppedPendings(s, t, app);
    DroppedConnections(s, t, app);
    DroppedRest(s, t, app);
  }

  lemma DropKeepsEpoch(s: State, app: string)
    requires Core(s) && SameEpoch(s)
    ensures SameEpoch(Drop(s, app))
  {
    DropCloses(s, app);
  }

  lemma ConnectOk(s: State, app: string, endpoint: string)
    requires Inv(s)
    ensures Good(s, ConnectStep(s, app, endpoint))
  {
    var t := ConnectStep(s, app, endpoint);
    if t != s {
      var d := Drop(s, app);
      DropOk(s, app);
      DropKeepsEpoch(s, app);
      forall c | 0 <= c < |d.attempts| && d.attempts[c].app == app ensures d.attempts[c].token < Generation(d, app) {
        assert AttemptOk(s, c);
      }
      AppendAttempt(d, t, app, endpoint);
      GrowsTransitive(s, d, t);
    }
  }

  ghost predicate Appended(d: State, t: State, app: string, endpoint: string) {
    var a := Attempt(app, endpoint, Generation(d, app), d.epoch, Disconnecting, false, false);
    t == d.(attempts := d.attempts + [a], inFlight := d.inFlight[app := Pending(|d.attempts|, a.token, endpoint)])
  }

  lemma AppendAttempt(d: State, t: State, app: string, endpoint: string)
    requires Inv(d) && app !in d.inFlight && app !in d.connections && app !in d.errors
    requires forall c :: 0 <= c < |d.attempts| && d.attempts[c].app == app ==> d.attempts[c].token < Generation(d, app)
    requires Appended(d, t, app, endpoint)
    ensures Good(d, t)
  {
    AppendedLog(d, t, app, endpoint);
    AppendedAttempts(d, t, app, endpoint);
    forall other | other in t.inFlight ensures PendingOk(t, other) {
      if other != app { assert PendingOk(d, other); }
    }
    forall other | other in t.connections ensures ConnectionKept(d, t, other) { assert ConnectionOk(d, other); }
    ConnectionsKept(d, t);
  }

  lemma AppendedLog(d: State, t: State, app: string, endpoint: string)
    requires LogOk(d) && Appended(d, t, app, endpoint)
    ensures LogOk(t)
  {
    forall i | 0 <= i < |t.log| ensures EventOk(t, t.log[i]) { assert EventOk(d, d.log[i]); }
  }

  lemma AppendedAttempts(d: State, t: State, app: string, endpoint: string)
    requires AttemptsOk(d) && app !in d.inFlight && Appended(d, t, app, endpoint)
    ensures AttemptsOk(t)
  {
    forall c | 0 <= c < |t.attempts| ensures AttemptOk(t, c) {
      if c < |d.attempts| { assert AttemptOk(d, c); }
    }
  }

  // ---------------------------------------------------------------- steps of one attempt

  /** `t` moves attempt `c` to another phase and keeps everything the other attempts see. */
  ghost predicate Moves(s: State, t: State, c: nat, a: Attempt) {
    && c < |s.attempts| && t.attempts == s.attempts[c := a]
    && a.app == s.attempts[c].app && a.token == s.attempts[c].token && a.endpoint == s.attempts[c].endpoint
    && a.epoch == s.attempts[c].epoch && (s.attempts[c].closed ==> a.closed)
    && t.generations == s.generations && t.epoch == s.epoch
  }

  /** Attempt `c` stops: it is closed, no longer in flight, and was never installed. */
  lemma StopOk(s: State, t: State, c: nat, a: Attempt)
    requires Inv(s) && Moves(s, t, c, a) && a.closed && !s.attempts[c].phase.Finished?
    requires t.inFlight == (if IsInFlight(s, c) then s.inFlight - {a.app} else s.inFlight)
    requires t.connections == s.connections && t.errors == s.errors && t.log == s.log && t.nextId == s.nextId
    ensures Good(s, t)
  {
    forall app | app in t.inFlight ensures PendingKept(s, t, app) { assert PendingOk(s, app); }
    PendingsKept(s, t);
    forall app | app in t.connections ensures ConnectionKept(s, t, app) { assert ConnectionOk(s, app); }
    ConnectionsKept(s, t);
    StopAttempts(s, t, c, a);
    MoveLog(s, t, c, a);
  }

  lemma StopAttempts(s: State, t: State, c: nat, a: Attempt)
    requires AttemptsOk(s) && Moves(s, t, c, a) && a.closed
    requires t.inFlight == (if IsInFlight(s, c) then s.inFlight - {a.app} else s.inFlight)
             && t.connections == s.connections
    ensures AttemptsOk(t)
  {
    forall d | 0 <= d < |t.attempts| ensures AttemptOk(t, d) { assert AttemptOk(s, d); }
  }

  lemma MoveLog(s: State, t: State, c: nat, a: Attempt)
    requires LogOk(s) && Moves(s, t, c, a) && (s.attempts[c].phase.Finished? ==> a.phase.Finished?)
    requires t.log == s.log && t.nextId == s.nextId
    ensures LogOk(t)
  {
    forall i | 0 <= i < |t.log| ensures EventOk(t, t.log[i]) { assert EventOk(s, s.log[i]); }
  }

  lemma CaughtOk(s: State, c: nat, message: string)
    requires Inv(s) && c < |s.attempts| && !s.attempts[c].phase.Finished?
    ensures Good(s, Caught(s, c, message))
  {
    StopOk(s, Caught(s, c, message), c, s.attempts[c].(closed := true, phase := Failing(message)));
  }

  /** Between steps, an attempt passes the check after its connect exactly when it is still in flight. */
  lemma WantedIffInFlight(s: State, c: nat)
    requires Inv(s) && c < |s.attempts|
    ensures StillWanted(s, c) <==> IsInFlight(s, c)
  {
    if IsInFlight(s, c) { assert PendingOk(s, s.attempts[c].app); }
  }

  /** The attempt goes on, in flight or not. */
  lemma WaitOk(s: State, t: State, c: nat, a: Attempt)
    requires Inv(s) && Moves(s, t, c, a) && a.closed == s.attempts[c].closed && Waiting(a.phase)
    requires Waiting(s.attempts[c].phase)
    requires t == SetAttempt(s, c, a)
    ensures Good(s, t)
  {
    forall app | app in t.inFlight ensures PendingKept(s, t, app) { assert PendingOk(s, app); }
    PendingsKept(s, t);
    forall app | app in t.connections ensures ConnectionKept(s, t, app) { assert ConnectionOk(s, app); }
    ConnectionsKept(s, t);
    forall d | 0 <= d < |t.attempts| ensures AttemptOk(t, d) { assert AttemptOk(s, d); }
    MoveLog(s, t, c, a);
  }

  lemma DisconnectSettledOk(s: State, c: nat, ok: bool)
    requires Inv(s)
    ensures Good(s, DisconnectSettledStep(s, c, ok))
  {
    if c < |s.attempts| && s.attempts[c].phase.Disconnecting? {
      var a := s.attempts[c];
      CaughtOk(s, c, "disconnect failed");
      CaughtOk(s, c, "aborted");
      CaughtOk(s, c, "cancelled");
      WaitOk(s, SetAttempt(s, c, a.(phase := Connecting)), c, a.(phase := Connecting));
    }
  }

  lemma InstallOk(s: State, c: nat)
    requires Inv(s) && c < |s.attempts| && IsInFlight(s, c)
    ensures Good(s, Install(s, c))
  {
    var t := Install(s, c);
    var app := s.attempts[c].app;
    assert PendingOk(s, app);
    forall other | other in t.inFlight ensures PendingKept(s, t, other) { assert PendingOk(s, other); }
    PendingsKept(s, t);
    InstallConnections(s, c);
    InstallAttempts(s, c);
    InstallLog(s, c);
  }

  lemma InstallConnections(s: State, c: nat)
    requires ConnectionsOk(s) && c < |s.attempts|
    requires s.attempts[c].token == Generation(s, s.attempts[c].app) && !s.attempts[c].closed
    requires !IsConnected(s, c)
    ensures ConnectionsOk(Install(s, c))
  {
    var t := Install(s, c);
    forall other | other in t.connections ensures ConnectionOk(t, other) {
      if other != s.attempts[c].app { assert ConnectionOk(s, other); }
    }
  }

  lemma InstallAttempts(s: State, c: nat)
    requires AttemptsOk(s) && c < |s.attempts| && IsInFlight(s, c) && s.attempts[c].app !in s.connections
    ensures AttemptsOk(Install(s, c))
  {
    forall d | 0 <= d < |s.attempts| ensures AttemptOk(Install(s, c), d) { assert AttemptOk(s, d); }
  }

  lemma InstallLog(s: State, c: nat)
    requires LogOk(s) && c < |s.attempts|
    ensures LogOk(Install(s, c))
  {
    var t := Install(s, c);
    forall i | 0 <= i < |t.log| ensures EventOk(t, t.log[i]) {
      if i < |s.log| { assert EventOk(s, s.log[i]); }
    }
  }

  lemma ConnectSettledOk(s: State, c: nat, ok: bool)
    requires Inv(s)
    ensures Good(s, ConnectSettledStep(s, c, ok))
  {
    if c < |s.attempts| && s.attempts[c].phase.Connecting? {
      var a := s.attempts[c];
      CaughtOk(s, c, "connect failed");
      WantedIffInFlight(s, c);
      if IsInFlight(s, c) { InstallOk(s, c); }
      else {
        StopOk(s, SetAttempt(s, c, a.(closed := true, phase := Superseded)), c,
               a.(closed := true, phase := Superseded));
      }
    }
  }

  /** The message is kept only while the attempt is the app's latest, so the app is idle. */
  lemma ReportOk(s: State, c: nat)
    requires Inv(s)
    ensures Good(s, ReportStep(s, c))
  {
    if c < |s.attempts| && s.attempts[c].phase.Failing? {
      var t := ReportStep(s, c);
      var a := s.attempts[c].(phase := Finished);
      assert Moves(s, t, c, a);
      ReportExclusive(s, c);
      forall app | app in t.inFlight ensures PendingKept(s, t, app) { assert PendingOk(s, app); }
      PendingsKept(s, t);
      forall app | app in t.connections ensures ConnectionKept(s, t, app) { assert ConnectionOk(s, app); }
      ConnectionsKept(s, t);
      forall d | 0 <= d < |t.attempts| ensures AttemptOk(t, d) { assert AttemptOk(s, d); }
      MoveLog(s, t, c, a);
    }
  }

  lemma ReportExclusive(s: State, c: nat)
    requires Core(s) && c < |s.attempts| && s.attempts[c].phase.Failing?
    ensures Exclusive(ReportStep(s, c))
  {
    if Generation(s, s.attempts[c].app) == s.attempts[c].token { LatestIsIdle(s, c); }
  }

  lemma LatestIsIdle(s: State, c: nat)
    requires Core(s) && c < |s.attempts| && s.attempts[c].phase.Failing?
    requires s.attempts[c].token == Generation(s, s.attempts[c].app)
    ensures s.attempts[c].app !in s.connections && s.attempts[c].app !in s.inFlight
  {
    var app := s.attempts[c].app;
    if app in s.connections { assert ConnectionOk(s, app); SameTokenSameAttempt(s, c, s.connections[app].client); }
    if app in s.inFlight { assert PendingOk(s, app); SameTokenSameAttempt(s, c, s.inFlight[app].client); }
  }

  lemma SameTokenSameAttempt(s: State, c: nat, d: nat)
    requires Numbered(s) && c < |s.attempts| && d < |s.attempts|
    requires s.attempts[c].app == s.attempts[d].app && s.attempts[c].token == s.attempts[d].token
    ensures c == d
  {
    assert !(c < d);
    assert !(d < c);
  }

  lemma AbandonOk(s: State, c: nat)
    requires Inv(s)
    ensures Good(s, AbandonStep(s, c))
  {
    if IsInFlight(s, c) {
      assert PendingOk(s, s.attempts[c].app);
      WaitOk(s, AbandonStep(s, c), c, s.attempts[c].(aborted := true));
    }
  }

  lemma CloseSettledOk(s: State, c: nat)
    requires Inv(s)
    ensures Good(s, CloseSettledStep(s, c))
  {
    if c < |s.attempts| && s.attempts[c].phase.Superseded? { CaughtOk(s, c, "cancelled"); }
  }

  // ---------------------------------------------------------------- disconnecting everything

  lemma {:induction false} DropEachOk(s: State, apps: seq<string>)
    requires Core(s)
    ensures var t := DropEach(s, apps);
      && Core(t) && Grows(s, t)
      && (forall app :: app in apps ==> app !in t.connections && app !in t.inFlight)
      && t.connections.Keys <= s.connections.Keys && t.inFlight.Keys <= s.inFlight.Keys
    decreases |apps|
  {
    if |apps| > 0 {
      var before := DropEach(s, apps[..|apps| - 1]);
      DropEachOk(s, apps[..|apps| - 1]);
      DropOk(before, apps[|apps| - 1]);
      GrowsTransitive(s, before, Drop(before, apps[|apps| - 1]));
    }
  }

  /** Afterwards nothing is connected or pending, and every client ever made is closed. */
  lemma DisconnectAllOk(s: State, t: State)
    requires Inv(s) && DisconnectAllStep(s, t)
    ensures Good(s, t)
    ensures t.connections == map[] && t.inFlight == map[]
    ensures forall c :: 0 <= c < |t.attempts| ==> t.attempts[c].closed
  {
    var apps :| DropsAll(s, apps) && t == DropEach(s.(epoch := s.epoch + 1), apps);
    var bumped := s.(epoch := s.epoch + 1);
    BumpOk(s, bumped);
    DropEachOk(bumped, apps);
    assert forall app :: app !in t.connections && app !in t.inFlight;
    UnheldAreClosed(t);
  }

  lemma UnheldAreClosed(t: State)
    requires Core(t) && t.connections == map[] && t.inFlight == map[]
    ensures forall c :: 0 <= c < |t.attempts| ==> t.attempts[c].closed
  {
    forall c | 0 <= c < |t.attempts| ensures t.attempts[c].closed { assert AttemptOk(t, c); }
  }

  lemma BumpOk(s: State, t: State)
    requires Core(s) && t == s.(epoch := s.epoch + 1)
    ensures Core(t)
  {
    forall app | app in t.inFlight ensures PendingKept(s, t, app) { assert PendingOk(s, app); }
    PendingsKept(s, t);
    forall app | app in t.connections ensures ConnectionKept(s, t, app) { assert ConnectionOk(s, app); }
    ConnectionsKept(s, t);
    forall d | 0 <= d < |t.attempts| ensures AttemptOk(t, d) { assert AttemptOk(s, d); }
    forall i | 0 <= i < |t.log| ensures EventOk(t, t.log[i]) { assert EventOk(s, s.log[i]); }
  }

  // ---------------------------------------------------------------- listing and calling tools

  lemma LogMore(s: State, t: State, e: Event)
    requires Inv(s) && t == s.(log := s.log + [e]) && !e.Installed? && EventOk(s, e)
    ensures Good(s, t)
  {
    forall app | app in t.inFlight ensures PendingKept(s, t, app) { assert PendingOk(s, app); }
    PendingsKept(s, t);
    forall app | app in t.connections ensures ConnectionKept(s, t, app) { assert ConnectionOk(s, app); }
    ConnectionsKept(s, t);
    forall d | 0 <= d < |t.attempts| ensures AttemptOk(t, d) { assert AttemptOk(s, d); }
    forall i | 0 <= i < |t.log| ensures EventOk(t, t.log[i]) {
      if i < |s.log| { assert EventOk(s, s.log[i]); } else { assert EventOk(s, e); }
    }
  }

  lemma ListToolsOk(s: State, app: string, began: Connection)
    requires Inv(s)
    ensures Good(s, ListToolsStep(s, app, began))
  {
    if app in s.connections && s.connections[app] == began {
      assert ConnectionOk(s, app);
      LogMore(s, ListToolsStep(s, app, began), Listed(app, began.client, began.id));
    }
  }

  lemma CallToolOk(s: State, app: string, pinned: Option<nat>, expected: Option<string>)
    requires Inv(s)
    ensures Good(s, CallToolStep(s, app, pinned, expected))
  {
    if app in s.connections && Expects(s.connections[app], pinned, expected) {
      assert ConnectionOk(s, app);
      LogMore(s, CallToolStep(s, app, pinned, expected), Called(app, s.connections[app].client, pinned));
    }
  }

  // ---------------------------------------------------------------- runs

  lemma StepGood(s: State, op: Op, t: State)
    requires Inv(s) && Next(s, op, t)
    ensures Good(s, t)
  {
    match op
    case Connect(app, endpoint) => ConnectOk(s, app, endpoint);
    case DisconnectSettled(c, ok) => DisconnectSettledOk(s, c, ok);
    case ConnectSettled(c, ok) => ConnectSettledOk(s, c, ok);
    case CloseSettled(c) => CloseSettledOk(s, c);
    case Report(c) => ReportOk(s, c);
    case Abandon(c) => AbandonOk(s, c);
    case Disconnect(app) => DropOk(s, app); DropKeepsEpoch(s, app);
    case DisconnectAll => DisconnectAllOk(s, t);
    case ListTools(app, began) => ListToolsOk(s, app, began);
    case CallTool(app, pinned, expected) => CallToolOk(s, app, pinned, expected);
  }

  ghost predicate Run(states: seq<State>, ops: seq<Op>) {
    && |states| == |ops| + 1 && states[0] == START
    && forall i :: 0 <= i < |ops| ==> Next(states[i], ops[i], states[i + 1])
  }

  lemma {:induction false} RunOk(states: seq<State>, ops: seq<Op>, n: nat)
    requires Run(states, ops) && n < |states|
    ensures Inv(states[n])
  {
    if n > 0 {
      RunOk(states, ops, n - 1);
      StepGood(states[n - 1], ops[n - 1], states[n]);
    }
  }

  lemma RunStep(states: seq<State>, ops: seq<Op>, n: nat)
    requires Run(states, ops) && n < |ops|
    ensures Good(states[n], states[n + 1])
  {
    RunOk(states, ops, n);
    StepGood(states[n], ops[n], states[n + 1]);
  }

  lemma RunStepGrows(states: seq<State>, ops: seq<Op>, n: nat)
    requires Run(states, ops) && n < |ops|
    ensures Grows(states[n], states[n + 1])
  {
    RunStep(states, ops, n);
  }

  lemma {:induction false} RunGrows(states: seq<State>, ops: seq<Op>, i: nat, n: nat)
    requires Run(states, ops) && i <= n < |states|
    ensures Grows(states[i], states[n])
  {
    if i < n {
      RunGrows(states, ops, i, n - 1);
      RunStepGrows(states, ops, n - 1);
      GrowsTransitive(states[i], states[n - 1], states[n]);
    }
  }

  // ---------------------------------------------------------------- the promises

  /** An app is connected, connecting or neither, and an error is shown only when it is neither. */
  lemma OneOfThree(states: seq<State>, ops: seq<Op>, n: nat, app: string)
    requires Run(states, ops) && n < |states|
    ensures !(app in states[n].connections && app in states[n].inFlight)
    ensures app in states[n].errors ==> app !in states[n].connections && app !in states[n].inFlight
    ensures app in states[n].inFlight ==>
      && states[n].inFlight[app].client < |states[n].attempts|
      && states[n].inFlight[app].token == Generation(states[n], app)
      && states[n].attempts[states[n].inFlight[app].client].epoch == states[n].epoch
  {
    RunOk(states, ops, n);
    if app in states[n].inFlight { assert PendingOk(states[n], app); }
  }

  /** No client leaks: one that is neither connected nor in flight has been closed, and a connected one has not. */
  lemma DroppedMeansClosed(states: seq<State>, ops: seq<Op>, n: nat, c: nat)
    requires Run(states, ops) && n < |states| && c < |states[n].attempts|
    ensures states[n].attempts[c].closed <==> !IsConnected(states[n], c) && !IsInFlight(states[n], c)
  {
    RunOk(states, ops, n);
    var s := states[n];
    assert AttemptOk(s, c);
    if IsConnected(s, c) { assert ConnectionOk(s, s.attempts[c].app); }
    if IsInFlight(s, c) { assert PendingOk(s, s.attempts[c].app); }
  }

  /** The attempts a step gives up on: the app's at its disconnect, all of them when everything is disconnected. */
  predicate GivesUp(op: Op, app: string) {
    match op
    case Disconnect(gone) => gone == app
    case DisconnectAll => true
    case _ => false
  }

  lemma GivenUpIsClosed(s: State, op: Op, t: State, c: nat)
    requires Inv(s) && Next(s, op, t) && c < |s.attempts| && GivesUp(op, s.attempts[c].app)
    ensures c < |t.attempts| && t.attempts[c].closed
  {
    match op
    case Disconnect(app) => DropOk(s, app);
    case DisconnectAll => DisconnectAllOk(s, t);
  }

  /** An attempt made before a disconnect is never connected or pending at any time after it. */
  lemma NeverConnectsAfterDisconnect(states: seq<State>, ops: seq<Op>, i: nat, n: nat, c: nat)
    requires Run(states, ops) && i < n < |states|
    requires c < |states[i].attempts| && GivesUp(ops[i], states[i].attempts[c].app)
    ensures !IsConnected(states[n], c) && !IsInFlight(states[n], c)
    ensures c < |states[n].attempts| && states[n].attempts[c].closed
  {
    RunOk(states, ops, i);
    GivenUpIsClosed(states[i], ops[i], states[i + 1], c);
    RunGrows(states, ops, i + 1, n);
    DroppedMeansClosed(states, ops, n, c);
  }

  /** A connect that starts a new attempt ends every earlier attempt of the app for good. */
  lemma NeverConnectsAfterReconnect(states: seq<State>, ops: seq<Op>, i: nat, n: nat, c: nat)
    requires Run(states, ops) && i < n < |states|
    requires c < |states[i].attempts| && ops[i].Connect? && ops[i].app == states[i].attempts[c].app
    requires |states[i + 1].attempts| > |states[i].attempts|
    ensures !IsConnected(states[n], c) && !IsInFlight(states[n], c)
  {
    RunOk(states, ops, i);
    DropOk(states[i], ops[i].app);
    assert states[i + 1].attempts[c] == Drop(states[i], ops[i].app).attempts[c];
    RunGrows(states, ops, i + 1, n);
    DroppedMeansClosed(states, ops, n, c);
  }

  /**
    Two events that name the same connection id concern the same client: a pinned call runs where its tools were
    listed.
  */
  lemma PinnedCallRunsWhereListed(states: seq<State>, ops: seq<Op>, n: nat, i: nat, k: nat, id: nat)
    requires Run(states, ops) && n < |states| && i < |states[n].log| && k < |states[n].log|
    requires states[n].log[i].Listed? && states[n].log[i].id == id
    requires states[n].log[k].Called? && states[n].log[k].pinned == Some(id)
    ensures states[n].log[k].client == states[n].log[i].client && states[n].log[k].app == states[n].log[i].app
  {
    RunOk(states, ops, n);
    var s := states[n];
    assert EventOk(s, s.log[i]) && EventOk(s, s.log[k]);
    var a: nat :| a < |s.log| && s.log[a] == Installed(s.log[i].app, s.log[i].client, id);
    var b: nat :| b < |s.log| && s.log[b] == Installed(s.log[k].app, s.log[k].client, id);
    assert !(a < b);
    assert !(b < a);
  }

  lemma GrowsTransitive(s: State, t: State, u: State)
    requires Grows(s, t) && Grows(t, u)
    ensures Grows(s, u)
  {
    assert u.log[..|s.log|] == u.log[..|t.log|][..|s.log|];
  }
}
