/**
  Connecting to application MCP endpoints (desktop-ui/src/main/appMcpService.ts).

  A step is what runs between two awaits.  Each attempt owns the client it created, so a client's id is
  the number of its attempt, and an attempt waits at one of the awaits of `establishConnection`.
*/
module AppConnections {
  import opened Wrappers

  /**
    Where an attempt is suspended: on the disconnect before it, on the connect, on closing a superseded client,
    on closing a failed one, or done.
   */
  datatype Phase = Disconnecting | Connecting | Superseded | Failing(message: string) | Finished

  datatype Attempt = Attempt(app: string, endpoint: string, token: nat, epoch: nat, phase: Phase, aborted: bool,
                             closed: bool)

  datatype Connection = Connection(client: nat, endpoint: string, id: nat)

  datatype Pending = Pending(client: nat, token: nat, endpoint: string)

  datatype Event =
    | Installed(app: string, client: nat, id: nat)
    | Listed(app: string, client: nat, id: nat)
    | Called(app: string, client: nat, pinned: Option<nat>)

  datatype State = State(connections: map<string, Connection>, inFlight: map<string, Pending>,
                         errors: map<string, string>, generations: map<string, nat>, epoch: nat, nextId: nat,
                         attempts: seq<Attempt>, log: seq<Event>)

  const START: State := State(map[], map[], map[], map[], 0, 1, [], [])

  datatype Op =
    | Connect(app: string, endpoint: string)
    | DisconnectSettled(waiting: nat, ok: bool)
    | ConnectSettled(connecting: nat, ok: bool)
    | CloseSettled(superseded: nat)
    | Report(failed: nat)
    | Abandon(unwanted: nat)
    | Disconnect(gone: string)
    | DisconnectAll
    | ListTools(listed: string, began: Connection)
    | CallTool(called: string, pinned: Option<nat>, expected: Option<string>)

  function Generation(s: State, app: string): nat { if app in s.generations then s.generations[app] else 0 }

  predicate IsInFlight(s: State, c: nat) {
    c < |s.attempts| && s.attempts[c].app in s.inFlight && s.inFlight[s.attempts[c].app].client == c
  }

  predicate IsConnected(s: State, c: nat) {
    c < |s.attempts| && s.attempts[c].app in s.connections && s.connections[s.attempts[c].app].client == c
  }

  function SetAttempt(s: State, c: nat, a: Attempt): State
    requires c < |s.attempts|
  {
    s.(attempts := s.attempts[c := a])
  }

  function Close(attempts: seq<Attempt>, c: nat): seq<Attempt> {
    if c < |attempts| then attempts[c := attempts[c].(closed := true)] else attempts
  }

  function Abort(attempts: seq<Attempt>, c: nat): seq<Attempt> {
    if c < |attempts| then attempts[c := attempts[c].(aborted := true)] else attempts
  }

  /** Drops the app's connection and attempt, and closes both their clients. */
  function Drop(s: State, app: string): State {
    var attempts :=
      if app in s.inFlight then Close(Abort(s.attempts, s.inFlight[app].client), s.inFlight[app].client)
      else s.attempts;
    s.(generations := s.generations[app := Generation(s, app) + 1],
       connections := s.connections - {app}, inFlight := s.inFlight - {app}, errors := s.errors - {app},
       attempts := if app in s.connections then Close(attempts, s.connections[app].client) else attempts)
  }

  function ConnectStep(s: State, app: string, endpoint: string): State {
    if app in s.connections && s.connections[app].endpoint == endpoint then s
    else if app in s.inFlight && s.inFlight[app].endpoint == endpoint then s
    else
      var d := Drop(s, app);
      var token := Generation(d, app);
      d.(attempts := d.attempts + [Attempt(app, endpoint, token, s.epoch, Disconnecting, false, false)],
         inFlight := d.inFlight[app := Pending(|d.attempts|, token, endpoint)])
  }

  /** The catch block of `establishConnection`, up to its await. */
  function Caught(s: State, c: nat, message: string): State
    requires c < |s.attempts|
  {
    var a := s.attempts[c];
    s.(inFlight := if IsInFlight(s, c) then s.inFlight - {a.app} else s.inFlight,
       attempts := s.attempts[c := a.(closed := true, phase := Failing(message))])
  }

  /** The catch block after its await: the error is kept only if the app has not been disconnected since. */
  function ReportStep(s: State, c: nat): State {
    if c >= |s.attempts| || !s.attempts[c].phase.Failing? then s
    else
      var a := s.attempts[c];
      s.(errors := if Generation(s, a.app) == a.token && !a.aborted then s.errors[a.app := a.phase.message]
                   else s.errors,
         attempts := s.attempts[c := a.(phase := Finished)])
  }

  function DisconnectSettledStep(s: State, c: nat, ok: bool): State {
    if c >= |s.attempts| || !s.attempts[c].phase.Disconnecting? then s
    else
      var a := s.attempts[c];
      if !ok then Caught(s, c, "disconnect failed")
      else if a.aborted then Caught(s, c, "aborted")
      else if s.epoch != a.epoch then Caught(s, c, "cancelled")
      else SetAttempt(s, c, a.(phase := Connecting))
  }

  predicate StillWanted(s: State, c: nat)
    requires c < |s.attempts|
  {
    s.epoch == s.attempts[c].epoch && Generation(s, s.attempts[c].app) == s.attempts[c].token && IsInFlight(s, c)
  }

  function Install(s: State, c: nat): State
    requires c < |s.attempts|
  {
    var a := s.attempts[c];
    s.(inFlight := s.inFlight - {a.app},
       connections := s.connections[a.app := Connection(c, a.endpoint, s.nextId)],
       nextId := s.nextId + 1,
       errors := s.errors - {a.app},
       attempts := s.attempts[c := a.(phase := Finished)],
       log := s.log + [Installed(a.app, c, s.nextId)])
  }

  function ConnectSettledStep(s: State, c: nat, ok: bool): State {
    if c >= |s.attempts| || !s.attempts[c].phase.Connecting? then s
    else if !ok then Caught(s, c, "connect failed")
    else if !StillWanted(s, c) then SetAttempt(s, c, s.attempts[c].(closed := true, phase := Superseded))
    else Install(s, c)
  }

  function CloseSettledStep(s: State, c: nat): State {
    if c >= |s.attempts| || !s.attempts[c].phase.Superseded? then s else Caught(s, c, "cancelled")
  }

  /** The last waiter of a pending attempt gave up. */
  function AbandonStep(s: State, c: nat): State {
    if IsInFlight(s, c) then SetAttempt(s, c, s.attempts[c].(aborted := true)) else s
  }

  function DropEach(s: State, apps: seq<string>): State
    decreases |apps|
  {
    if |apps| == 0 then s else Drop(DropEach(s, apps[..|apps| - 1]), apps[|apps| - 1])
  }

  /** Bumps the epoch and drops every app that is connected or in flight. */
  ghost predicate DropsAll(s: State, apps: seq<string>) {
    && (forall i :: 0 <= i < |apps| ==> apps[i] in s.connections || apps[i] in s.inFlight)
    && (forall app :: app in s.connections || app in s.inFlight ==> app in apps)
    && (forall i, k :: 0 <= i < k < |apps| ==> apps[i] != apps[k])
  }

  ghost predicate DisconnectAllStep(s: State, t: State) {
    exists apps :: DropsAll(s, apps) && t == DropEach(s.(epoch := s.epoch + 1), apps)
  }

  predicate Expects(k: Connection, pinned: Option<nat>, expected: Option<string>) {
    (pinned.Some? ==> pinned.value == k.id) && (expected.Some? ==> expected.value == k.endpoint)
  }

  /** The listing is returned only if the connection it began on is still the app's. */
  function ListToolsStep(s: State, app: string, began: Connection): State {
    if app in s.connections && s.connections[app] == began
    then s.(log := s.log + [Listed(app, began.client, began.id)]) else s
  }

  function CallToolStep(s: State, app: string, pinned: Option<nat>, expected: Option<string>): State {
    if app in s.connections && Expects(s.connections[app], pinned, expected)
    then s.(log := s.log + [Called(app, s.connections[app].client, pinned)]) else s
  }

  ghost predicate Next(s: State, op: Op, t: State) {
    match op
    case Connect(app, endpoint) => t == ConnectStep(s, app, endpoint)
    case DisconnectSettled(c, ok) => t == DisconnectSettledStep(s, c, ok)
    case ConnectSettled(c, ok) => t == ConnectSettledStep(s, c, ok)
    case CloseSettled(c) => t == CloseSettledStep(s, c)
    case Report(c) => t == ReportStep(s, c)
    case Abandon(c) => t == AbandonStep(s, c)
    case Disconnect(app) => t == Drop(s, app)
    case DisconnectAll => DisconnectAllStep(s, t)
    case ListTools(app, began) => t == ListToolsStep(s, app, began)
    case CallTool(app, pinned, expected) => t == CallToolStep(s, app, pinned, expected)
  }

  // ---------------------------------------------------------------- as the service runs it

  class AppMcpService {
    var connections: map<string, Connection>
    var inFlight: map<string, Pending>
    var errors: map<string, string>
    var generations: map<string, nat>
    var epoch: nat
    var nextConnectionId: nat
    var attempts: seq<Attempt>
    ghost var log: seq<Event>

    ghost function View(): State
      reads this
    {
      State(connections, inFlight, errors, generations, epoch, nextConnectionId, attempts, log)
    }

    constructor ()
      ensures View() == START
    {
      connections, inFlight, errors, generations := map[], map[], map[], map[];
      epoch, nextConnectionId, attempts, log := 0, 1, [], [];
    }

    method CloseClient(c: nat)
      modifies this`attempts
      ensures attempts == Close(old(attempts), c)
    {
      if c < |attempts| { attempts := attempts[c := attempts[c].(closed := true)]; }
    }

    method DisconnectApp(app: string)
      modifies this
      ensures View() == Drop(old(View()), app)
    {
      ghost var before := View();
      generations := generations[app := (if app in generations then generations[app] else 0) + 1];
      var connection := if app in connections then Some(connections[app]) else None;
      var pending := if app in inFlight then Some(inFlight[app]) else None;
      connections := connections - {app};
      inFlight := inFlight - {app};
      errors := errors - {app};
      if pending.Some? {
        attempts := Abort(attempts, pending.value.client);
        CloseClient(pending.value.client);
      }
      if connection.Some? { CloseClient(connection.value.client); }
      assert attempts == Drop(before, app).attempts;
    }

    method ConnectApp(app: string, endpoint: string)
      modifies this
      ensures View() == ConnectStep(old(View()), app, endpoint)
    {
      if app in connections && connections[app].endpoint == endpoint { return; }
      if app in inFlight && inFlight[app].endpoint == endpoint { return; }
      var started := epoch;
      DisconnectApp(app);
      var token := generations[app];
      attempts := attempts + [Attempt(app, endpoint, token, started, Disconnecting, false, false)];
      inFlight := inFlight[app := Pending(|attempts| - 1, token, endpoint)];
    }

    method Fail(c: nat, message: string)
      requires c < |attempts|
      modifies this
      ensures View() == Caught(old(View()), c, message)
    {
      var a := attempts[c];
      if a.app in inFlight && inFlight[a.app].client == c { inFlight := inFlight - {a.app}; }
      attempts := attempts[c := a.(closed := true, phase := Failing(message))];
    }

    method FailureClosed(c: nat)
      requires c < |attempts| && attempts[c].phase.Failing?
      modifies this
      ensures View() == ReportStep(old(View()), c)
    {
      var a := attempts[c];
      if (if a.app in generations then generations[a.app] else 0) == a.token && !a.aborted {
        errors := errors[a.app := a.phase.message];
      }
      attempts := attempts[c := a.(phase := Finished)];
    }

    method DisconnectFinished(c: nat, ok: bool)
      requires c < |attempts| && attempts[c].phase.Disconnecting?
      modifies this
      ensures View() == DisconnectSettledStep(old(View()), c, ok)
    {
      var a := attempts[c];
      if !ok { Fail(c, "disconnect failed"); return; }
      if a.aborted { Fail(c, "aborted"); return; }
      if epoch != a.epoch { Fail(c, "cancelled"); return; }
      attempts := attempts[c := a.(phase := Connecting)];
    }

    method ConnectFinished(c: nat, ok: bool)
      requires c < |attempts| && attempts[c].phase.Connecting?
      modifies this
      ensures View() == ConnectSettledStep(old(View()), c, ok)
    {
      var a := attempts[c];
      if !ok { Fail(c, "connect failed"); return; }
      if epoch != a.epoch || (if a.app in generations then generations[a.app] else 0) != a.token
         || a.app !in inFlight || inFlight[a.app].client != c {
        attempts := attempts[c := a.(closed := true, phase := Superseded)];
        return;
      }
      inFlight := inFlight - {a.app};
      connections := connections[a.app := Connection(c, a.endpoint, nextConnectionId)];
      log := log + [Installed(a.app, c, nextConnectionId)];
      nextConnectionId := nextConnectionId + 1;
      errors := errors - {a.app};
      attempts := attempts[c := a.(phase := Finished)];
    }

    method CloseFinished(c: nat)
      requires c < |attempts| && attempts[c].phase.Superseded?
      modifies this
      ensures View() == CloseSettledStep(old(View()), c)
    {
      Fail(c, "cancelled");
    }

    /** The last waiter of the attempt gave up. */
    method LastWaiterLeft(c: nat)
      requires c < |attempts|
      modifies this`attempts
      ensures View() == AbandonStep(old(View()), c)
    {
      var app := attempts[c].app;
      if app in inFlight && inFlight[app].client == c { attempts := attempts[c := attempts[c].(aborted := true)]; }
    }

    /** `apps` lists the keys of both maps, each once, in the order the maps hold them. */
    method DisconnectEvery(apps: seq<string>)
      requires DropsAll(View(), apps)
      modifies this
      ensures DisconnectAllStep(old(View()), View())
    {
      epoch := epoch + 1;
      ghost var bumped := View();
      for i := 0 to |apps|
        invariant View() == DropEach(bumped, apps[..i])
      {
        assert apps[..i + 1][..i] == apps[..i];
        DisconnectApp(apps[i]);
      }
      assert apps[..|apps|] == apps;
    }

    /** The listing began on `began`; it is kept only if that is still the app's connection. */
    method FinishListing(app: string, began: Connection) returns (r: Result<nat, string>)
      modifies this`log
      ensures View() == ListToolsStep(old(View()), app, began)
      ensures r.Ok? <==> app in connections && connections[app] == began
      ensures r.Ok? ==> r.value == began.id
    {
      if app !in connections || connections[app] != began { return Err("changed while tools were being listed"); }
      log := log + [Listed(app, began.client, began.id)];
      r := Ok(began.id);
    }

    /** The connection a tool call runs on, or an error when it is not the one the caller saw. */
    method RequireConnection(app: string, pinned: Option<nat>,
                             expected: Option<string>) returns (r: Result<Connection, string>)
      ensures r.Ok? <==> app in connections && Expects(connections[app], pinned, expected)
      ensures r.Ok? ==> r.value == connections[app]
    {
      if app !in connections { return Err("not connected"); }
      if !Expects(connections[app], pinned, expected) { return Err("connection changed"); }
      r := Ok(connections[app]);
    }

    method CallOn(app: string, pinned: Option<nat>, expected: Option<string>) returns (r: Result<nat, string>)
      modifies this`log
      ensures View() == CallToolStep(old(View()), app, pinned, expected)
      ensures r.Ok? ==> log == old(log) + [Called(app, r.value, pinned)]
    {
      var connection := RequireConnection(app, pinned, expected);
      if connection.Err? { return Err(connection.error); }
      log := log + [Called(app, connection.value.client, pinned)];
      r := Ok(connection.value.client);
    }
  }
}
