/** The access service as it runs: rows, window and counter change in place (control-plane/src/instanceAccess.ts). */
module InstanceAccessService {
  import opened InstanceAccess
  import opened Wrappers

  /** The operations in the order the permission lists are read in. */
  const SELECTABLE: seq<Permission> :=
    [Permission(Content, CreateOp), Permission(Content, ReadOp),
     Permission(Content, UpdateOp), Permission(Content, DeleteOp),
     Permission(Settings, CreateOp), Permission(Settings, ReadOp),
     Permission(Settings, UpdateOp), Permission(Settings, DeleteOp),
     Permission(Tools, CreateOp), Permission(Tools, ReadOp), Permission(Tools, UpdateOp), Permission(Tools, DeleteOp),
     Permission(Tools, RunOp)]

  predicate AllProper(permissions: Permissions) { forall p :: p in permissions ==> Proper(p) }

  function Place(p: Permission): nat {
    (match p.category case Content => 0 case Settings => 4 case Tools => 8)
    + (match p.operation case CreateOp => 0 case ReadOp => 1 case UpdateOp => 2 case DeleteOp => 3 case RunOp => 4)
  }

  lemma ProperIsSelectable(p: Permission)
    requires Proper(p)
    ensures p in SELECTABLE
  {
    assert SELECTABLE[Place(p)] == p;
  }

  /** Every selected operation of `delta` switched on in `granted`, one after the other. */
  method AddSelected(granted: Permissions, delta: Permissions) returns (sum: Permissions)
    requires AllProper(delta)
    ensures sum == granted + delta
  {
    sum := granted;
    for i := 0 to |SELECTABLE|
      invariant sum == granted + set p | p in delta && p in SELECTABLE[..i]
    {
      if SELECTABLE[i] in delta { sum := sum + {SELECTABLE[i]}; }
    }
    assert SELECTABLE[..|SELECTABLE|] == SELECTABLE;
    forall p | p in delta ensures p in SELECTABLE { ProperIsSelectable(p); }
  }

  class AccessService {
    var clients: seq<Client>
    var requests: seq<Request>
    var requestWindow: nat
    var requestCount: nat
    var tokens: nat
    ghost var log: seq<Event>

    ghost function View(): State
      reads this
    {
      State(clients, requests, requestWindow, requestCount, tokens, log)
    }

    constructor ()
      ensures View() == START
    {
      clients, requests, requestWindow, requestCount, tokens, log := [], [], 0, 0, 0, [];
    }

    method LimitRequests(now: nat) returns (refused: Option<Error>)
      modifies this`requestWindow, this`requestCount, this`requests
      ensures (View(), refused) == Limit(old(View()), now)
    {
      if now - requestWindow >= WINDOW { requestWindow, requestCount := now, 0; }
      requestCount := requestCount + 1;
      if requestCount > PER_WINDOW { return Some(TooMany); }
      requests := Purge(requests, now);
      if CountRows(requests) >= QUEUE { return Some(TooMany); }
      refused := None;
    }

    method InsertRequest(q: Request)
      modifies this`requests, this`log
      ensures View() == Append(old(View()), q)
    {
      log := log + [Opened(|requests|, q.createdAt)];
      requests := requests + [q];
    }

    /** A renewal closes what its client has open and asks for what it holds. */
    method InsertRenewal(now: nat, c: nat, secret: nat)
      requires c < |clients|
      modifies this`requests, this`log
      ensures var s := old(View()); var k := s.clients[c];
        View() == Append(s.(requests := DenyOf(s.requests, c, None, false)),
                         Request(secret, k.name, Some(c), k.access, Pending, now, now + REQUEST_LIFETIME, k.permissions,
                                 ForAccess, false, false))
    {
      var k := clients[c];
      requests := DenyOf(requests, c, None, false);
      InsertRequest(Request(secret, k.name, Some(c), k.access, Pending, now, now + REQUEST_LIFETIME, k.permissions,
                            ForAccess, false, false));
    }

    method AskForAccess(now: nat, name: string, access: Access, refresh: bool, token: Option<nat>, secret: nat)
      returns (r: Result<nat, Error>)
      modifies this
      ensures (View(), r) == RequestAccess(old(View()), now, name, access, refresh, token, secret)
    {
      var refused := LimitRequests(now);
      if refused.Some? { return Err(refused.value); }
      ghost var limited := View();
      assert limited.clients == old(clients);
      var previous := if refresh && token.Some? then Holder(clients, token.value) else None;
      if refresh && previous.None? { return Err(Unauthorized); }
      var id := |requests|;
      if previous.Some? {
        InsertRenewal(now, previous.value, secret);
      } else {
        var permissions := Defaults(access);
        InsertRequest(Request(secret, name, None, access, Pending, now, now + REQUEST_LIFETIME, permissions, ForAccess,
                              false, false));
      }
      r := Ok(id);
    }

    /** What is asked for and not held yet. */
    method Missing(held: Permissions, asked: seq<Permission>) returns (delta: Permissions)
      ensures delta == Delta(held, asked)
    {
      delta := {};
      for i := 0 to |asked|
        invariant delta == Delta(held, asked[..i])
      {
        if asked[i] !in held { delta := delta + {asked[i]}; }
      }
      assert asked[..|asked|] == asked;
    }

    method AskForPermissions(now: nat, token: Option<nat>, asked: seq<Permission>, oauth: bool, secret: nat)
      returns (r: Result<Option<nat>, Error>)
      modifies this
      ensures (View(), r) == RequestPermissions(old(View()), now, token, asked, oauth, secret)
    {
      var c := Authenticate(clients, token, now);
      if c.None? { return Err(Unauthorized); }
      if |asked| == 0 || |asked| > 13 || exists p :: p in asked && !Proper(p) { return Err(Invalid); }
      var k := clients[c.value];
      var delta := Missing(k.permissions, asked);
      if delta == {} { return Ok(None); }
      if oauth && k.access.Read? && Mutating(delta) { return Err(Conflict); }
      var same := SameAsk(requests, c.value, delta, now);
      if same.Some? { return Ok(same); }
      var refused := LimitRequests(now);
      if refused.Some? { return Err(refused.value); }
      var id: nat := |requests|;
      InsertRequest(Request(secret, k.name, c, k.access, Pending, now, now + REQUEST_LIFETIME, delta, ForPermissions,
                            false, false));
      r := Ok(Some(id));
    }

    method IssueCredential(now: nat, r: nat) returns (token: nat)
      requires r < |requests| && (requests[r].client.Some? ==> requests[r].client.value < |clients|)
      modifies this
      ensures View() == Issue(old(View()), now, r) && token == old(tokens)
    {
      var q, c := requests[r], |clients|;
      token := tokens;
      if q.client.Some? {
        c := q.client.value;
        clients := clients[c := clients[c].(credential := token, expiresAt := now + LIFETIME,
                                            permissions := q.permissions)];
      } else {
        clients := clients + [Client(q.name, token, q.access, now, now + LIFETIME, None, q.permissions)];
      }
      tokens := tokens + 1;
      requests := requests[r := q.(status := Consumed, client := Some(c))];
      requests := DenyOf(requests, c, Some(r), false);
      log := log + [Issued(r, c, token)];
    }

    method ClaimCredential(now: nat, r: nat) returns (result: Result<Option<nat>, Error>)
      modifies this
      ensures (View(), result) == ClaimApproved(old(View()), now, r)
    {
      if r >= |requests| || requests[r].gone { return Err(NotFound); }
      var q := requests[r];
      if q.purpose.ForPermissions? { return Err(Forbidden); }
      if q.expiresAt <= now { return Err(Expired); }
      if q.status.Pending? { return Ok(None); }
      if !q.status.Approved? { return Err(Forbidden); }
      if q.client.Some? && (q.client.value >= |clients| || clients[q.client.value].revokedAt.Some?) {
        return Err(Forbidden);
      }
      var token := IssueCredential(now, r);
      result := Ok(Some(token));
    }

    method DecideRequest(now: nat, owner: bool, r: nat, approve: bool, oauth: bool) returns (error: Option<Error>)
      requires forall i :: 0 <= i < |requests| ==> AllProper(requests[i].permissions)
      modifies this
      ensures (View(), error) == Decide(old(View()), now, owner, r, approve, oauth)
    {
      if !owner { return Some(Unauthorized); }
      if r >= |requests| || requests[r].gone || !requests[r].status.Pending? || requests[r].expiresAt <= now {
        return Some(Conflict);
      }
      var q := requests[r];
      var status := if approve then Approved else Denied;
      if approve && q.purpose.ForPermissions? {
        if q.client.None? || q.client.value >= |clients| || !Usable(clients[q.client.value], now) {
          return Some(Conflict);
        }
        var c := q.client.value;
        if oauth && clients[c].access.Read? && Mutating(q.permissions) { return Some(Conflict); }
        var granted := AddSelected(clients[c].permissions, q.permissions);
        clients := clients[c := clients[c].(permissions := granted)];
        requests := DenyOf(requests, c, None, true);
        status := Consumed;
      }
      requests := requests[r := q.(status := status)];
      if approve { log := log + [Allowed(r)]; }
      error := None;
    }

    method EditRequestPermissions(now: nat, owner: bool, r: nat, checked: Permissions,
                                  oauth: bool) returns (error: Option<Error>)
      modifies this`requests
      ensures (View(), error) == EditRequest(old(View()), now, owner, r, checked, oauth)
    {
      if !owner { return Some(Unauthorized); }
      if exists p :: p in checked && !Proper(p) { return Some(Invalid); }
      if r >= |requests| || requests[r].gone { return Some(Conflict); }
      var q := requests[r];
      if q.purpose.ForPermissions? || (oauth && q.access.Read? && Mutating(checked)) { return Some(Conflict); }
      if !Open(q) || q.expiresAt <= now { return Some(Conflict); }
      requests := requests[r := q.(permissions := checked, edited := true)];
      error := None;
    }

    method EditClientPermissions(now: nat, owner: bool, c: nat, checked: Permissions,
                                 oauth: bool) returns (error: Option<Error>)
      modifies this`clients, this`requests
      ensures (View(), error) == EditClient(old(View()), now, owner, c, checked, oauth)
    {
      if !owner { return Some(Unauthorized); }
      if exists p :: p in checked && !Proper(p) { return Some(Invalid); }
      if c >= |clients| || (oauth && clients[c].access.Read? && Mutating(checked)) { return Some(Conflict); }
      if !Usable(clients[c], now) { return Some(Conflict); }
      clients := clients[c := clients[c].(permissions := checked)];
      requests := DenyOf(requests, c, None, false);
      error := None;
    }

    /** The OAuth endpoint writes the client row only. */
    method RevokeOAuthToken(now: nat, token: nat, registered: bool)
      modifies this`clients
      ensures View() == RevokeToken(old(View()), now, token, registered)
    {
      var c := Holder(clients, token);
      if c.Some? && registered { clients := clients[c.value := clients[c.value].(revokedAt := Some(now))]; }
    }

    method RevokeClient(now: nat, owner: bool, c: nat) returns (error: Option<Error>)
      modifies this`clients, this`requests
      ensures (View(), error) == Revoke(old(View()), now, owner, c)
    {
      if !owner { return Some(Unauthorized); }
      if c >= |clients| || clients[c].revokedAt.Some? { return Some(NotFound); }
      clients := clients[c := clients[c].(revokedAt := Some(now))];
      requests := DenyOf(requests, c, None, false);
      error := None;
    }
  }
}
