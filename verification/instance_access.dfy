/**
  Access requests and client identities (control-plane/src/instanceAccess.ts).

  Row ids are positions; an expired request row that the service deletes is marked `gone`.  Tokens are numbered as
  they are issued.  A `Permission` set is the JSON of switched-on operations.  `oauth` says whether the row belongs
  to an OAuth token or flow, `owner` whether the caller signed in as the instance owner, `registered` whether the
  holder of a token belongs to the OAuth client that revokes it (control-plane/src/instanceOAuth.ts).
*/
module InstanceAccess {
  import opened Wrappers

  const LIFETIME: nat := 90 * 24 * 60 * 60 * 1000
  const REQUEST_LIFETIME: nat := 10 * 60 * 1000
  const WINDOW: nat := 60000
  const PER_WINDOW: nat := 10
  const QUEUE: nat := 100

  datatype Access = Read | Write

  datatype Category = Content | Settings | Tools

  datatype Operation = CreateOp | ReadOp | UpdateOp | DeleteOp | RunOp

  datatype Permission = Permission(category: Category, operation: Operation)

  type Permissions = set<Permission>

  datatype Client = Client(name: string, credential: nat, access: Access, createdAt: nat, expiresAt: nat,
                           revokedAt: Option<nat>, permissions: Permissions)

  datatype Purpose = ForAccess | ForPermissions

  datatype Status = Pending | Approved | Denied | Consumed

  /** `edited` records that the owner changed what the request asks for. */
  datatype Request = Request(secret: nat, name: string, client: Option<nat>, access: Access, status: Status,
                             createdAt: nat, expiresAt: nat, permissions: Permissions, purpose: Purpose,
                             edited: bool, gone: bool)

  datatype Event = Opened(request: nat, at: nat) | Allowed(request: nat) | Issued(request: nat, client: nat, token: nat)

  datatype State = State(clients: seq<Client>, requests: seq<Request>, window: nat, count: nat, tokens: nat,
                         log: seq<Event>)

  datatype Error = Unauthorized | Forbidden | NotFound | Conflict | Expired | TooMany | Invalid

  const START: State := State([], [], 0, 0, 0, [])

  // ---------------------------------------------------------------- permissions

  predicate Proper(p: Permission) { p.operation.RunOp? ==> p.category.Tools? }

  function Defaults(access: Access): Permissions {
    var reading := {Permission(Content, ReadOp), Permission(Settings, ReadOp)};
    if access.Read? then reading
    else reading + {Permission(Content, CreateOp), Permission(Content, UpdateOp), Permission(Content, DeleteOp),
                    Permission(Settings, CreateOp), Permission(Settings, UpdateOp), Permission(Settings, DeleteOp)}
  }

  predicate Mutating(permissions: Permissions) { exists p :: p in permissions && !p.operation.ReadOp? }

  // ---------------------------------------------------------------- lookups

  predicate Usable(k: Client, now: nat) { k.revokedAt.None? && k.expiresAt > now }

  /** The client that holds the credential, whether or not it has expired. */
  function Holder(clients: seq<Client>, token: nat): (c: Option<nat>)
    ensures c.Some? ==> c.value < |clients| && clients[c.value].credential == token && clients[c.value].revokedAt.None?
    ensures c.None? ==> forall i :: 0 <= i < |clients| ==> clients[i].credential != token || clients[i].revokedAt.Some?
  {
    if |clients| == 0 then None
    else
      var n := |clients| - 1;
      if clients[n].credential == token && clients[n].revokedAt.None? then Some(n) else Holder(clients[..n], token)
  }

  function Authenticate(clients: seq<Client>, token: Option<nat>, now: nat): Option<nat> {
    if token.None? then None
    else
      var c := Holder(clients, token.value);
      if c.Some? && clients[c.value].expiresAt > now then c else None
  }

  predicate Exists(s: State, r: nat) { r < |s.requests| && !s.requests[r].gone }

  predicate Open(q: Request) { !q.gone && (q.status.Pending? || q.status.Approved?) }

  /** Denies the open requests of a client that are not `kept`, and with `accessOnly` only those for access. */
  function DenyOf(requests: seq<Request>, c: nat, kept: Option<nat>, accessOnly: bool): seq<Request> {
    seq(|requests|, i requires 0 <= i < |requests| =>
      var q := requests[i];
      if Open(q) && q.client == Some(c) && kept != Some(i) && (accessOnly ==> q.purpose.ForAccess?)
      then q.(status := Denied) else q)
  }

  // ---------------------------------------------------------------- limits

  function Purge(requests: seq<Request>, now: nat): seq<Request> {
    seq(|requests|, i requires 0 <= i < |requests| =>
      if requests[i].expiresAt <= now then requests[i].(gone := true) else requests[i])
  }

  function CountRows(requests: seq<Request>): nat {
    if |requests| == 0 then 0
    else CountRows(requests[..|requests| - 1]) + if requests[|requests| - 1].gone then 0 else 1
  }

  /** Counts the call, removes expired rows, and says whether another request may be queued. */
  function Limit(s: State, now: nat): (State, Option<Error>) {
    var rolled := if now - s.window >= WINDOW then s.(window := now, count := 0) else s;
    var counted := rolled.(count := rolled.count + 1);
    if counted.count > PER_WINDOW then (counted, Some(TooMany))
    else
      var purged := counted.(requests := Purge(counted.requests, now));
      (purged, if CountRows(purged.requests) >= QUEUE then Some(TooMany) else None)
  }

  function Append(s: State, q: Request): State {
    s.(requests := s.requests + [q], log := s.log + [Opened(|s.requests|, q.createdAt)])
  }

  // ---------------------------------------------------------------- routes

  type Outcome = (State, Result<nat, Error>)

  function RequestAccess(s: State, now: nat, name: string, access: Access, refresh: bool, token: Option<nat>,
                         secret: nat): Outcome {
    var (limited, refused) := Limit(s, now);
    if refused.Some? then (limited, Err(refused.value))
    else
      var previous := if refresh && token.Some? then Holder(limited.clients, token.value) else None;
      if refresh && previous.None? then (limited, Err(Unauthorized))
      else if previous.Some? then
        var k := limited.clients[previous.value];
        var denied := limited.(requests := DenyOf(limited.requests, previous.value, None, false));
        (Append(denied, Request(secret, k.name, previous, k.access, Pending, now, now + REQUEST_LIFETIME, k.permissions,
                                ForAccess, false, false)), Ok(|limited.requests|))
      else
        (Append(limited, Request(secret, name, None, access, Pending, now, now + REQUEST_LIFETIME, Defaults(access),
                                 ForAccess, false, false)), Ok(|limited.requests|))
  }

  function Delta(held: Permissions, asked: seq<Permission>): Permissions { set p | p in asked && p !in held }

  /** The latest open or denied request of the client for exactly this delta. */
  function SameAsk(requests: seq<Request>, c: nat, delta: Permissions, now: nat): (r: Option<nat>)
    ensures r.Some? ==> r.value < |requests|
  {
    if |requests| == 0 then None
    else
      var n := |requests| - 1;
      var q := requests[n];
      if !q.gone && q.client == Some(c) && q.purpose.ForPermissions? && (q.status.Pending? || q.status.Denied?)
         && q.expiresAt > now && q.permissions == delta
      then Some(n) else SameAsk(requests[..n], c, delta, now)
  }

  /** Ok carries the request to wait for; None means that everything asked for is already granted. */
  function RequestPermissions(s: State, now: nat, token: Option<nat>, asked: seq<Permission>, oauth: bool, secret: nat):
    (State, Result<Option<nat>, Error>)
  {
    var c := Authenticate(s.clients, token, now);
    if c.None? then (s, Err(Unauthorized))
    else if |asked| == 0 || |asked| > 13 || exists p :: p in asked && !Proper(p) then (s, Err(Invalid))
    else
      var k := s.clients[c.value];
      var delta := Delta(k.permissions, asked);
      if delta == {} then (s, Ok(None))
      else if oauth && k.access.Read? && Mutating(delta) then (s, Err(Conflict))
      else
        var same := SameAsk(s.requests, c.value, delta, now);
        var next: nat := |s.requests|;
        if same.Some? then (s, Ok(same))
        else
          var (limited, refused) := Limit(s, now);
          if refused.Some? then (limited, Err(refused.value))
          else (Append(limited, Request(secret, k.name, c, k.access, Pending, now, now + REQUEST_LIFETIME, delta,
                                        ForPermissions, false, false)), Ok(Some(next)))
  }

  /** Issues the next token to the request's client, or to a new one. */
  function Issue(s: State, now: nat, r: nat): State
    requires r < |s.requests| && (s.requests[r].client.Some? ==> s.requests[r].client.value < |s.clients|)
  {
    var q := s.requests[r];
    var c := if q.client.Some? then q.client.value else |s.clients|;
    var clients := if q.client.Some?
      then s.clients[c := s.clients[c].(credential := s.tokens, expiresAt := now + LIFETIME,
                                        permissions := q.permissions)]
      else s.clients + [Client(q.name, s.tokens, q.access, now, now + LIFETIME, None, q.permissions)];
    s.(clients := clients,
       requests := DenyOf(s.requests[r := q.(status := Consumed, client := Some(c))], c, Some(r), false),
       tokens := s.tokens + 1,
       log := s.log + [Issued(r, c, s.tokens)])
  }

  /** Ok(None) asks the caller to wait. */
  function ClaimApproved(s: State, now: nat, r: nat): (State, Result<Option<nat>, Error>) {
    if !Exists(s, r) then (s, Err(NotFound))
    else
      var q := s.requests[r];
      if q.purpose.ForPermissions? then (s, Err(Forbidden))
      else if q.expiresAt <= now then (s, Err(Expired))
      else if q.status.Pending? then (s, Ok(None))
      else if !q.status.Approved? then (s, Err(Forbidden))
      else if q.client.Some? && (q.client.value >= |s.clients| || s.clients[q.client.value].revokedAt.Some?)
        then (s, Err(Forbidden))
      else (Issue(s, now, r), Ok(Some(s.tokens)))
  }

  function Claim(s: State, now: nat, r: nat, secret: nat): (State, Result<Option<nat>, Error>) {
    if !Exists(s, r) || s.requests[r].secret != secret then (s, Err(NotFound)) else ClaimApproved(s, now, r)
  }

  /** Approving a permission request adds its delta to the client at once. */
  function Grant(s: State, r: nat, c: nat): State
    requires r < |s.requests| && c < |s.clients|
  {
    s.(clients := s.clients[c := s.clients[c].(permissions := s.clients[c].permissions + s.requests[r].permissions)],
       requests := DenyOf(s.requests, c, None, true)[r := s.requests[r].(status := Consumed)],
       log := s.log + [Allowed(r)])
  }

  function Decide(s: State, now: nat, owner: bool, r: nat, approve: bool, oauth: bool): (State, Option<Error>) {
    if !owner then (s, Some(Unauthorized))
    else if !Exists(s, r) || !s.requests[r].status.Pending? || s.requests[r].expiresAt <= now then (s, Some(Conflict))
    else
      var q := s.requests[r];
      if !approve then (s.(requests := s.requests[r := q.(status := Denied)]), None)
      else if q.purpose.ForAccess? then
        (s.(requests := s.requests[r := q.(status := Approved)], log := s.log + [Allowed(r)]), None)
      else if q.client.None? || q.client.value >= |s.clients| || !Usable(s.clients[q.client.value], now)
        then (s, Some(Conflict))
      else if oauth && s.clients[q.client.value].access.Read? && Mutating(q.permissions) then (s, Some(Conflict))
      else (Grant(s, r, q.client.value), None)
  }

  function EditRequest(s: State, now: nat, owner: bool, r: nat, checked: Permissions, oauth: bool):
    (State, Option<Error>)
  {
    if !owner then (s, Some(Unauthorized))
    else if exists p :: p in checked && !Proper(p) then (s, Some(Invalid))
    else if !Exists(s, r) then (s, Some(Conflict))
    else
      var q := s.requests[r];
      if q.purpose.ForPermissions? then (s, Some(Conflict))
      else if oauth && q.access.Read? && Mutating(checked) then (s, Some(Conflict))
      else if !Open(q) || q.expiresAt <= now then (s, Some(Conflict))
      else (s.(requests := s.requests[r := q.(permissions := checked, edited := true)]), None)
  }

  function EditClient(s: State, now: nat, owner: bool, c: nat, checked: Permissions, oauth: bool):
    (State, Option<Error>)
  {
    if !owner then (s, Some(Unauthorized))
    else if exists p :: p in checked && !Proper(p) then (s, Some(Invalid))
    else if c >= |s.clients| then (s, Some(Conflict))
    else if oauth && s.clients[c].access.Read? && Mutating(checked) then (s, Some(Conflict))
    else if !Usable(s.clients[c], now) then (s, Some(Conflict))
    else (s.(clients := s.clients[c := s.clients[c].(permissions := checked)],
             requests := DenyOf(s.requests, c, None, false)), None)
  }

  function Revoke(s: State, now: nat, owner: bool, c: nat): (State, Option<Error>) {
    if !owner then (s, Some(Unauthorized))
    else if c >= |s.clients| || s.clients[c].revokedAt.Some? then (s, Some(NotFound))
    else (s.(clients := s.clients[c := s.clients[c].(revokedAt := Some(now))],
             requests := DenyOf(s.requests, c, None, false)), None)
  }

  /** The OAuth revocation of a token: it revokes the holder and leaves the holder's requests as they are. */
  function RevokeToken(s: State, now: nat, token: nat, registered: bool): State {
    var c := Holder(s.clients, token);
    if c.None? || !registered then s
    else s.(clients := s.clients[c.value := s.clients[c.value].(revokedAt := Some(now))])
  }

  datatype Op =
    | AskAccess(name: string, access: Access, refresh: bool, token: Option<nat>, secret: nat)
    | AskPermissions(token: Option<nat>, asked: seq<Permission>, oauth: bool, secret: nat)
    | ClaimIt(request: nat, secret: nat)
    | ExchangeIt(request: nat)
    | DecideIt(owner: bool, request: nat, approve: bool, oauth: bool)
    | EditRequestIt(owner: bool, request: nat, checked: Permissions, oauth: bool)
    | EditClientIt(owner: bool, client: nat, checked: Permissions, oauth: bool)
    | RevokeIt(owner: bool, client: nat)
    | RevokeTokenIt(revoked: nat, registered: bool)

  function Step(s: State, now: nat, op: Op): State {
    match op
    case AskAccess(name, access, refresh, token, secret) =>
      RequestAccess(s, now, name, access, refresh, token, secret).0
    case AskPermissions(token, asked, oauth, secret) => RequestPermissions(s, now, token, asked, oauth, secret).0
    case ClaimIt(r, secret) => Claim(s, now, r, secret).0
    case ExchangeIt(r) => ClaimApproved(s, now, r).0
    case DecideIt(owner, r, approve, oauth) => Decide(s, now, owner, r, approve, oauth).0
    case EditRequestIt(owner, r, checked, oauth) => EditRequest(s, now, owner, r, checked, oauth).0
    case EditClientIt(owner, c, checked, oauth) => EditClient(s, now, owner, c, checked, oauth).0
    case RevokeIt(owner, c) => Revoke(s, now, owner, c).0
    case RevokeTokenIt(token, registered) => RevokeToken(s, now, token, registered)
  }
}
