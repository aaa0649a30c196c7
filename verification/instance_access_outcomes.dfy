/** Exactly when each access route succeeds, and everything it writes when it does. */
module InstanceAccessOutcomes {
  import opened Wrappers
  import opened InstanceAccess
  import opened InstanceAccessProofs

  // ---------------------------------------------------------------- rows

  /** The client holds this credential and is not revoked; it may have expired. */
  predicate Holds(k: Client, token: nat) { k.credential == token && k.revokedAt.None? }

  ghost predicate SomeoneHolds(clients: seq<Client>, token: nat) {
    exists c :: 0 <= c < |clients| && Holds(clients[c], token)
  }

  /** The row is untouched, or denied if `when`. */
  ghost predicate DeniedIf(q: Request, p: Request, when: bool) { p == if when then q.(status := Denied) else q }

  predicate OpenFor(q: Request, c: nat) { Open(q) && q.client == Some(c) }

  /** A new request removes expired rows, and a renewal closes the open requests of its client. */
  ghost predicate Swept(q: Request, p: Request, now: nat, renewed: Option<nat>) {
    if q.expiresAt <= now then p == q.(gone := true)
    else DeniedIf(q, p, renewed.Some? && OpenFor(q, renewed.value))
  }

  ghost predicate AllSwept(before: seq<Request>, after: seq<Request>, now: nat, renewed: Option<nat>) {
    |after| >= |before| && forall i :: 0 <= i < |before| ==> Swept(before[i], after[i], now, renewed)
  }

  ghost predicate AllDeniedOf(before: seq<Request>, after: seq<Request>, c: nat) {
    |after| == |before| && forall i :: 0 <= i < |before| ==> DeniedIf(before[i], after[i], OpenFor(before[i], c))
  }

  ghost predicate OnlyClient(before: seq<Client>, after: seq<Client>, c: nat) {
    |before| <= |after| && forall d :: 0 <= d < |before| && d != c ==> after[d] == before[d]
  }

  ghost predicate OnlyRequest(before: seq<Request>, after: seq<Request>, r: nat) {
    |after| == |before| && forall i :: 0 <= i < |before| && i != r ==> after[i] == before[i]
  }

  // ---------------------------------------------------------------- the queue's limits

  /** The rows a request finds in the queue, expired ones not counted. */
  function Queued(requests: seq<Request>, now: nat): set<nat> {
    set i: nat | i < |requests| && !requests[i].gone && requests[i].expiresAt > now
  }

  /** The tenth call in a minute is still served, and the hundredth row is the last. */
  ghost predicate Admits(s: State, now: nat) {
    && (now - s.window >= 60000 || s.count < 10)
    && |Queued(s.requests, now)| < 100
  }

  lemma {:induction false} CountsQueued(requests: seq<Request>, now: nat)
    ensures CountRows(Purge(requests, now)) == |Queued(requests, now)|
  {
    if |requests| == 0 {
      assert Queued(requests, now) == {};
    } else {
      var n := |requests| - 1;
      CountsQueued(requests[..n], now);
      assert Purge(requests, now)[..n] == Purge(requests[..n], now);
      if !requests[n].gone && requests[n].expiresAt > now {
        assert Queued(requests, now) == Queued(requests[..n], now) + {n};
      } else {
        assert Queued(requests, now) == Queued(requests[..n], now);
      }
    }
  }

  lemma LimitIff(s: State, now: nat)
    ensures var (t, refused) := Limit(s, now);
      && (refused.None? <==> Admits(s, now)) && (refused.Some? ==> refused == Some(TooMany))
      && t == s.(requests := t.requests, window := t.window, count := t.count)
      && (if now - s.window >= 60000 then t.window == now && t.count == 1
          else t.window == s.window && t.count == s.count + 1)
      && (refused.None? ==> |t.requests| == |s.requests| && AllSwept(s.requests, t.requests, now, None))
  {
    CountsQueued(s.requests, now);
  }

  // ---------------------------------------------------------------- asking

  /** A new row closes the list, and only the log, the limits and the swept rows changed besides it. */
  ghost predicate Queues(s: State, t: State, now: nat, renewed: Option<nat>, q: Request) {
    && |t.requests| == |s.requests| + 1 && t.requests[|s.requests|] == q
    && AllSwept(s.requests, t.requests, now, renewed)
    && t.clients == s.clients && t.tokens == s.tokens && t.log == s.log + [Opened(|s.requests|, now)]
  }

  /** A request is queued exactly if the limits admit it and a renewal proves a credential that was not revoked. */
  lemma AccessAskedIff(s: State, now: nat, name: string, access: Access, refresh: bool, token: Option<nat>, secret: nat)
    ensures var (t, result) := RequestAccess(s, now, name, access, refresh, token, secret);
      var proven := token.Some? && SomeoneHolds(s.clients, token.value);
      && (result.Ok? <==> Admits(s, now) && (refresh ==> proven))
      && (result == Err(TooMany) <==> !Admits(s, now))
      && (result == Err(Unauthorized) <==> Admits(s, now) && refresh && !proven)
      && (result.Ok? ==> result == Ok(|s.requests|))
      && (result.Err? ==> t.clients == s.clients && |t.requests| == |s.requests| && t.log == s.log)
  {
    LimitIff(s, now);
  }

  /** A fresh request asks for the defaults of the access it names, and belongs to no client yet. */
  lemma FreshRequestQueued(s: State, now: nat, name: string, access: Access, token: Option<nat>, secret: nat)
    requires Admits(s, now)
    ensures Queues(s, RequestAccess(s, now, name, access, false, token, secret).0, now, None,
                   Request(secret, name, None, access, Pending, now, now + 10 * 60 * 1000, Defaults(access), ForAccess,
                           false, false))
  {
    LimitIff(s, now);
  }

  /** A renewal asks for what its client holds, whatever the caller named, and closes the client's other requests. */
  lemma RenewalQueued(s: State, now: nat, name: string, access: Access, token: nat, secret: nat) returns (c: nat)
    requires Admits(s, now) && SomeoneHolds(s.clients, token)
    ensures c < |s.clients| && Holds(s.clients[c], token)
    ensures var k := s.clients[c];
      Queues(s, RequestAccess(s, now, name, access, true, Some(token), secret).0, now, Some(c),
             Request(secret, k.name, Some(c), k.access, Pending, now, now + 10 * 60 * 1000, k.permissions, ForAccess,
                     false, false))
  {
    LimitIff(s, now);
    c := Holder(s.clients, token).value;
    var limited := Limit(s, now).0;
    SweptThenDenied(s.requests, limited.requests, now, c);
    var denied := limited.(requests := DenyOf(limited.requests, c, None, false));
    var k := s.clients[c];
    var q := Request(secret, k.name, Some(c), k.access, Pending, now, now + REQUEST_LIFETIME, k.permissions, ForAccess,
                     false, false);
    RenewalAppends(s, now, name, access, token, secret, c, denied, q);
    AppendQueues(s, denied, now, Some(c), q);
  }

  lemma RenewalAppends(s: State, now: nat, name: string, access: Access, token: nat, secret: nat, c: nat, denied: State,
                       q: Request)
    requires Limit(s, now).1.None? && Holder(s.clients, token) == Some(c)
    requires var limited := Limit(s, now).0; denied == limited.(requests := DenyOf(limited.requests, c, None, false))
    requires var k := s.clients[c];
      q == Request(secret, k.name, Some(c), k.access, Pending, now, now + REQUEST_LIFETIME, k.permissions, ForAccess,
                   false, false)
    ensures RequestAccess(s, now, name, access, true, Some(token), secret).0 == Append(denied, q)
  {
  }

  lemma AppendQueues(s: State, denied: State, now: nat, renewed: Option<nat>, q: Request)
    requires |denied.requests| == |s.requests| && AllSwept(s.requests, denied.requests, now, renewed)
    requires denied.clients == s.clients && denied.tokens == s.tokens && denied.log == s.log && q.createdAt == now
    ensures Queues(s, Append(denied, q), now, renewed, q)
  {
    SweptPrefix(s.requests, denied.requests, Append(denied, q).requests, now, renewed);
  }

  lemma SweptThenDenied(requests: seq<Request>, purged: seq<Request>, now: nat, c: nat)
    requires |purged| == |requests| && AllSwept(requests, purged, now, None)
    ensures AllSwept(requests, DenyOf(purged, c, None, false), now, Some(c))
  {
    forall i | 0 <= i < |requests| ensures Swept(requests[i], DenyOf(purged, c, None, false)[i], now, Some(c)) {
      assert Swept(requests[i], purged[i], now, None);
    }
  }

  lemma SweptPrefix(before: seq<Request>, after: seq<Request>, longer: seq<Request>, now: nat, renewed: Option<nat>)
    requires AllSwept(before, after, now, renewed) && after <= longer
    ensures AllSwept(before, longer, now, renewed)
  {
    forall i | 0 <= i < |before| ensures Swept(before[i], longer[i], now, renewed) {
      assert Swept(before[i], after[i], now, renewed) && longer[i] == after[i];
    }
  }

  // ---------------------------------------------------------------- asking for more

  /** The delta: what was asked for and is not held. */
  ghost predicate IsMissing(held: Permissions, asked: seq<Permission>, delta: Permissions) {
    forall p :: p in delta <==> p in asked && p !in held
  }

  /** Between one and thirteen permissions, and `run` only for tools. */
  ghost predicate WellAsked(asked: seq<Permission>) {
    1 <= |asked| <= 13 && forall p :: p in asked && p.operation.RunOp? ==> p.category.Tools?
  }

  /** This row asks for the same delta and is still to be reviewed, or was denied. */
  ghost predicate Asks(q: Request, c: nat, held: Permissions, asked: seq<Permission>, now: nat) {
    && !q.gone && q.client == Some(c) && q.purpose.ForPermissions? && (q.status.Pending? || q.status.Denied?)
    && q.expiresAt > now && IsMissing(held, asked, q.permissions)
  }

  ghost predicate Changes(held: Permissions, asked: seq<Permission>) {
    exists p :: p in asked && p !in held && !p.operation.ReadOp?
  }

  /** A client that signs in with this token. */
  ghost predicate SignedIn(s: State, now: nat, token: Option<nat>, c: nat) {
    Authenticate(s.clients, token, now) == Some(c)
  }

  /** After any run a token signs in exactly the client that holds it, and until it expires. */
  lemma SignsInIffLive(steps: seq<Stamped>, now: nat, token: nat, c: nat)
    ensures var clients := Run(START, steps).clients;
      SignedIn(Run(START, steps), now, Some(token), c) <==>
      c < |clients| && Holds(clients[c], token) && clients[c].expiresAt > now
  {
    RunOk(steps);
    var s := Run(START, steps);
    if c < |s.clients| && Holds(s.clients[c], token) { HolderIs(s, c); }
  }

  lemma {:induction false} SameAskIs(requests: seq<Request>, c: nat, held: Permissions, asked: seq<Permission>,
                                     now: nat)
    ensures var r := SameAsk(requests, c, Delta(held, asked), now);
      && (r.Some? <==> exists i :: 0 <= i < |requests| && Asks(requests[i], c, held, asked, now))
      && (r.Some? ==>
            && Asks(requests[r.value], c, held, asked, now)
            && forall i :: r.value < i < |requests| ==> !Asks(requests[i], c, held, asked, now))
  {
    if |requests| > 0 {
      var n := |requests| - 1;
      SameAskIs(requests[..n], c, held, asked, now);
      AsksDelta(requests[n], c, held, asked, now);
    }
  }

  lemma AsksDelta(q: Request, c: nat, held: Permissions, asked: seq<Permission>, now: nat)
    ensures IsMissing(held, asked, q.permissions) <==> q.permissions == Delta(held, asked)
  {
  }

  /** What a well-formed call of a signed-in client is answered with. */
  lemma PermissionsAskedIff(s: State, now: nat, token: Option<nat>, asked: seq<Permission>, oauth: bool, secret: nat,
                            c: nat)
    requires SignedIn(s, now, token, c) && c < |s.clients|
    ensures var (t, result) := RequestPermissions(s, now, token, asked, oauth, secret);
      var k := s.clients[c];
      var held := forall p :: p in asked ==> p in k.permissions;
      var readOnly := oauth && k.access.Read? && Changes(k.permissions, asked);
      var known := exists i :: 0 <= i < |s.requests| && Asks(s.requests[i], c, k.permissions, asked, now);
      && (result == Err(Invalid) <==> !WellAsked(asked))
      && (result == Ok(None) <==> WellAsked(asked) && held)
      && (result == Err(Conflict) <==> WellAsked(asked) && !held && readOnly)
      && (result == Err(TooMany) <==> WellAsked(asked) && !held && !readOnly && !known && !Admits(s, now))
      && (result.Ok? && result.value.Some? <==>
            WellAsked(asked) && !held && !readOnly && (known || Admits(s, now)))
      && (result.Err? || held || known ==> t.clients == s.clients && |t.requests| == |s.requests| && t.log == s.log)
  {
    var k := s.clients[c];
    LimitIff(s, now);
    SameAskIs(s.requests, c, k.permissions, asked, now);
    MutatingIff(k.permissions, asked);
    DeltaEmptyIff(k.permissions, asked);
  }

  lemma MutatingIff(held: Permissions, asked: seq<Permission>)
    ensures Mutating(Delta(held, asked)) <==> Changes(held, asked)
  {
    if Changes(held, asked) {
      var p :| p in asked && p !in held && !p.operation.ReadOp?;
      assert p in Delta(held, asked);
    }
  }

  lemma DeltaEmptyIff(held: Permissions, asked: seq<Permission>)
    ensures Delta(held, asked) == {} <==> forall p :: p in asked ==> p in held
  {
    forall p | p in asked && p !in held ensures p in Delta(held, asked) { }
  }

  /** The answer names the latest earlier request for the same delta, or a new row that asks for just the delta. */
  lemma PermissionsQueued(s: State, now: nat, token: Option<nat>, asked: seq<Permission>, oauth: bool, secret: nat,
                          c: nat)
    requires SignedIn(s, now, token, c) && c < |s.clients|
    requires var result := RequestPermissions(s, now, token, asked, oauth, secret).1; result.Ok? && result.value.Some?
    ensures var (t, result) := RequestPermissions(s, now, token, asked, oauth, secret);
      var k, r := s.clients[c], result.value.value;
      if exists i :: 0 <= i < |s.requests| && Asks(s.requests[i], c, k.permissions, asked, now)
      then t == s && r < |s.requests| && Asks(s.requests[r], c, k.permissions, asked, now)
      else r == |s.requests| && r < |t.requests| && IsMissing(k.permissions, asked, t.requests[r].permissions)
           && Queues(s, t, now, None,
                     Request(secret, k.name, Some(c), k.access, Pending, now, now + 10 * 60 * 1000,
                             t.requests[r].permissions, ForPermissions, false, false))
  {
    LimitIff(s, now);
    SameAskIs(s.requests, c, s.clients[c].permissions, asked, now);
  }

  // ---------------------------------------------------------------- claiming

  predicate Gone(s: State, r: nat) { r >= |s.requests| || s.requests[r].gone }

  ghost predicate Claimable(s: State, now: nat, r: nat) {
    && !Gone(s, r) && s.requests[r].purpose.ForAccess? && s.requests[r].expiresAt > now
    && s.requests[r].status.Approved?
    && (s.requests[r].client.Some? ==>
          s.requests[r].client.value < |s.clients| && s.clients[s.requests[r].client.value].revokedAt.None?)
  }

  /** A claim is answered with a credential, told to wait, or refused; only the credential changes anything. */
  lemma ClaimedIff(s: State, now: nat, r: nat, secret: nat)
    ensures var (t, result) := Claim(s, now, r, secret);
      var mine := !Gone(s, r) && s.requests[r].secret == secret;
      var live := mine && s.requests[r].purpose.ForAccess? && s.requests[r].expiresAt > now;
      && (result == Err(NotFound) <==> !mine)
      && (result == Err(Expired) <==> mine && s.requests[r].purpose.ForAccess? && s.requests[r].expiresAt <= now)
      && (result == Ok(None) <==> live && s.requests[r].status.Pending?)
      && (result.Ok? && result.value.Some? <==> mine && Claimable(s, now, r))
      && (result.Ok? && result.value.Some? ==> result == Ok(Some(s.tokens)))
      && (result.Err? || result == Ok(None) ==> t == s)
  {
  }

  /** A claim consumes its request, closes the client's other open requests, and issues the next credential. */
  lemma ClaimWrites(s: State, now: nat, r: nat)
    requires Claimable(s, now, r)
    ensures var t, q := ClaimApproved(s, now, r).0, s.requests[r];
      var c := if q.client.Some? then q.client.value else |s.clients|;
      && OnlyClient(s.clients, t.clients, c)
      && t.tokens == s.tokens + 1 && t.log == s.log + [Issued(r, c, s.tokens)]
      && c < |t.clients| && |t.clients| == (if q.client.Some? then |s.clients| else |s.clients| + 1)
      && (q.client.Some? ==>
            t.clients[c] == s.clients[c].(credential := s.tokens, expiresAt := now + 90 * 24 * 60 * 60 * 1000,
                                          permissions := q.permissions))
      && (q.client.None? ==>
            t.clients[c] == Client(q.name, s.tokens, q.access, now, now + 90 * 24 * 60 * 60 * 1000, None,
                                   q.permissions))
      && |t.requests| == |s.requests| && t.requests[r] == q.(status := Consumed, client := Some(c))
      && forall i :: 0 <= i < |s.requests| && i != r ==>
           DeniedIf(s.requests[i], t.requests[i], OpenFor(s.requests[i], c))
  {
  }

  // ---------------------------------------------------------------- the owner's routes

  ghost predicate Reviewable(s: State, now: nat, r: nat) {
    !Gone(s, r) && s.requests[r].status.Pending? && s.requests[r].expiresAt > now
  }

  predicate LiveClient(s: State, c: Option<nat>, now: nat) {
    c.Some? && c.value < |s.clients| && s.clients[c.value].revokedAt.None? && s.clients[c.value].expiresAt > now
  }

  predicate ReadsOnly(permissions: Permissions) { forall p :: p in permissions ==> p.operation.ReadOp? }

  /** A decision stands exactly if the owner takes it in time and, for more permissions, the client may hold them. */
  lemma DecidedIff(s: State, now: nat, owner: bool, r: nat, approve: bool, oauth: bool)
    ensures var (t, refused) := Decide(s, now, owner, r, approve, oauth);
      && (refused == Some(Unauthorized) <==> !owner)
      && (refused.None? <==>
            && owner && Reviewable(s, now, r)
            && (approve && s.requests[r].purpose.ForPermissions? ==>
                  && LiveClient(s, s.requests[r].client, now)
                  && (oauth && s.clients[s.requests[r].client.value].access.Read? ==>
                        ReadsOnly(s.requests[r].permissions))))
      && (refused.Some? ==> t == s && (refused == Some(Unauthorized) || refused == Some(Conflict)))
  {
  }

  /** A decision moves its row; approving permissions also grants them and closes the client's open renewals. */
  lemma DecisionWrites(s: State, now: nat, r: nat, approve: bool, oauth: bool)
    requires Decide(s, now, true, r, approve, oauth).1.None?
    ensures var t := Decide(s, now, true, r, approve, oauth).0;
      && r < |s.requests| == |t.requests|
      && var q := s.requests[r];
      && t.requests[r] == q.(status := if !approve then Denied else if q.purpose.ForAccess? then Approved else Consumed)
      && t.log == s.log + (if approve then [Allowed(r)] else []) && t.tokens == s.tokens
      && t.window == s.window && t.count == s.count
      && (!approve || q.purpose.ForAccess? ==> t.clients == s.clients && OnlyRequest(s.requests, t.requests, r))
      && (approve && q.purpose.ForPermissions? ==> Grants(s, t, r))
  {
  }

  ghost predicate Grants(s: State, t: State, r: nat)
    requires r < |s.requests| == |t.requests|
  {
    var q := s.requests[r];
    && q.client.Some? && q.client.value < |s.clients| == |t.clients|
    && var c := q.client.value;
    && OnlyClient(s.clients, t.clients, c)
    && t.clients[c] == s.clients[c].(permissions := t.clients[c].permissions)
    && (forall p :: p in t.clients[c].permissions <==> p in s.clients[c].permissions || p in q.permissions)
    && forall i :: 0 <= i < |s.requests| && i != r ==>
         DeniedIf(s.requests[i], t.requests[i], OpenFor(s.requests[i], c) && s.requests[i].purpose.ForAccess?)
  }

  ghost predicate ProperAll(checked: Permissions) {
    forall p :: p in checked && p.operation.RunOp? ==> p.category.Tools?
  }

  /** The owner may edit an open, unexpired request for access, and the edit replaces what it asks for. */
  lemma RequestEditedIff(s: State, now: nat, owner: bool, r: nat, checked: Permissions, oauth: bool)
    ensures var (t, refused) := EditRequest(s, now, owner, r, checked, oauth);
      && (refused.None? <==>
            && owner && ProperAll(checked) && !Gone(s, r) && s.requests[r].purpose.ForAccess?
            && (s.requests[r].status.Pending? || s.requests[r].status.Approved?) && s.requests[r].expiresAt > now
            && (oauth && s.requests[r].access.Read? ==> ReadsOnly(checked)))
      && (refused.None? ==>
            && r < |t.requests| && OnlyRequest(s.requests, t.requests, r)
            && t.requests[r] == s.requests[r].(permissions := checked, edited := true)
            && t == s.(requests := t.requests))
      && (refused.Some? ==> t == s)
  {
  }

  /** The owner may edit a live client, and the edit replaces its permissions and closes its open requests. */
  lemma ClientEditedIff(s: State, now: nat, owner: bool, c: nat, checked: Permissions, oauth: bool)
    ensures var (t, refused) := EditClient(s, now, owner, c, checked, oauth);
      && (refused.None? <==>
            && owner && ProperAll(checked) && LiveClient(s, Some(c), now)
            && (oauth && s.clients[c].access.Read? ==> ReadsOnly(checked)))
      && (refused.None? ==>
            && c < |t.clients| == |s.clients| && OnlyClient(s.clients, t.clients, c)
            && t.clients[c] == s.clients[c].(permissions := checked)
            && AllDeniedOf(s.requests, t.requests, c) && t == s.(clients := t.clients, requests := t.requests))
      && (refused.Some? ==> t == s)
  {
  }

  /** The owner may revoke any client that is not revoked, which closes its open requests. */
  lemma ClientRevokedIff(s: State, now: nat, owner: bool, c: nat)
    ensures var (t, refused) := Revoke(s, now, owner, c);
      && (refused.None? <==> owner && c < |s.clients| && s.clients[c].revokedAt.None?)
      && (refused.None? ==>
            && c < |t.clients| == |s.clients| && OnlyClient(s.clients, t.clients, c)
            && t.clients[c] == s.clients[c].(revokedAt := Some(now))
            && AllDeniedOf(s.requests, t.requests, c) && t == s.(clients := t.clients, requests := t.requests))
      && (refused.Some? ==> t == s)
  {
  }

  /** An OAuth revocation revokes the holder of the token, expired or not, and leaves every request alone. */
  lemma TokenRevokedIff(s: State, now: nat, token: nat, registered: bool)
    ensures var t := RevokeToken(s, now, token, registered);
      && t == s.(clients := t.clients)
      && (t != s <==> registered && SomeoneHolds(s.clients, token))
      && (registered && SomeoneHolds(s.clients, token) ==>
            exists c :: 0 <= c < |s.clients| == |t.clients| && Holds(s.clients[c], token)
              && t.clients == s.clients[c := s.clients[c].(revokedAt := Some(now))])
  {
    if registered && SomeoneHolds(s.clients, token) {
      var c := Holder(s.clients, token).value;
      assert RevokeToken(s, now, token, registered).clients[c] != s.clients[c];
    }
  }
}
