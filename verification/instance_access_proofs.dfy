/** No credential without approval, one a request, none after revocation, and renewals that change nothing unseen. */
module InstanceAccessProofs {
  import opened InstanceAccess
  import opened Wrappers

  // ---------------------------------------------------------------- the invariant

  /** An unedited open renewal asks for what its client holds. */
  ghost predicate RequestOk(clients: seq<Client>, log: seq<Event>, r: nat, q: Request) {
    && (q.client.Some? ==> q.client.value < |clients|)
    && (q.purpose.ForPermissions? ==> q.client.Some? && !q.status.Approved?)
    && (q.status.Approved? || q.status.Consumed? ==> Allowed(r) in log)
    && (Open(q) && q.client.Some? && q.purpose.ForAccess? && !q.edited ==>
          q.permissions == clients[q.client.value].permissions)
  }

  ghost predicate RequestsOk(clients: seq<Client>, log: seq<Event>, requests: seq<Request>) {
    forall r :: 0 <= r < |requests| ==> RequestOk(clients, log, r, requests[r])
  }

  predicate Renews(q: Request, c: nat) { Open(q) && q.purpose.ForAccess? && q.client == Some(c) }

  ghost predicate OneRenewal(requests: seq<Request>) {
    forall i, k, c :: 0 <= i < k < |requests| && Renews(requests[i], c) ==> !Renews(requests[k], c)
  }

  ghost predicate CredentialsOk(s: State) {
    && (forall c :: 0 <= c < |s.clients| ==> s.clients[c].credential < s.tokens)
    && (forall c, d :: 0 <= c < d < |s.clients| ==> s.clients[c].credential != s.clients[d].credential)
  }

  ghost predicate EventOk(s: State, e: Event) {
    match e
    case Opened(r, _) => r < |s.requests|
    case Allowed(r) => r < |s.requests|
    case Issued(r, c, token) =>
      r < |s.requests| && s.requests[r].status.Consumed? && c < |s.clients| && token < s.tokens
  }

  /** An issue follows the approval of its request, and no request is issued twice. */
  ghost predicate IssuesOk(log: seq<Event>) {
    && (forall i :: 0 <= i < |log| && log[i].Issued? ==> Allowed(log[i].request) in log[..i])
    && (forall i, k :: 0 <= i < k < |log| && log[i].Issued? && log[k].Issued? ==> log[i].request != log[k].request)
  }

  ghost predicate EventsOk(s: State) { forall i :: 0 <= i < |s.log| ==> EventOk(s, s.log[i]) }

  ghost predicate Inv(s: State) {
    && RequestsOk(s.clients, s.log, s.requests) && OneRenewal(s.requests) && CredentialsOk(s) && EventsOk(s)
    && IssuesOk(s.log)
  }

  // ---------------------------------------------------------------- how rows move

  predicate Later(before: Status, after: Status) {
    match before
    case Pending => true
    case Approved => !after.Pending?
    case Denied => after.Denied?
    case Consumed => after.Consumed?
  }

  ghost predicate RequestMoves(q: Request, p: Request) {
    && Later(q.status, p.status) && (q.gone ==> p.gone) && p.purpose == q.purpose && p.secret == q.secret
    && (q.client.Some? ==> p.client == q.client) && p.expiresAt == q.expiresAt
  }

  ghost predicate ClientMoves(k: Client, l: Client) {
    k.revokedAt.Some? ==> l == k
  }

  ghost predicate Grows(s: State, t: State) {
    && |s.clients| <= |t.clients| && |s.requests| <= |t.requests| && s.log <= t.log && s.tokens <= t.tokens
    && (forall c :: 0 <= c < |s.clients| ==> ClientMoves(s.clients[c], t.clients[c]))
    && (forall r :: 0 <= r < |s.requests| ==> RequestMoves(s.requests[r], t.requests[r]))
  }

  ghost predicate Good(s: State, t: State) { Inv(t) && Grows(s, t) }

  lemma GrowsTransitive(s: State, t: State, u: State)
    requires Grows(s, t) && Grows(t, u)
    ensures Grows(s, u)
  {
    assert u.log[..|s.log|] == u.log[..|t.log|][..|s.log|];
    forall c | 0 <= c < |s.clients| ensures ClientMoves(s.clients[c], u.clients[c]) {
      assert ClientMoves(s.clients[c], t.clients[c]) && ClientMoves(t.clients[c], u.clients[c]);
    }
    forall r | 0 <= r < |s.requests| ensures RequestMoves(s.requests[r], u.requests[r]) {
      assert RequestMoves(s.requests[r], t.requests[r]) && RequestMoves(t.requests[r], u.requests[r]);
    }
  }

  // ---------------------------------------------------------------- denying and purging

  /** Rows only close: each stays as it is, is denied while open, or goes. */
  ghost predicate Closes(before: seq<Request>, after: seq<Request>) {
    && |after| == |before|
    && forall r :: 0 <= r < |before| ==>
      || after[r] == before[r] || (Open(before[r]) && after[r] == before[r].(status := Denied))
      || after[r] == before[r].(gone := true)
  }

  lemma DenyCloses(requests: seq<Request>, c: nat, kept: Option<nat>, accessOnly: bool)
    ensures Closes(requests, DenyOf(requests, c, kept, accessOnly))
  {
  }

  lemma PurgeCloses(requests: seq<Request>, now: nat)
    ensures Closes(requests, Purge(requests, now))
  {
  }

  lemma ClosesOk(clients: seq<Client>, log: seq<Event>, before: seq<Request>, after: seq<Request>)
    requires RequestsOk(clients, log, before) && OneRenewal(before) && Closes(before, after)
    ensures RequestsOk(clients, log, after) && OneRenewal(after)
  {
    forall r | 0 <= r < |after| ensures RequestOk(clients, log, r, after[r]) {
      assert RequestOk(clients, log, r, before[r]);
    }
    forall i, k, c | 0 <= i < k < |after| && Renews(after[i], c) ensures !Renews(after[k], c) {
      assert Renews(before[i], c);
      assert !Renews(before[k], c);
    }
  }

  lemma ClosesGrows(s: State, t: State)
    requires Closes(s.requests, t.requests) && t == s.(requests := t.requests, window := t.window, count := t.count)
    requires EventsOk(s)
    ensures Grows(s, t) && EventsOk(t)
  {
    forall i | 0 <= i < |t.log| ensures EventOk(t, t.log[i]) { assert EventOk(s, s.log[i]); }
  }

  lemma CloseOk(s: State, t: State)
    requires Inv(s) && Closes(s.requests, t.requests)
    requires t == s.(requests := t.requests, window := t.window, count := t.count)
    ensures Good(s, t)
  {
    ClosesOk(s.clients, s.log, s.requests, t.requests);
    ClosesGrows(s, t);
  }

  lemma LimitOk(s: State, now: nat)
    requires Inv(s)
    ensures Good(s, Limit(s, now).0) && Closes(s.requests, Limit(s, now).0.requests)
    ensures var t := Limit(s, now).0; t == s.(requests := t.requests, window := t.window, count := t.count)
  {
    PurgeCloses(s.requests, now);
    CloseOk(s, Limit(s, now).0);
  }

  // ---------------------------------------------------------------- opening a request

  lemma AppendOk(s: State, q: Request)
    requires Inv(s) && RequestOk(s.clients, s.log, |s.requests|, q)
    requires q.client.Some? && q.purpose.ForAccess? ==>
             forall i :: 0 <= i < |s.requests| ==> !Renews(s.requests[i], q.client.value)
    ensures Good(s, Append(s, q))
  {
    var t := Append(s, q);
    AppendRequests(s, q);
    forall i | 0 <= i < |t.log| ensures EventOk(t, t.log[i]) {
      if i < |s.log| { assert EventOk(s, s.log[i]); }
    }
    AppendIssues(s.log, Opened(|s.requests|, q.createdAt));
  }

  lemma AppendRequests(s: State, q: Request)
    requires RequestsOk(s.clients, s.log, s.requests) && RequestOk(s.clients, s.log, |s.requests|, q)
    ensures var t := Append(s, q); RequestsOk(t.clients, t.log, t.requests)
  {
    var t := Append(s, q);
    forall r | 0 <= r < |t.requests| ensures RequestOk(t.clients, t.log, r, t.requests[r]) {
      if r < |s.requests| { assert RequestOk(s.clients, s.log, r, s.requests[r]); }
    }
  }

  /** An event that issues nothing, or issues a request allowed and not issued before, keeps the log in order. */
  lemma AppendIssues(log: seq<Event>, e: Event)
    requires IssuesOk(log)
    requires e.Issued? ==>
             Allowed(e.request) in log && forall i :: 0 <= i < |log| && log[i].Issued? ==> log[i].request != e.request
    ensures IssuesOk(log + [e])
  {
    var after := log + [e];
    forall i | 0 <= i < |after| && after[i].Issued? ensures Allowed(after[i].request) in after[..i] {
      assert after[..i] == log[..i];
      if i == |log| { assert log[..i] == log; }
    }
  }

  /** A renewal first closes everything its client has open. */
  lemma RenewOk(s: State, now: nat, c: nat, secret: nat)
    requires Inv(s) && c < |s.clients| && s.clients[c].revokedAt.None?
    ensures var k := s.clients[c];
      Good(s, Append(s.(requests := DenyOf(s.requests, c, None, false)),
                     Request(secret, k.name, Some(c), k.access, Pending, now, now + REQUEST_LIFETIME, k.permissions,
                             ForAccess, false, false)))
  {
    var k := s.clients[c];
    var denied := s.(requests := DenyOf(s.requests, c, None, false));
    var q := Request(secret, k.name, Some(c), k.access, Pending, now, now + REQUEST_LIFETIME, k.permissions, ForAccess,
                     false, false);
    DenyCloses(s.requests, c, None, false);
    CloseOk(s, denied);
    AppendOk(denied, q);
    GrowsTransitive(s, denied, Append(denied, q));
  }

  lemma AskNewOk(s: State, now: nat, name: string, access: Access, secret: nat)
    requires Inv(s)
    ensures Good(s, Append(s, Request(secret, name, None, access, Pending, now, now + REQUEST_LIFETIME,
                                      Defaults(access), ForAccess, false, false)))
  {
    AppendOk(s, Request(secret, name, None, access, Pending, now, now + REQUEST_LIFETIME, Defaults(access), ForAccess,
                        false, false));
  }

  lemma RequestAccessOk(s: State, now: nat, name: string, access: Access, refresh: bool, token: Option<nat>,
                        secret: nat)
    requires Inv(s)
    ensures Good(s, RequestAccess(s, now, name, access, refresh, token, secret).0)
  {
    var t := RequestAccess(s, now, name, access, refresh, token, secret).0;
    var (limited, refused) := Limit(s, now);
    LimitOk(s, now);
    if t != limited {
      var previous := if refresh && token.Some? then Holder(limited.clients, token.value) else None;
      if previous.Some? {
        RenewOk(limited, now, previous.value, secret);
      } else {
        AskNewOk(limited, now, name, access, secret);
      }
      GrowsTransitive(s, limited, t);
    }
  }

  lemma RequestPermissionsOk(s: State, now: nat, token: Option<nat>, asked: seq<Permission>, oauth: bool, secret: nat)
    requires Inv(s)
    ensures Good(s, RequestPermissions(s, now, token, asked, oauth, secret).0)
  {
    var t := RequestPermissions(s, now, token, asked, oauth, secret).0;
    var c := Authenticate(s.clients, token, now);
    if c.Some? {
      var k := s.clients[c.value];
      var (limited, refused) := Limit(s, now);
      LimitOk(s, now);
      var q := Request(secret, k.name, c, k.access, Pending, now, now + REQUEST_LIFETIME, Delta(k.permissions, asked),
                       ForPermissions, false, false);
      assert t == s || t == limited || t == Append(limited, q);
      AppendOk(limited, q);
      GrowsTransitive(s, limited, Append(limited, q));
    }
  }

  // ---------------------------------------------------------------- changing one row

  /** One request moves on without touching clients: it is approved, denied or edited. */
  lemma SetRequestOk(s: State, t: State, r: nat, q: Request)
    requires Inv(s) && r < |s.requests| && Open(s.requests[r]) && RequestMoves(s.requests[r], q) && !q.status.Consumed?
    requires q.client == s.requests[r].client && q.gone == s.requests[r].gone
    requires t.requests == s.requests[r := q] && s.log <= t.log && RequestOk(t.clients, t.log, r, q)
    requires t == s.(requests := t.requests, log := t.log)
    requires t.log == s.log || t.log == s.log + [Allowed(r)]
    ensures Good(s, t)
  {
    if t.log != s.log { AppendIssues(s.log, Allowed(r)); }
    forall i | 0 <= i < |t.requests| ensures RequestOk(t.clients, t.log, i, t.requests[i]) {
      if i != r { assert RequestOk(s.clients, s.log, i, s.requests[i]); AllowedStays(s.log, t.log, i); }
    }
    SetEvents(s, t, r, q);
    SetRenewal(s, r, q);
  }

  lemma AllowedStays(before: seq<Event>, after: seq<Event>, r: nat)
    requires before <= after
    ensures Allowed(r) in before ==> Allowed(r) in after
  {
  }

  lemma SetEvents(s: State, t: State, r: nat, q: Request)
    requires EventsOk(s) && r < |s.requests| && Open(s.requests[r]) && t.requests == s.requests[r := q]
    requires t.log == s.log || t.log == s.log + [Allowed(r)]
    requires t == s.(requests := t.requests, log := t.log)
    ensures EventsOk(t)
  {
    forall i | 0 <= i < |t.log| ensures EventOk(t, t.log[i]) {
      if i < |s.log| { assert EventOk(s, s.log[i]); }
    }
  }

  lemma SetRenewal(s: State, r: nat, q: Request)
    requires OneRenewal(s.requests) && r < |s.requests| && Open(s.requests[r])
    requires q.client == s.requests[r].client && q.purpose == s.requests[r].purpose
    ensures OneRenewal(s.requests[r := q])
  {
    var after := s.requests[r := q];
    forall i, k, c | 0 <= i < k < |after| && Renews(after[i], c) ensures !Renews(after[k], c) {
      assert Renews(s.requests[i], c);
      assert !Renews(s.requests[k], c);
    }
  }

  // ---------------------------------------------------------------- changing a client

  /** A client changes and every request that depends on what it held is closed. */
  lemma SetClientOk(s: State, t: State, c: nat, k: Client)
    requires Inv(s) && c < |s.clients| && s.clients[c].revokedAt.None? && k.credential == s.clients[c].credential
    requires t.clients == s.clients[c := k] && t == s.(clients := t.clients, requests := t.requests)
    requires t.requests == DenyOf(s.requests, c, None, false)
    ensures Good(s, t)
  {
    DenyCloses(s.requests, c, None, false);
    ClosesOk(s.clients, s.log, s.requests, t.requests);
    forall i | 0 <= i < |t.requests| ensures RequestOk(t.clients, t.log, i, t.requests[i]) {
      assert RequestOk(s.clients, s.log, i, t.requests[i]);
    }
    forall i | 0 <= i < |t.log| ensures EventOk(t, t.log[i]) { assert EventOk(s, s.log[i]); }
  }

  lemma GrantOk(s: State, r: nat, c: nat)
    requires Inv(s) && r < |s.requests| && c < |s.clients| && s.clients[c].revokedAt.None?
    requires s.requests[r].status.Pending? && s.requests[r].purpose.ForPermissions? && !s.requests[r].gone
    requires s.requests[r].client == Some(c)
    ensures Good(s, Grant(s, r, c))
  {
    var t := Grant(s, r, c);
    GrantRequests(s, r, c);
    GrantRenewal(s, r, c);
    AppendIssues(s.log, Allowed(r));
    forall i | 0 <= i < |t.log| ensures EventOk(t, t.log[i]) {
      if i < |s.log| { assert EventOk(s, s.log[i]); }
    }
  }

  lemma GrantRenewal(s: State, r: nat, c: nat)
    requires OneRenewal(s.requests) && r < |s.requests| && c < |s.clients| && s.requests[r].purpose.ForPermissions?
    ensures OneRenewal(Grant(s, r, c).requests)
  {
    var after := Grant(s, r, c).requests;
    forall i, k, d | 0 <= i < k < |after| && Renews(after[i], d) ensures !Renews(after[k], d) {
      assert Renews(s.requests[i], d);
      assert !Renews(s.requests[k], d);
    }
  }

  lemma GrantRequests(s: State, r: nat, c: nat)
    requires RequestsOk(s.clients, s.log, s.requests) && r < |s.requests| && c < |s.clients|
    requires s.requests[r].purpose.ForPermissions? && s.requests[r].client == Some(c)
    ensures var t := Grant(s, r, c); RequestsOk(t.clients, t.log, t.requests)
  {
    var t := Grant(s, r, c);
    forall i | 0 <= i < |t.requests| ensures RequestOk(t.clients, t.log, i, t.requests[i]) {
      assert RequestOk(s.clients, s.log, i, s.requests[i]);
      AllowedStays(s.log, t.log, i);
    }
  }

  /** Revoking by token changes no permission, so what the open requests ask for stays right. */
  lemma RevokeTokenOk(s: State, now: nat, token: nat, registered: bool)
    requires Inv(s)
    ensures Good(s, RevokeToken(s, now, token, registered))
  {
    var t := RevokeToken(s, now, token, registered);
    forall i | 0 <= i < |t.requests| ensures RequestOk(t.clients, t.log, i, t.requests[i]) {
      assert RequestOk(s.clients, s.log, i, s.requests[i]);
    }
    forall i | 0 <= i < |t.log| ensures EventOk(t, t.log[i]) { assert EventOk(s, s.log[i]); }
  }

  // ---------------------------------------------------------------- issuing

  lemma IssueOk(s: State, now: nat, r: nat)
    requires Inv(s) && r < |s.requests| && s.requests[r].status.Approved? && !s.requests[r].gone
    requires s.requests[r].client.Some? ==> s.clients[s.requests[r].client.value].revokedAt.None?
    ensures Good(s, Issue(s, now, r))
  {
    var t := Issue(s, now, r);
    assert RequestOk(s.clients, s.log, r, s.requests[r]);
    IssueRequests(s, now, r);
    IssueRenewal(s, now, r);
    IssueEvents(s, now, r);
    IssueGrows(s, now, r);
    IssueCredentials(s, now, r);
  }

  lemma IssueCredentials(s: State, now: nat, r: nat)
    requires CredentialsOk(s) && r < |s.requests|
    requires s.requests[r].client.Some? ==> s.requests[r].client.value < |s.clients|
    ensures CredentialsOk(Issue(s, now, r))
  {
  }

  lemma IssueRequests(s: State, now: nat, r: nat)
    requires RequestsOk(s.clients, s.log, s.requests) && r < |s.requests| && s.requests[r].status.Approved?
    ensures var t := Issue(s, now, r); RequestsOk(t.clients, t.log, t.requests)
  {
    var t := Issue(s, now, r);
    assert RequestOk(s.clients, s.log, r, s.requests[r]);
    forall i | 0 <= i < |t.requests| ensures RequestOk(t.clients, t.log, i, t.requests[i]) {
      assert RequestOk(s.clients, s.log, i, s.requests[i]);
      AllowedStays(s.log, t.log, i);
    }
  }

  lemma IssueRenewal(s: State, now: nat, r: nat)
    requires RequestsOk(s.clients, s.log, s.requests) && OneRenewal(s.requests) && r < |s.requests|
    ensures OneRenewal(Issue(s, now, r).requests)
  {
    assert RequestOk(s.clients, s.log, r, s.requests[r]);
    var after := Issue(s, now, r).requests;
    forall i, k, c | 0 <= i < k < |after| && Renews(after[i], c) ensures !Renews(after[k], c) {
      assert Renews(s.requests[i], c);
      assert !Renews(s.requests[k], c);
    }
  }

  lemma IssueEvents(s: State, now: nat, r: nat)
    requires RequestsOk(s.clients, s.log, s.requests) && EventsOk(s) && IssuesOk(s.log)
    requires r < |s.requests| && s.requests[r].status.Approved?
    ensures EventsOk(Issue(s, now, r)) && IssuesOk(Issue(s, now, r).log)
  {
    var t := Issue(s, now, r);
    assert RequestOk(s.clients, s.log, r, s.requests[r]);
    forall i | 0 <= i < |s.log| && s.log[i].Issued? ensures s.log[i].request != r { assert EventOk(s, s.log[i]); }
    AppendIssues(s.log, t.log[|s.log|]);
    forall i | 0 <= i < |t.log| ensures EventOk(t, t.log[i]) {
      if i < |s.log| { assert EventOk(s, s.log[i]); }
    }
  }

  lemma IssueGrows(s: State, now: nat, r: nat)
    requires RequestsOk(s.clients, s.log, s.requests) && r < |s.requests| && s.requests[r].status.Approved?
    requires s.requests[r].client.Some? ==>
      s.requests[r].client.value < |s.clients| && s.clients[s.requests[r].client.value].revokedAt.None?
    ensures Grows(s, Issue(s, now, r))
  {
  }

  lemma ClaimApprovedOk(s: State, now: nat, r: nat)
    requires Inv(s)
    ensures Good(s, ClaimApproved(s, now, r).0)
  {
    var t := ClaimApproved(s, now, r).0;
    if t != s { IssueOk(s, now, r); }
  }

  lemma DecideOk(s: State, now: nat, owner: bool, r: nat, approve: bool, oauth: bool)
    requires Inv(s)
    ensures Good(s, Decide(s, now, owner, r, approve, oauth).0)
  {
    var t := Decide(s, now, owner, r, approve, oauth).0;
    if t != s {
      var q := s.requests[r];
      assert RequestOk(s.clients, s.log, r, q);
      if !approve { SetRequestOk(s, t, r, q.(status := Denied)); }
      else if q.purpose.ForAccess? { SetRequestOk(s, t, r, q.(status := Approved)); }
      else { GrantOk(s, r, q.client.value); }
    }
  }

  lemma EditRequestOk(s: State, now: nat, owner: bool, r: nat, checked: Permissions, oauth: bool)
    requires Inv(s)
    ensures Good(s, EditRequest(s, now, owner, r, checked, oauth).0)
  {
    var t := EditRequest(s, now, owner, r, checked, oauth).0;
    if t != s {
      var q := s.requests[r];
      assert RequestOk(s.clients, s.log, r, q);
      SetRequestOk(s, t, r, q.(permissions := checked, edited := true));
    }
  }

  lemma StepOk(s: State, now: nat, op: Op)
    requires Inv(s)
    ensures Good(s, Step(s, now, op))
  {
    var t := Step(s, now, op);
    match op
    case AskAccess(name, access, refresh, token, secret) =>
      RequestAccessOk(s, now, name, access, refresh, token, secret);
    case AskPermissions(token, asked, oauth, secret) => RequestPermissionsOk(s, now, token, asked, oauth, secret);
    case ClaimIt(r, _) => ClaimApprovedOk(s, now, r);
    case ExchangeIt(r) => ClaimApprovedOk(s, now, r);
    case DecideIt(owner, r, approve, oauth) => DecideOk(s, now, owner, r, approve, oauth);
    case EditRequestIt(owner, r, checked, oauth) => EditRequestOk(s, now, owner, r, checked, oauth);
    case EditClientIt(owner, c, checked, oauth) =>
      if t != s { SetClientOk(s, t, c, s.clients[c].(permissions := checked)); }
    case RevokeIt(owner, c) => if t != s { SetClientOk(s, t, c, s.clients[c].(revokedAt := Some(now))); }
    case RevokeTokenIt(token, registered) => RevokeTokenOk(s, now, token, registered);
  }

  // ---------------------------------------------------------------- runs

  datatype Stamped = Stamped(at: nat, op: Op)

  function Run(s: State, steps: seq<Stamped>): State {
    if |steps| == 0 then s
    else Step(Run(s, steps[..|steps| - 1]), steps[|steps| - 1].at, steps[|steps| - 1].op)
  }

  lemma {:induction false} RunOk(steps: seq<Stamped>)
    ensures Inv(Run(START, steps))
  {
    if |steps| > 0 {
      RunOk(steps[..|steps| - 1]);
      StepOk(Run(START, steps[..|steps| - 1]), steps[|steps| - 1].at, steps[|steps| - 1].op);
    }
  }

  lemma {:induction false} RunGrows(steps: seq<Stamped>, n: nat)
    requires n <= |steps|
    ensures Grows(Run(START, steps[..n]), Run(START, steps))
    decreases |steps|
  {
    if n < |steps| {
      var front := steps[..|steps| - 1];
      assert front[..n] == steps[..n];
      RunGrows(front, n);
      RunOk(front);
      StepOk(Run(START, front), steps[|steps| - 1].at, steps[|steps| - 1].op);
      GrowsTransitive(Run(START, steps[..n]), Run(START, front), Run(START, steps));
    } else {
      assert steps[..n] == steps;
    }
  }

  // ---------------------------------------------------------------- the promises

  /** Requests only move on: pending to approved to consumed, or to denied, and denied and consumed are final. */
  lemma RequestsOnlyMoveOn(steps: seq<Stamped>, n: nat, r: nat)
    requires n <= |steps| && r < |Run(START, steps[..n]).requests|
    ensures r < |Run(START, steps).requests|
    ensures Later(Run(START, steps[..n]).requests[r].status, Run(START, steps).requests[r].status)
    ensures Run(START, steps[..n]).requests[r].gone ==> Run(START, steps).requests[r].gone
  {
    RunGrows(steps, n);
    assert RequestMoves(Run(START, steps[..n]).requests[r], Run(START, steps).requests[r]);
  }

  /** Over a whole run a request issues at most one credential, and only after it was approved. */
  lemma OneCredentialAfterApproval(steps: seq<Stamped>, i: nat)
    requires i < |Run(START, steps).log| && Run(START, steps).log[i].Issued?
    ensures var log := Run(START, steps).log;
      && Allowed(log[i].request) in log[..i]
      && forall k :: 0 <= k < |log| && k != i && log[k].Issued? ==> log[k].request != log[i].request
  {
    RunOk(steps);
  }

  lemma NewlyAllowed(s: State, now: nat, op: Op, r: nat)
    requires Inv(s) && Allowed(r) in Step(s, now, op).log && Allowed(r) !in s.log
    ensures Approves(op, r)
  {
  }

  /** The signed-in owner approves the request. */
  predicate Approves(op: Op, r: nat) { op.DecideIt? && op.owner && op.approve && op.request == r }

  /** Whatever is recorded as approved in a run, the signed-in owner approved in that run. */
  lemma {:induction false} AllowedByTheOwner(steps: seq<Stamped>, r: nat)
    requires Allowed(r) in Run(START, steps).log
    ensures exists i :: 0 <= i < |steps| && Approves(steps[i].op, r)
  {
    if |steps| > 0 {
      var front, last := steps[..|steps| - 1], steps[|steps| - 1];
      RunOk(front);
      if Allowed(r) in Run(START, front).log {
        AllowedByTheOwner(front, r);
        var i :| 0 <= i < |front| && Approves(front[i].op, r);
        assert Approves(steps[i].op, r);
      } else {
        NewlyAllowed(Run(START, front), last.at, last.op, r);
        assert Approves(steps[|steps| - 1].op, r);
      }
    }
  }

  /** A credential is only ever issued for a request that the signed-in owner approved in the run. */
  lemma OnlyOwnerApproves(steps: seq<Stamped>, i: nat)
    requires i < |Run(START, steps).log| && Run(START, steps).log[i].Issued?
    ensures exists k :: 0 <= k < |steps| && Approves(steps[k].op, Run(START, steps).log[i].request)
  {
    OneCredentialAfterApproval(steps, i);
    AllowedByTheOwner(steps, Run(START, steps).log[i].request);
  }

  /** A client revoked in the past gets no further credential, and its row never changes again. */
  lemma {:induction false} RevokedForever(steps: seq<Stamped>, n: nat, c: nat)
    requires n <= |steps| && c < |Run(START, steps[..n]).clients| && Run(START, steps[..n]).clients[c].revokedAt.Some?
    ensures var s, t := Run(START, steps[..n]), Run(START, steps);
      && c < |t.clients| && t.clients[c] == s.clients[c]
      && forall i :: |s.log| <= i < |t.log| && t.log[i].Issued? ==> t.log[i].client != c
    decreases |steps|
  {
    RunGrows(steps, n);
    assert ClientMoves(Run(START, steps[..n]).clients[c], Run(START, steps).clients[c]);
    if n == |steps| {
      assert steps[..n] == steps;
    } else {
      var front, last := steps[..|steps| - 1], steps[|steps| - 1];
      assert front[..n] == steps[..n];
      RevokedForever(front, n, c);
      RunOk(front);
      StepOk(Run(START, front), last.at, last.op);
      IssueNeedsLiveClient(Run(START, front), last.at, last.op, c);
    }
  }

  lemma IssueNeedsLiveClient(s: State, now: nat, op: Op, c: nat)
    requires c < |s.clients| && s.clients[c].revokedAt.Some?
    ensures var t := Step(s, now, op); forall i :: |s.log| <= i < |t.log| && t.log[i].Issued? ==> t.log[i].client != c
  {
  }

  /** At most one open renewal a client. */
  lemma OneOpenRenewal(steps: seq<Stamped>, i: nat, k: nat, c: nat)
    requires i < |Run(START, steps).requests| && k < |Run(START, steps).requests|
    requires Renews(Run(START, steps).requests[i], c) && Renews(Run(START, steps).requests[k], c)
    ensures i == k && c < |Run(START, steps).clients|
  {
    RunOk(steps);
    var s := Run(START, steps);
    assert RequestOk(s.clients, s.log, i, s.requests[i]);
    RenewalIsOne(s.requests, i, k, c);
  }

  lemma RenewalIsOne(requests: seq<Request>, i: nat, k: nat, c: nat)
    requires OneRenewal(requests) && i < |requests| && k < |requests| && Renews(requests[i], c)
             && Renews(requests[k], c)
    ensures i == k
  {
  }

  /** Claiming a renewal that the owner did not edit changes none of the client's permissions. */
  lemma UneditedRenewalChangesNothing(steps: seq<Stamped>, now: nat, r: nat)
    requires var s := Run(START, steps); r < |s.requests| && s.requests[r].client.Some? && !s.requests[r].edited
    requires ClaimApproved(Run(START, steps), now, r).1.Ok? && ClaimApproved(Run(START, steps), now, r).1.value.Some?
    ensures var s, t := Run(START, steps), ClaimApproved(Run(START, steps), now, r).0;
      var c := s.requests[r].client.value;
      && c < |s.clients| && t.clients[c].permissions == s.clients[c].permissions
      && t.clients[c].credential == ClaimApproved(s, now, r).1.value.value && t.clients[c].expiresAt == now + LIFETIME
      && forall d :: 0 <= d < |s.clients| && d != c ==> t.clients[d] == s.clients[d]
  {
    RunOk(steps);
    var s := Run(START, steps);
    assert RequestOk(s.clients, s.log, r, s.requests[r]);
  }

  /**
    An approved request can be claimed until it expires exactly when it is for a new client or its client has not
    been revoked; otherwise the claim is forbidden.
   */
  lemma ApprovedClaimableIffNotRevoked(steps: seq<Stamped>, now: nat, r: nat)
    requires var s := Run(START, steps); Exists(s, r) && s.requests[r].status.Approved? && s.requests[r].expiresAt > now
    ensures var s := Run(START, steps);
      var q, result := s.requests[r], ClaimApproved(s, now, r).1;
      && (q.client.Some? ==> q.client.value < |s.clients|)
      && (result == Ok(Some(s.tokens)) <==> q.client.None? || s.clients[q.client.value].revokedAt.None?)
      && (result != Ok(Some(s.tokens)) ==> result == Err(Forbidden))
  {
    RunOk(steps);
    var s := Run(START, steps);
    assert RequestOk(s.clients, s.log, r, s.requests[r]);
  }

  /** A new credential signs its client in until it expires; the one it replaces signs nobody in. */
  lemma NewCredentialReplacesOld(steps: seq<Stamped>, now: nat, r: nat, later: nat)
    requires var result := ClaimApproved(Run(START, steps), now, r).1; result.Ok? && result.value.Some?
    ensures var s, t := Run(START, steps), ClaimApproved(Run(START, steps), now, r).0;
      && Exists(s, r)
      && var renewed := s.requests[r].client;
      var c := if renewed.Some? then renewed.value else |s.clients|;
      && (Authenticate(t.clients, Some(s.tokens), later) == Some(c) <==> later < now + LIFETIME)
      && (renewed.Some? ==>
            c < |s.clients| && Authenticate(t.clients, Some(s.clients[c].credential), later).None?)
  {
    RunOk(steps);
    ClaimIssues(Run(START, steps), now, r);
    IssuedReplacesOld(Run(START, steps), now, r, later);
  }

  ghost predicate Issuable(s: State, r: nat) {
    && Exists(s, r) && s.requests[r].status.Approved?
    && (s.requests[r].client.Some? ==>
          s.requests[r].client.value < |s.clients| && s.clients[s.requests[r].client.value].revokedAt.None?)
  }

  lemma ClaimIssues(s: State, now: nat, r: nat)
    requires var result := ClaimApproved(s, now, r).1; result.Ok? && result.value.Some?
    ensures Issuable(s, r) && ClaimApproved(s, now, r).0 == Issue(s, now, r)
  {
  }

  lemma IssuedReplacesOld(s: State, now: nat, r: nat, later: nat)
    requires Inv(s) && Issuable(s, r)
    ensures var t, renewed := Issue(s, now, r), s.requests[r].client;
      var c := if renewed.Some? then renewed.value else |s.clients|;
      && (Authenticate(t.clients, Some(s.tokens), later) == Some(c) <==> later < now + LIFETIME)
      && (renewed.Some? ==> Authenticate(t.clients, Some(s.clients[c].credential), later).None?)
  {
    var t := Issue(s, now, r);
    IssueCredentials(s, now, r);
    var c := if s.requests[r].client.Some? then s.requests[r].client.value else |s.clients|;
    HolderIs(t, c);
    if s.requests[r].client.Some? { OldIsGone(s, t, c, s.clients[c].credential); }
  }

  lemma HolderIs(s: State, c: nat)
    requires CredentialsOk(s) && c < |s.clients| && s.clients[c].revokedAt.None?
    ensures Holder(s.clients, s.clients[c].credential) == Some(c)
  {
    forall d | 0 <= d < |s.clients| && d != c ensures s.clients[d].credential != s.clients[c].credential { }
  }

  lemma OldIsGone(s: State, t: State, c: nat, previous: nat)
    requires CredentialsOk(s) && c < |s.clients| == |t.clients| && s.clients[c].credential == previous
    requires t.clients[c].credential == s.tokens
             && forall d :: 0 <= d < |s.clients| && d != c ==> t.clients[d] == s.clients[d]
    ensures Holder(t.clients, previous).None?
  {
    forall d | 0 <= d < |t.clients| ensures t.clients[d].credential != previous {
      assert d < c ==> s.clients[d].credential != s.clients[c].credential;
    }
  }

  /** Approving a permission request adds exactly what it asks for to its client, and touches no other client. */
  lemma ApprovalAddsExactlyTheDelta(steps: seq<Stamped>, now: nat, r: nat, oauth: bool)
    requires var s := Run(START, steps); r < |s.requests| && s.requests[r].purpose.ForPermissions?
    requires Decide(Run(START, steps), now, true, r, true, oauth).1.None?
    ensures var s, t := Run(START, steps), Decide(Run(START, steps), now, true, r, true, oauth).0;
      && s.requests[r].client.Some? && s.requests[r].client.value < |s.clients| == |t.clients|
      && var c := s.requests[r].client.value;
      && t.clients[c] == s.clients[c].(permissions := s.clients[c].permissions + s.requests[r].permissions)
      && (forall d :: 0 <= d < |s.clients| && d != c ==> t.clients[d] == s.clients[d])
      && t.requests[r].status.Consumed? && forall i :: 0 <= i < |t.requests| ==> !Renews(t.requests[i], c)
  {
    RunOk(steps);
    var s := Run(START, steps);
    assert RequestOk(s.clients, s.log, r, s.requests[r]);
  }

  predicate AsksFor(s: State, r: nat, c: nat, p: Permission) {
    r < |s.requests| && s.requests[r].client == Some(c) && p in s.requests[r].permissions
  }

  /** The only ways a client comes to hold more. */
  predicate OwnerGave(s: State, op: Op, c: nat, p: Permission) {
    match op
    case EditClientIt(owner, client, checked, _) => owner && client == c && p in checked
    case DecideIt(owner, r, approve, _) => owner && approve && AsksFor(s, r, c, p)
    case ClaimIt(r, _) => AsksFor(s, r, c, p) && s.requests[r].edited
    case ExchangeIt(r) => AsksFor(s, r, c, p) && s.requests[r].edited
    case _ => false
  }

  lemma ClaimGains(s: State, now: nat, r: nat, c: nat, p: Permission)
    requires Inv(s) && c < |s.clients| && p !in s.clients[c].permissions
    ensures c < |ClaimApproved(s, now, r).0.clients|
    ensures p in ClaimApproved(s, now, r).0.clients[c].permissions ==>
      r < |s.requests| && s.requests[r].edited && s.requests[r].client == Some(c) && p in s.requests[r].permissions
  {
    if r < |s.requests| { assert RequestOk(s.clients, s.log, r, s.requests[r]); }
  }

  lemma AskingKeepsClients(s: State, now: nat, op: Op)
    requires op.AskAccess? || op.AskPermissions? || op.EditRequestIt?
    ensures Step(s, now, op).clients == s.clients
  {
  }

  lemma DecideGains(s: State, now: nat, owner: bool, r: nat, approve: bool, oauth: bool, c: nat, p: Permission)
    requires c < |s.clients| && p !in s.clients[c].permissions
    ensures c < |Decide(s, now, owner, r, approve, oauth).0.clients|
    ensures p in Decide(s, now, owner, r, approve, oauth).0.clients[c].permissions ==>
      owner && approve && AsksFor(s, r, c, p)
  {
  }

  lemma RevokingKeepsPermissions(s: State, now: nat, op: Op, c: nat)
    requires (op.RevokeIt? || op.RevokeTokenIt?) && c < |s.clients|
    ensures c < |Step(s, now, op).clients| && Step(s, now, op).clients[c].permissions == s.clients[c].permissions
  {
  }

  /** A client gains a permission only where the owner put it: on it, in an approved delta, or in an edited renewal. */
  lemma GainsComeFromTheOwner(steps: seq<Stamped>, now: nat, op: Op, c: nat, p: Permission)
    requires c < |Run(START, steps).clients|
    requires c < |Step(Run(START, steps), now, op).clients|
    requires p in Step(Run(START, steps), now, op).clients[c].permissions
    requires p !in Run(START, steps).clients[c].permissions
    ensures OwnerGave(Run(START, steps), op, c, p)
  {
    RunOk(steps);
    StepGains(Run(START, steps), now, op, c, p);
  }

  lemma StepGains(s: State, now: nat, op: Op, c: nat, p: Permission)
    requires Inv(s) && c < |s.clients| && p !in s.clients[c].permissions
    ensures c < |Step(s, now, op).clients| && p in Step(s, now, op).clients[c].permissions ==> OwnerGave(s, op, c, p)
  {
    match op
    case AskAccess(_, _, _, _, _) => AskingKeepsClients(s, now, op);
    case AskPermissions(_, _, _, _) => AskingKeepsClients(s, now, op);
    case ClaimIt(r, _) => ClaimGains(s, now, r, c, p);
    case ExchangeIt(r) => ClaimGains(s, now, r, c, p);
    case DecideIt(owner, r, approve, oauth) => DecideGains(s, now, owner, r, approve, oauth, c, p);
    case EditRequestIt(_, _, _, _) => AskingKeepsClients(s, now, op);
    case EditClientIt(_, _, _, _) =>
    case RevokeIt(_, _) => RevokingKeepsPermissions(s, now, op, c);
    case RevokeTokenIt(_, _) => RevokingKeepsPermissions(s, now, op, c);
  }
}
