/** What the OAuth revocation of a token leaves behind: requests of a revoked client that can no longer be claimed. */
module InstanceAccessRevocation {
  import opened InstanceAccess
  import opened InstanceAccessProofs
  import opened Wrappers

  // ---------------------------------------------------------------- without it, open requests belong to live clients

  ghost predicate ClientLive(clients: seq<Client>, q: Request) {
    q.client.Some? ==> q.client.value < |clients| && clients[q.client.value].revokedAt.None?
  }

  ghost predicate OpenLive(s: State) {
    forall r :: 0 <= r < |s.requests| && Open(s.requests[r]) ==> ClientLive(s.clients, s.requests[r])
  }

  /** No client is revoked and every row is as open as before or less, for the same client. */
  ghost predicate Tightens(s: State, t: State) {
    && |s.clients| <= |t.clients| && |s.requests| <= |t.requests|
    && (forall c :: 0 <= c < |s.clients| ==> (s.clients[c].revokedAt.None? ==> t.clients[c].revokedAt.None?))
    && (forall r :: 0 <= r < |s.requests| && Open(t.requests[r]) ==>
          Open(s.requests[r]) && t.requests[r].client == s.requests[r].client)
    && (forall r :: |s.requests| <= r < |t.requests| ==> ClientLive(t.clients, t.requests[r]))
  }

  lemma TightensKeeps(s: State, t: State)
    requires OpenLive(s) && Tightens(s, t)
    ensures OpenLive(t)
  {
    forall r | 0 <= r < |t.requests| && Open(t.requests[r]) ensures ClientLive(t.clients, t.requests[r]) {
      if r < |s.requests| { assert ClientLive(s.clients, s.requests[r]); }
    }
  }

  lemma LimitTightens(s: State, now: nat)
    ensures var t := Limit(s, now).0;
      Tightens(s, t) && t.clients == s.clients && |t.requests| == |s.requests|
  {
  }

  lemma AccessTightens(s: State, now: nat, name: string, access: Access, refresh: bool, token: Option<nat>, secret: nat)
    ensures Tightens(s, RequestAccess(s, now, name, access, refresh, token, secret).0)
  {
    LimitTightens(s, now);
  }

  lemma PermissionsTighten(s: State, now: nat, token: Option<nat>, asked: seq<Permission>, oauth: bool, secret: nat)
    ensures Tightens(s, RequestPermissions(s, now, token, asked, oauth, secret).0)
  {
    LimitTightens(s, now);
  }

  lemma ClaimTightens(s: State, now: nat, r: nat)
    ensures Tightens(s, ClaimApproved(s, now, r).0)
  {
  }

  lemma DecideTightens(s: State, now: nat, owner: bool, r: nat, approve: bool, oauth: bool)
    ensures Tightens(s, Decide(s, now, owner, r, approve, oauth).0)
  {
  }

  /** The owner's revocation is the one step that revokes a client here, and it denies what the client has open. */
  lemma RevokeKeepsLive(s: State, now: nat, owner: bool, c: nat)
    requires OpenLive(s)
    ensures OpenLive(Revoke(s, now, owner, c).0)
  {
    var t := Revoke(s, now, owner, c).0;
    forall r | 0 <= r < |t.requests| && Open(t.requests[r]) ensures ClientLive(t.clients, t.requests[r]) {
      assert Open(s.requests[r]) && ClientLive(s.clients, s.requests[r]);
    }
  }

  lemma StepKeepsLive(s: State, now: nat, op: Op)
    requires OpenLive(s) && !op.RevokeTokenIt?
    ensures OpenLive(Step(s, now, op))
  {
    var t := Step(s, now, op);
    match op {
      case AskAccess(name, access, refresh, token, secret) =>
        AccessTightens(s, now, name, access, refresh, token, secret);
      case AskPermissions(token, asked, oauth, secret) => PermissionsTighten(s, now, token, asked, oauth, secret);
      case ClaimIt(r, _) => ClaimTightens(s, now, r);
      case ExchangeIt(r) => ClaimTightens(s, now, r);
      case DecideIt(owner, r, approve, oauth) => DecideTightens(s, now, owner, r, approve, oauth);
      case EditRequestIt(_, _, _, _) => assert Tightens(s, t);
      case EditClientIt(_, _, _, _) => assert Tightens(s, t);
      case RevokeIt(owner, c) => RevokeKeepsLive(s, now, owner, c);
    }
    if !op.RevokeIt? { TightensKeeps(s, t); }
  }

  ghost predicate NoTokenRevoked(steps: seq<Stamped>) { forall i :: 0 <= i < |steps| ==> !steps[i].op.RevokeTokenIt? }

  lemma {:induction false} RunKeepsLive(steps: seq<Stamped>)
    requires NoTokenRevoked(steps)
    ensures OpenLive(Run(START, steps))
  {
    if |steps| > 0 {
      var front, last := steps[..|steps| - 1], steps[|steps| - 1];
      RunKeepsLive(front);
      StepKeepsLive(Run(START, front), last.at, last.op);
    }
  }

  /**
    In a run without OAuth revocations every open request belongs to a client that is not revoked, so what the owner
    approved can be claimed until it expires.
   */
  lemma ClaimableWithoutTokenRevocation(steps: seq<Stamped>, now: nat, r: nat)
    requires NoTokenRevoked(steps)
    requires Exists(Run(START, steps), r) && Open(Run(START, steps).requests[r])
    ensures var s := Run(START, steps);
      && ClientLive(s.clients, s.requests[r])
      && (s.requests[r].status.Approved? && s.requests[r].expiresAt > now ==>
            ClaimApproved(s, now, r).1 == Ok(Some(s.tokens)))
  {
    RunKeepsLive(steps);
    assert ClientLive(Run(START, steps).clients, Run(START, steps).requests[r]);
    if Run(START, steps).requests[r].status.Approved? && Run(START, steps).requests[r].expiresAt > now {
      ApprovedClaimableIffNotRevoked(steps, now, r);
    }
  }

  // ---------------------------------------------------------------- with it, an approved renewal is stranded

  /** A client signs in through OAuth, asks for a renewal that the owner approves, and revokes its own token. */
  function SignInThenRevoke(at: nat): seq<Stamped> {
    [Stamped(at, AskAccess("agent", Read, false, None, 1)), Stamped(at, DecideIt(true, 0, true, false)),
     Stamped(at, ExchangeIt(0)), Stamped(at, AskAccess("agent", Read, true, Some(0), 2)),
     Stamped(at, DecideIt(true, 1, true, false)), Stamped(at, RevokeTokenIt(0, true))]
  }

  function Holding(at: nat, revokedAt: Option<nat>): Client {
    Client("agent", 0, Read, at, at + LIFETIME, revokedAt, Defaults(Read))
  }

  function Asked(at: nat, secret: nat, client: Option<nat>, status: Status): Request {
    Request(secret, "agent", client, Read, status, at, at + REQUEST_LIFETIME, Defaults(Read), ForAccess, false, false)
  }

  ghost predicate Stands(s: State, at: nat, clients: seq<Client>, requests: seq<Request>, count: nat) {
    s.clients == clients && s.requests == requests && s.window == at && s.count == count
  }

  lemma RunTo(steps: seq<Stamped>, k: nat)
    requires k < |steps|
    ensures Run(START, steps[..k + 1]) == Step(Run(START, steps[..k]), steps[k].at, steps[k].op)
  {
    assert steps[..k + 1][..k] == steps[..k];
  }

  lemma FirstAsked(at: nat)
    requires at >= WINDOW
    ensures Stands(Step(START, at, SignInThenRevoke(at)[0].op), at, [], [Asked(at, 1, None, Pending)], 1)
  {
    assert Purge(START.requests, at) == [];
  }

  lemma FirstApproved(s: State, at: nat)
    requires Stands(s, at, [], [Asked(at, 1, None, Pending)], 1)
    ensures Stands(Step(s, at, SignInThenRevoke(at)[1].op), at, [], [Asked(at, 1, None, Approved)], 1)
  {
  }

  lemma SignedIn(s: State, at: nat)
    requires Stands(s, at, [], [Asked(at, 1, None, Approved)], 1) && s.tokens == 0
    ensures Stands(Step(s, at, SignInThenRevoke(at)[2].op), at, [Holding(at, None)],
                   [Asked(at, 1, Some(0), Consumed)], 1)
  {
  }

  lemma RenewalAsked(s: State, at: nat)
    requires Stands(s, at, [Holding(at, None)], [Asked(at, 1, Some(0), Consumed)], 1)
    ensures Stands(Step(s, at, SignInThenRevoke(at)[3].op), at, [Holding(at, None)],
                   [Asked(at, 1, Some(0), Consumed), Asked(at, 2, Some(0), Pending)], 2)
  {
    assert Purge(s.requests, at) == s.requests;
    assert s.requests[..0] == [] && CountRows(s.requests) == 1;
    assert Holder(s.clients, 0) == Some(0);
    assert DenyOf(s.requests, 0, None, false) == s.requests;
  }

  lemma RenewalApproved(s: State, at: nat)
    requires Stands(s, at, [Holding(at, None)], [Asked(at, 1, Some(0), Consumed), Asked(at, 2, Some(0), Pending)], 2)
    ensures Stands(Step(s, at, SignInThenRevoke(at)[4].op), at, [Holding(at, None)],
                   [Asked(at, 1, Some(0), Consumed), Asked(at, 2, Some(0), Approved)], 2)
  {
  }

  lemma TokenRevoked(s: State, at: nat)
    requires Stands(s, at, [Holding(at, None)], [Asked(at, 1, Some(0), Consumed), Asked(at, 2, Some(0), Approved)], 2)
    ensures Stands(Step(s, at, SignInThenRevoke(at)[5].op), at, [Holding(at, Some(at))],
                   [Asked(at, 1, Some(0), Consumed), Asked(at, 2, Some(0), Approved)], 2)
  {
    assert Holder(s.clients, 0) == Some(0);
  }

  /** The state before the client revokes its token. */
  lemma BeforeRevocation(at: nat)
    requires at >= WINDOW
    ensures Stands(Run(START, SignInThenRevoke(at)[..5]), at, [Holding(at, None)],
                   [Asked(at, 1, Some(0), Consumed), Asked(at, 2, Some(0), Approved)], 2)
  {
    var steps := SignInThenRevoke(at);
    FirstAsked(at);
    RunTo(steps, 0);
    FirstApproved(Run(START, steps[..1]), at);
    RunTo(steps, 1);
    SignedIn(Run(START, steps[..2]), at);
    RunTo(steps, 2);
    RenewalAsked(Run(START, steps[..3]), at);
    RunTo(steps, 3);
    RenewalApproved(Run(START, steps[..4]), at);
    RunTo(steps, 4);
  }

  /** The renewal is still approved and unexpired, and claiming it is forbidden. */
  lemma RevokedTokenStrandsApprovedRenewal(at: nat)
    requires at >= WINDOW
    ensures var s := Run(START, SignInThenRevoke(at));
      && |s.requests| == 2 && s.requests[1] == Asked(at, 2, Some(0), Approved)
      && s.clients == [Holding(at, Some(at))]
      && Claim(s, at, 1, 2) == (s, Err(Forbidden))
  {
    var steps := SignInThenRevoke(at);
    BeforeRevocation(at);
    TokenRevoked(Run(START, steps[..5]), at);
    RunTo(steps, 5);
    assert steps[..6] == steps;
    StrandedClaim(Run(START, steps), at);
  }

  lemma StrandedClaim(s: State, at: nat)
    requires Stands(s, at, [Holding(at, Some(at))],
                    [Asked(at, 1, Some(0), Consumed), Asked(at, 2, Some(0), Approved)], 2)
    ensures Claim(s, at, 1, 2) == (s, Err(Forbidden))
  {
  }
}
