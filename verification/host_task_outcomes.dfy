/** When each route of the broker succeeds, exactly, and what it then writes. */
module HostTaskOutcomes {
  import opened Wrappers
  import opened HostTasks
  import opened HostTaskProofs
  import opened HostTaskRoutes

  // ---------------------------------------------------------------- the sweep

  /** Everything a live job rests on, its lease apart: its app, its own time limit and, once approved, its grant. */
  ghost predicate Survives(t: Tables, env: Env, job: Job) {
    && AppLive(AppsAfter(t, env), job.appId)
    && (Pending(job.state) ==> job.expiresAt > env.now)
    && (!job.state.AwaitingApproval? ==> BindingHolds(t.grants, job, env.now))
    && (job.state.Succeeded? ==> job.result.Some? && job.result.value.until > env.now)
  }

  ghost predicate LeaseLapsed(job: Job, now: int) {
    job.state.Running? && (job.lease.None? || job.lease.value.until <= now)
  }

  /**
    A sweep ends a live job exactly when something it rests on is gone or its third lease lapsed, and cancels it
    exactly when its app is gone.  What it does not end it leaves unchanged, but for an approval and for a lapsed
    lease, which is given up.
  */
  lemma SweepEndsExactly(t: Tables, env: Env, j: nat)
    requires Inv(t, env.now) && IsScan(env.scan, |t.jobs|) && j < |t.jobs| && !Terminal(t.jobs[j].state)
    ensures var job, after := t.jobs[j], Sweep(t, env).jobs[j];
            var ends := !Survives(t, env, job) || (LeaseLapsed(job, env.now) && job.attempt >= MAX_ATTEMPTS);
            && (Terminal(after.state) <==> ends)
            && (ends ==> after == job.(state := if AppLive(AppsAfter(t, env), job.appId) then Expired else Cancelled,
                                       result := None, lease := None))
            && (!ends && !job.state.AwaitingApproval? ==>
                  after == if LeaseLapsed(job, env.now) then job.(state := Queued, runner := None, lease := None)
                           else job)
  {
    SweepOk(t, env, env.now);
    assert JobOk(t, t.jobs[j]);
  }

  lemma SweepKeepsTerminal(t: Tables, env: Env, j: nat)
    requires Inv(t, env.now) && IsScan(env.scan, |t.jobs|) && j < |t.jobs| && Terminal(t.jobs[j].state)
    ensures Sweep(t, env).jobs[j] == t.jobs[j]
  {
    SweepOk(t, env, env.now);
  }

  // ---------------------------------------------------------------- claims

  /** A queued job under a grant of this identity. */
  ghost predicate Ready(s: Tables, j: nat, who: Identity) {
    && j < |s.jobs| && s.jobs[j].state.Queued? && s.jobs[j].binding.Some?
    && s.jobs[j].binding.value.grantId < |s.grants| && s.grants[s.jobs[j].binding.value.grantId].identity == who
  }

  ghost predicate SomeReady(s: Tables, who: Identity) { exists j :: 0 <= j < |s.jobs| && Ready(s, j, who) }

  lemma ReadyIsClaimable(s: Tables, j: nat, who: Identity, now: int)
    requires Inv(s, now) && AllSettled(s, now) && j < |s.jobs|
    ensures Claimable(s, j, who) <==> Ready(s, j, who)
  {
    assert JobOk(s, s.jobs[j]) && Settled(s, s.jobs[j], now);
  }

  /** The lease that a claim of this job sets. */
  function LeaseOf(s: Tables, job: Job, token: nat, now: int): Lease
    requires job.binding.Some? && job.binding.value.grantId < |s.grants|
  {
    Lease(token, Min(Min(now + LEASE_MS, job.expiresAt), s.grants[job.binding.value.grantId].expiresAt))
  }

  /** `u` is `s` with the oldest job ready for the runner leased to it for its next attempt. */
  ghost predicate HandedOut(s: Tables, u: Tables, reply: Reply, runner: nat, token: nat, now: int) {
    && reply.Dispatched? && runner < |s.runners| && Ready(s, reply.job, s.runners[runner].identity)
    && (forall i :: 0 <= i < |s.jobs| && Ready(s, i, s.runners[runner].identity) ==>
          s.jobs[reply.job].createdAt <= s.jobs[i].createdAt)
    && var job, lease := s.jobs[reply.job], LeaseOf(s, s.jobs[reply.job], token, now);
    && reply.attempt == job.attempt + 1 && reply.until == lease.until
    && u == s.(jobs := s.jobs[reply.job := job.(state := Running, attempt := job.attempt + 1, runner := Some(runner),
                                                lease := Some(lease))])
  }

  /** A runner that checks out is handed a job exactly when one is ready for it, whatever attempt that is. */
  lemma ClaimHandsOutIffReady(t: Tables, env: Env, runner: nat, token: nat)
    requires Inv(t, env.now) && IsScan(env.scan, |t.jobs|)
    ensures var s, o := Sweep(t, env), ClaimRoute(t, env, runner, token);
            var able := RunnerLive(t.runners, runner) && env.identityOk;
            && (o.reply.Dispatched? <==> able && SomeReady(s, t.runners[runner].identity))
            && (o.reply.NoJob? <==> able && !SomeReady(s, t.runners[runner].identity))
            && (o.reply.Dispatched? ==> HandedOut(s, o.db, o.reply, runner, token, env.now))
            && (o.reply.NoJob? ==> o.db == s) && (!able ==> o.reply.Rejected? && o.db == t)
  {
    SweepIdempotent(t, env, env.now);
    SweepQuiet(t, env);
    var s := Sweep(t, env);
    if RunnerLive(t.runners, runner) {
      forall j | 0 <= j < |s.jobs|
        ensures Claimable(s, j, t.runners[runner].identity) <==> Ready(s, j, t.runners[runner].identity)
      {
        ReadyIsClaimable(s, j, t.runners[runner].identity, env.now);
      }
    }
    ClaimOfSwept(t, env, runner, token);
  }

  lemma ClaimOfSwept(t: Tables, env: Env, runner: nat, token: nat)
    requires IsScan(env.scan, |t.jobs|) && IsScan(env.scan, |Sweep(t, env).jobs|)
    requires Sweep(Sweep(t, env), env) == Sweep(t, env)
    requires RunnerLive(t.runners, runner) ==> var who := t.runners[runner].identity;
               forall j :: 0 <= j < |t.jobs| ==> (Claimable(Sweep(t, env), j, who) <==> Ready(Sweep(t, env), j, who))
    ensures var s, o := Sweep(t, env), ClaimRoute(t, env, runner, token);
            var able := RunnerLive(t.runners, runner) && env.identityOk;
            && (o.reply.Dispatched? <==> able && SomeReady(s, t.runners[runner].identity))
            && (o.reply.NoJob? <==> able && !SomeReady(s, t.runners[runner].identity))
            && (o.reply.Dispatched? ==> HandedOut(s, o.db, o.reply, runner, token, env.now))
            && (o.reply.NoJob? ==> o.db == s) && (!able ==> o.reply.Rejected? && o.db == t)
  {
  }

  // ---------------------------------------------------------------- reports

  /** The proof names the running attempt of a job, whose lease has time left, and everything else still stands. */
  ghost predicate LeaseStands(t: Tables, env: Env, p: LeaseProof) {
    && RunnerLive(t.runners, p.runner) && env.identityOk && p.job < |t.jobs|
    && var job := t.jobs[p.job];
    && job.state.Running? && job.runner == Some(p.runner) && job.attempt == p.attempt
    && job.lease.Some? && job.lease.value.token == p.token && job.lease.value.until > env.now
    && Survives(t, env, job) && t.grants[job.binding.value.grantId].identity == t.runners[p.runner].identity
  }

  lemma CheckPassesIff(t: Tables, env: Env, p: LeaseProof)
    requires Inv(t, env.now) && IsScan(env.scan, |t.jobs|) && RunnerLive(t.runners, p.runner)
    ensures var s := Sweep(t, env);
            && |s.jobs| == |t.jobs|
            && (p.job < |t.jobs| && s.jobs[p.job].state.Running? ==> s.jobs[p.job] == t.jobs[p.job])
            && (CheckLease(s, env, p).reply.Done? <==> LeaseStands(t, env, p))
            && (LeaseStands(t, env, p) ==> CheckLease(s, env, p).db == s && s.jobs[p.job] == t.jobs[p.job])
            && (!LeaseStands(t, env, p) ==> CheckLease(s, env, p).reply.Rejected?)
  {
    var s := Sweep(t, env);
    SweepIdempotent(t, env, env.now);
    if p.job < |t.jobs| {
      assert JobOk(t, t.jobs[p.job]);
      if Terminal(t.jobs[p.job].state) { SweepKeepsTerminal(t, env, p.job); }
      else { SweepEndsExactly(t, env, p.job); SweepRunningWas(t, env, p.job); }
    }
  }

  lemma SweepRunningWas(t: Tables, env: Env, j: nat)
    requires Inv(t, env.now) && IsScan(env.scan, |t.jobs|) && j < |t.jobs|
    ensures Sweep(t, env).jobs[j].state.Running? ==> Sweep(t, env).jobs[j] == t.jobs[j]
  {
    SweepOk(t, env, env.now);
    assert RowFollows(t.jobs[j], Sweep(t, env).jobs[j]);
  }

  /** A result is accepted exactly when its lease stands and it names the request and grant, with good evidence. */
  lemma ResultAcceptedIff(t: Tables, env: Env, p: LeaseProof, payload: Payload, who: Principal, result: nat)
    requires Inv(t, env.now) && IsScan(env.scan, |t.jobs|)
    ensures var o := CompleteRoute(t, env, p, payload, who, result);
            && (o.reply.Accepted? <==>
                  && LeaseStands(t, env, p) && env.evidenceOk
                  && var job := t.jobs[p.job];
                     payload == job.payload
                     && who == Principal(job.appId, job.binding.value.grantId, job.binding.value.generation))
            && (o.reply.Accepted? ==>
                  var s := Sweep(t, env);
                  p.job < |s.jobs| && p.job < |t.jobs|
                  && o.db == s.(jobs := s.jobs[p.job := t.jobs[p.job].(state := Succeeded, lease := None,
                                                         result := Some(StoredResult(result, env.now + RESULT_MS)))]))
            && (!o.reply.Accepted? ==> o.reply.Rejected? && o.db == t)
  {
    if RunnerLive(t.runners, p.runner) { CheckPassesIff(t, env, p); }
  }

  /** A failure is accepted exactly when its lease stands and it names the request. */
  lemma FailureAcceptedIff(t: Tables, env: Env, p: LeaseProof, payload: Payload, needsSignIn: bool)
    requires Inv(t, env.now) && IsScan(env.scan, |t.jobs|)
    ensures var o := FailRoute(t, env, p, payload, needsSignIn);
            && (o.reply.Accepted? <==> LeaseStands(t, env, p) && payload == t.jobs[p.job].payload)
            && (o.reply.Accepted? ==>
                  var s := Sweep(t, env);
                  p.job < |s.jobs| && p.job < |t.jobs|
                  && o.db == s.(jobs := s.jobs[p.job := t.jobs[p.job].(
                                                 state := if needsSignIn then NeedsSignIn else Failed,
                                                 lease := None, result := None)]))
            && (!o.reply.Accepted? ==> o.reply.Rejected? && o.db == t)
  {
    if RunnerLive(t.runners, p.runner) { CheckPassesIff(t, env, p); }
  }

  /** A heartbeat is answered with the deadline exactly when its lease stands. */
  lemma HeartbeatAnsweredIff(t: Tables, env: Env, p: LeaseProof)
    requires Inv(t, env.now) && IsScan(env.scan, |t.jobs|)
    ensures var o := HeartbeatRoute(t, env, p);
            && (o.reply.LeaseUntil? <==> LeaseStands(t, env, p))
            && (o.reply.LeaseUntil? ==> o.db == Sweep(t, env) && o.reply.until == t.jobs[p.job].lease.value.until)
            && (!o.reply.LeaseUntil? ==> o.reply.Rejected? && o.db == t)
  {
    if RunnerLive(t.runners, p.runner) { CheckPassesIff(t, env, p); }
  }

  // ---------------------------------------------------------------- apps and people

  /** When an app may acknowledge or cancel its job, and the owner deny it. */
  ghost predicate MaySettle(t: Tables, s: Tables, op: Op)
    requires op.Acknowledge? || op.Cancel? || op.Deny?
  {
    && SettledJob(op) < |s.jobs|
    && var job := s.jobs[SettledJob(op)];
    && (op.Acknowledge? ==>
          AppLive(t.apps, op.owner) && job.appId == op.owner && (job.state.Succeeded? || job.state.Acknowledged?))
    && (op.Cancel? ==>
          AppLive(t.apps, op.canceller) && job.appId == op.canceller && (!Terminal(job.state) || job.state.Cancelled?))
  }

  lemma SettlesIff(t: Tables, env: Env, op: Op)
    requires IsScan(env.scan, |t.jobs|) && (op.Acknowledge? || op.Cancel? || op.Deny?)
    ensures var s, o := Sweep(t, env), Apply(t, env, op);
            && (o.reply.Done? <==> MaySettle(t, s, op))
            && (o.reply.Done? ==>
                  var j := SettledJob(op);
                  o.db == s.(jobs := s.jobs[j := s.jobs[j].(state := SettledAs(op), result := None, lease := None)]))
            && (!o.reply.Done? ==> o.reply.Rejected? && o.db == t)
  {
  }

  /** An app is added unless its instance has one, and a runner exactly when the host vouches for the identity. */
  lemma PeopleAddedIff(t: Tables, env: Env, instanceId: string, identity: Identity)
    requires IsScan(env.scan, |t.jobs|)
    ensures var s, o := Sweep(t, env), Apply(t, env, AddApp(instanceId));
            && (o.reply == Created(|t.apps|) <==> forall a :: 0 <= a < |t.apps| ==> t.apps[a].instanceId != instanceId)
            && (o.reply.Created? ==> o.db == s.(apps := s.apps + [App(instanceId, false)]))
            && (!o.reply.Created? ==> o.reply.Rejected? && o.db == t)
    ensures var s, o := Sweep(t, env), Apply(t, env, AddRunner(identity));
            && (o.reply == Created(|t.runners|) <==> env.identityOk)
            && (o.reply.Created? ==> o.db == s.(runners := s.runners + [Runner(identity, false)]))
            && (!o.reply.Created? ==> o.reply.Rejected? && o.db == t)
  {
    assert Sweep(t, env).apps == RevokeLapsed(t, env.lapsed).apps;
    forall a | 0 <= a < |t.apps| ensures Sweep(t, env).apps[a].instanceId == t.apps[a].instanceId {}
  }

  /** A revocation is refused only for an id that was never given out. */
  lemma RevokesIffKnown(t: Tables, env: Env, id: nat)
    requires IsScan(env.scan, |t.jobs|)
    ensures Apply(t, env, RevokeApp(id)).reply.Done? <==> id < |t.apps|
    ensures Apply(t, env, RevokeGrant(id)).reply.Done? <==> id < |t.grants|
    ensures Apply(t, env, RevokeRunner(id)).reply.Done? <==> id < |t.runners|
  {
  }

  // ---------------------------------------------------------------- what a revocation touches

  /** The app's grant, not revoked yet. */
  ghost predicate Standing(g: Grant, app: nat) { g.appId == app && !g.revoked }

  /** A queued, running or succeeded job under a standing grant of the app among the first n. */
  ghost predicate Carried(grants: seq<Grant>, job: Job, app: nat, n: nat) {
    && job.binding.Some? && job.binding.value.grantId < Min(n, |grants|)
    && Standing(grants[job.binding.value.grantId], app) && (Active(job.state) || job.state.Succeeded?)
  }

  ghost predicate GrantTouched(before: seq<Grant>, after: seq<Grant>, app: nat, n: nat, g: nat)
    requires g < |before| == |after|
  {
    after[g] == if g < n && Standing(before[g], app)
                then before[g].(revoked := true, generation := before[g].generation + 1) else before[g]
  }

  ghost predicate JobTouched(t: Tables, r: Tables, app: nat, n: nat, i: nat)
    requires i < |t.jobs| == |r.jobs|
  {
    r.jobs[i] == if Carried(t.grants, t.jobs[i], app, n)
                 then t.jobs[i].(state := Cancelled, result := None, lease := None) else t.jobs[i]
  }

  ghost predicate Touched(t: Tables, r: Tables, app: nat, n: nat) {
    && |r.grants| == |t.grants| && |r.jobs| == |t.jobs|
    && (forall g :: 0 <= g < |t.grants| ==> GrantTouched(t.grants, r.grants, app, n, g))
    && (forall i :: 0 <= i < |t.jobs| ==> JobTouched(t, r, app, n, i))
  }

  /** Revoking an app's grants revokes those, ends the jobs under them, and touches nothing else. */
  lemma {:induction false} RevokeGrantsTouches(t: Tables, app: nat, n: nat)
    requires n <= |t.grants|
    ensures Touched(t, RevokeGrantsOf(t, app, n), app, n)
  {
    if n > 0 {
      RevokeGrantsTouches(t, app, n - 1);
      TouchedOneMore(t, RevokeGrantsOf(t, app, n - 1), RevokeGrantsOf(t, app, n), app, n - 1, n);
    } else {
      NothingTouched(t, app);
    }
  }

  lemma NothingTouched(t: Tables, app: nat)
    ensures Touched(t, t, app, 0)
  {
  }

  lemma TouchedOneMore(t: Tables, before: Tables, r: Tables, app: nat, n: nat, next: nat)
    requires Touched(t, before, app, n) && n < |t.grants| && next == n + 1
    requires r == if Standing(before.grants[n], app) then RevokeGrantRows(before, n) else before
    ensures Touched(t, r, app, next)
  {
    assert GrantTouched(t.grants, before.grants, app, n, n);
    forall g | 0 <= g < |t.grants| ensures GrantTouched(t.grants, r.grants, app, next, g) {
      assert GrantTouched(t.grants, before.grants, app, n, g);
    }
    forall i | 0 <= i < |t.jobs| ensures JobTouched(t, r, app, next, i) {
      assert JobTouched(t, before, app, n, i);
      if r != before { Terminates(before.jobs, BoundTo(n), Cancelled, i); }
    }
  }

  /** A new grant ends what ran under the app's earlier ones, and touches no other job or grant. */
  lemma AddGrantTouches(t: Tables, env: Env, app: nat, identity: Identity, expiresAt: int)
    requires IsScan(env.scan, |t.jobs|) && AddGrantRoute(t, env, app, identity, expiresAt).reply.Created?
    ensures var s, u := Sweep(t, env), AddGrantRoute(t, env, app, identity, expiresAt).db;
            && |u.grants| == |t.grants| + 1 && u.apps == s.apps && u.runners == t.runners
            && u.grants[|t.grants|] == Grant(app, identity, expiresAt, 1, false, OPERATION_HASH)
            && Touched(s, u.(grants := u.grants[..|t.grants|]), app, |t.grants|)
  {
    var s := Sweep(t, env);
    RevokeGrantsTouches(s, app, |s.grants|);
    var r, u := RevokeGrantsOf(s, app, |s.grants|), AddGrantRoute(t, env, app, identity, expiresAt).db;
    assert u.(grants := u.grants[..|t.grants|]) == r;
  }

  /** Revoking an app ends its live jobs and revokes its grants, and touches no other app, job or grant. */
  lemma RevokeAppTouches(t: Tables, env: Env, app: nat)
    requires Inv(t, env.now) && IsScan(env.scan, |t.jobs|) && RevokeAppRoute(t, env, app).reply.Done?
    ensures var s, u := Sweep(t, env), RevokeAppRoute(t, env, app).db;
            && |u.jobs| == |t.jobs| && |u.grants| == |t.grants| && u.runners == t.runners
            && app < |s.apps| && u.apps == s.apps[app := s.apps[app].(revoked := true)]
            && (forall g :: 0 <= g < |t.grants| ==> GrantTouched(s.grants, u.grants, app, |t.grants|, g))
            && (forall i :: 0 <= i < |t.jobs| ==>
                  u.jobs[i] == if s.jobs[i].appId == app && !Terminal(s.jobs[i].state)
                               then s.jobs[i].(state := Cancelled, result := None, lease := None) else s.jobs[i])
  {
    var s := Sweep(t, env);
    SweepQuiet(t, env);
    var a := s.(apps := s.apps[app := s.apps[app].(revoked := true)]);
    RevokeGrantsTouches(a, app, |a.grants|);
    RevokedAppJobs(s, a, RevokeGrantsOf(a, app, |a.grants|), app, env.now);
  }

  lemma RevokedAppJobs(s: Tables, a: Tables, r: Tables, app: nat, clock: int)
    requires Inv(s, clock) && Touched(a, r, app, |a.grants|) && a.jobs == s.jobs && a.grants == s.grants
    ensures var jobs := TerminateWhere(r.jobs, OfApp(app), Cancelled);
            |jobs| == |s.jobs| && forall i :: 0 <= i < |s.jobs| ==>
              jobs[i] == if s.jobs[i].appId == app && !Terminal(s.jobs[i].state)
                         then s.jobs[i].(state := Cancelled, result := None, lease := None) else s.jobs[i]
  {
    forall i | 0 <= i < |s.jobs|
      ensures TerminateWhere(r.jobs, OfApp(app), Cancelled)[i]
              == if s.jobs[i].appId == app && !Terminal(s.jobs[i].state)
                 then s.jobs[i].(state := Cancelled, result := None, lease := None) else s.jobs[i]
    {
      assert JobOk(s, s.jobs[i]) && JobTouched(a, r, app, |a.grants|, i);
      Terminates(r.jobs, OfApp(app), Cancelled, i);
    }
  }
}
