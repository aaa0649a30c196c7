/**
  The broker as it runs: rows are rewritten in place, and a rejected route restores the tables it
  found.  Each method is proved to have the effect that `HostTasks` gives its route.
*/
module HostTaskBroker {
  import opened Wrappers
  import opened HostTasks

  class Broker {
    var apps: seq<App>
    var grants: seq<Grant>
    var runners: seq<Runner>
    var jobs: seq<Job>

    ghost function View(): Tables
      reads this
    {
      Tables(apps, grants, runners, jobs)
    }

    constructor ()
      ensures View() == Tables([], [], [], [])
    {
      apps, grants, runners, jobs := [], [], [], [];
    }

    /** Undoes a transaction. */
    method Rollback(saved: Tables)
      modifies this
      ensures View() == saved
    {
      apps, grants, runners, jobs := saved.apps, saved.grants, saved.runners, saved.jobs;
    }

    method End(j: nat, state: JobState)
      requires j < |jobs|
      modifies this`jobs
      ensures View() == Terminate(old(View()), j, state)
    {
      jobs := jobs[j := Terminated(jobs[j], state)];
    }

    method EndEach(doomed: Job -> bool, state: JobState)
      modifies this`jobs
      ensures jobs == TerminateWhere(old(jobs), doomed, state)
    {
      ghost var was := jobs;
      for i := 0 to |jobs|
        invariant |jobs| == |was|
        invariant forall k :: 0 <= k < i ==> jobs[k] == TerminateWhere(was, doomed, state)[k]
        invariant forall k :: i <= k < |jobs| ==> jobs[k] == was[k]
      {
        if doomed(jobs[i]) { End(i, state); }
      }
    }

    method LatestGrant(app: nat, now: int) returns (best: Option<nat>)
      ensures best == LiveGrant(grants, app, now)
    {
      best := None;
      for i := 0 to |grants|
        invariant best == LiveGrant(grants[..i], app, now)
      {
        assert grants[..i + 1][..i] == grants[..i];
        if GrantLive(grants[i], app, now) && (best.None? || grants[best.value].expiresAt < grants[i].expiresAt) {
          best := Some(i);
        }
      }
      assert grants[..|grants|] == grants;
    }

    method Busy(app: nat) returns (active: bool, awaiting: bool)
      ensures active == HasActive(jobs, app) && awaiting == HasAwaiting(jobs, app)
    {
      active, awaiting := false, false;
      for i := 0 to |jobs|
        invariant active == HasActive(jobs[..i], app) && awaiting == HasAwaiting(jobs[..i], app)
      {
        if jobs[i].appId == app && Active(jobs[i].state) { active := true; assert Active(jobs[..i + 1][i].state); }
        if jobs[i].appId == app && jobs[i].state.AwaitingApproval? {
          awaiting := true;
          assert jobs[..i + 1][i].state.AwaitingApproval?;
        }
        assert forall k :: 0 <= k < i ==> jobs[..i + 1][k] == jobs[..i][k];
      }
      assert jobs[..|jobs|] == jobs;
    }

    method SweepOne(j: nat, now: int)
      requires j < |jobs| && !Terminal(jobs[j].state)
      modifies this`jobs
      ensures View() == SweepRow(old(View()), j, now)
    {
      var job := jobs[j];
      if job.stored.None? { End(j, Expired); return; }
      if !AppLive(apps, job.appId) { End(j, Cancelled); return; }
      if job.runner.Some? && !RunnerLive(runners, job.runner.value) { End(j, Cancelled); return; }
      if !Intact(job) || (job.expiresAt <= now && !job.state.Succeeded?) { End(j, Expired); return; }
      if job.state.AwaitingApproval? {
        var g := LatestGrant(job.appId, now);
        var active, _ := Busy(job.appId);
        if g.Some? && !active { jobs := jobs[j := Approved(grants, job, g.value)]; }
        return;
      }
      if !BindingHolds(grants, job, now) {
        End(j, Expired);
      } else if job.state.Succeeded? && (job.result.None? || job.result.value.until <= now) {
        End(j, Expired);
      } else if job.state.Running? && (job.lease.None? || job.lease.value.until <= now) {
        if job.attempt >= MAX_ATTEMPTS { End(j, Expired); } else { jobs := jobs[j := Requeued(job)]; }
      }
    }

    method SweepAll(env: Env)
      requires IsScan(env.scan, |jobs|)
      modifies this
      ensures View() == Sweep(old(View()), env)
    {
      ghost var start := View();
      for a := 0 to |apps|
        invariant |apps| == |start.apps| && grants == start.grants && runners == start.runners && jobs == start.jobs
        invariant forall k :: 0 <= k < a ==> apps[k] == RevokeLapsed(start, env.lapsed).apps[k]
        invariant forall k :: a <= k < |apps| ==> apps[k] == start.apps[k]
      {
        if a in env.lapsed && !apps[a].revoked { apps := apps[a := apps[a].(revoked := true)]; }
      }
      ghost var lapsed := RevokeLapsed(start, env.lapsed);
      assert apps == lapsed.apps;
      for n := 0 to |env.scan|
        invariant View() == SweepUpTo(lapsed, env.scan, n, env.now)
      {
        if !Terminal(jobs[env.scan[n]].state) { SweepOne(env.scan[n], env.now); }
      }
    }

    method Revoke(g: nat)
      requires g < |grants|
      modifies this`grants, this`jobs
      ensures View() == RevokeGrantRows(old(View()), g)
    {
      if !grants[g].revoked {
        grants := grants[g := grants[g].(revoked := true, generation := grants[g].generation + 1)];
      }
      EndEach(BoundTo(g), Cancelled);
    }

    method RevokeAllOf(app: nat)
      modifies this`grants, this`jobs
      ensures View() == RevokeGrantsOf(old(View()), app, |old(grants)|)
    {
      ghost var start := View();
      for g := 0 to |grants|
        invariant |grants| == |start.grants| && View() == RevokeGrantsOf(start, app, g)
      {
        if grants[g].appId == app && !grants[g].revoked { Revoke(g); }
      }
    }

    method AddGrant(env: Env, app: nat, identity: Identity, expiresAt: int) returns (reply: Reply)
      requires IsScan(env.scan, |jobs|)
      modifies this
      ensures Outcome(View(), reply) == AddGrantRoute(old(View()), env, app, identity, expiresAt)
    {
      var saved := Tables(apps, grants, runners, jobs);
      SweepAll(env);
      if !AppLive(apps, app) { Rollback(saved); return Rejected("app_not_found"); }
      if expiresAt <= env.now || expiresAt > env.now + GRANT_MS { Rollback(saved); return Rejected("invalid_expiry"); }
      RevokeAllOf(app);
      grants := grants + [Grant(app, identity, expiresAt, 1, false, OPERATION_HASH)];
      reply := Created(|grants| - 1);
    }

    method RevokeApp(env: Env, app: nat) returns (reply: Reply)
      requires IsScan(env.scan, |jobs|)
      modifies this
      ensures Outcome(View(), reply) == RevokeAppRoute(old(View()), env, app)
    {
      var saved := Tables(apps, grants, runners, jobs);
      SweepAll(env);
      if app >= |apps| { Rollback(saved); return Rejected("app_not_found"); }
      apps := apps[app := apps[app].(revoked := true)];
      RevokeAllOf(app);
      EndEach(OfApp(app), Cancelled);
      reply := Done;
    }

    method RevokeGrant(env: Env, g: nat) returns (reply: Reply)
      requires IsScan(env.scan, |jobs|)
      modifies this
      ensures Outcome(View(), reply) == RevokeGrantRoute(old(View()), env, g)
    {
      var saved := Tables(apps, grants, runners, jobs);
      SweepAll(env);
      if g >= |grants| { Rollback(saved); return Rejected("grant_not_found"); }
      Revoke(g);
      reply := Done;
    }

    method RevokeRunner(env: Env, runner: nat) returns (reply: Reply)
      requires IsScan(env.scan, |jobs|)
      modifies this
      ensures Outcome(View(), reply) == RevokeRunnerRoute(old(View()), env, runner)
    {
      var saved := Tables(apps, grants, runners, jobs);
      SweepAll(env);
      if runner >= |runners| { Rollback(saved); return Rejected("runner_not_found"); }
      runners := runners[runner := runners[runner].(revoked := true)];
      EndEach(RunBy(runner), Cancelled);
      reply := Done;
    }

    method Deny(env: Env, j: nat) returns (reply: Reply)
      requires IsScan(env.scan, |jobs|)
      modifies this
      ensures Outcome(View(), reply) == DenyRoute(old(View()), env, j)
    {
      var saved := Tables(apps, grants, runners, jobs);
      SweepAll(env);
      if j >= |jobs| { Rollback(saved); return Rejected("job_not_found"); }
      End(j, Denied);
      reply := Done;
    }

    method OldestQueued(who: Identity) returns (best: Option<nat>)
      ensures best == NextQueued(View(), who, |jobs|)
    {
      best := None;
      for i := 0 to |jobs|
        invariant best == NextQueued(View(), who, i)
      {
        if Claimable(Tables(apps, grants, runners, jobs), i, who)
           && (best.None? || jobs[i].createdAt < jobs[best.value].createdAt) {
          best := Some(i);
        }
      }
    }

    method Claim(env: Env, runner: nat, token: nat) returns (reply: Reply)
      requires IsScan(env.scan, |jobs|)
      modifies this
      ensures Outcome(View(), reply) == ClaimRoute(old(View()), env, runner, token)
    {
      var saved := Tables(apps, grants, runners, jobs);
      if !RunnerLive(runners, runner) { return Rejected("invalid_credential"); }
      SweepAll(env);
      if !env.identityOk { Rollback(saved); return Rejected("execution_blocked"); }
      SweepAll(env);
      var next := OldestQueued(runners[runner].identity);
      if next.None? { return NoJob; }
      var j := next.value;
      var job := jobs[j];
      var until := Min(env.now + LEASE_MS, Min(job.expiresAt, grants[job.binding.value.grantId].expiresAt));
      jobs := jobs[j := job.(state := Running, attempt := job.attempt + 1, runner := Some(runner),
                             lease := Some(Lease(token, until)))];
      reply := Dispatched(j, job.attempt + 1, until);
    }

    method TakeLease(env: Env, p: LeaseProof) returns (reply: Reply)
      requires IsScan(env.scan, |jobs|)
      modifies this
      ensures reply == CheckLease(old(View()), env, p).reply
      ensures reply.Done? ==> View() == CheckLease(old(View()), env, p).db
    {
      var t := Tables(apps, grants, runners, jobs);
      if !HoldsLease(t, p, env.now) { return Rejected("stale_lease"); }
      if !SameIdentity(t, p) || !env.identityOk { return Rejected("identity_not_verified"); }
      SweepAll(env);
      reply := if jobs[p.job].state.Running? then Done else Rejected("stale_lease");
    }

    method Heartbeat(env: Env, p: LeaseProof) returns (reply: Reply)
      requires IsScan(env.scan, |jobs|)
      modifies this
      ensures Outcome(View(), reply) == HeartbeatRoute(old(View()), env, p)
    {
      var saved := Tables(apps, grants, runners, jobs);
      if !RunnerLive(runners, p.runner) { return Rejected("invalid_credential"); }
      SweepAll(env);
      var swept := jobs;
      reply := TakeLease(env, p);
      if reply.Done? { reply := LeaseUntil(swept[p.job].lease.value.until); } else { Rollback(saved); }
    }

    method Complete(env: Env, p: LeaseProof, payload: Payload, who: Principal, result: nat) returns (reply: Reply)
      requires IsScan(env.scan, |jobs|)
      modifies this
      ensures Outcome(View(), reply) == CompleteRoute(old(View()), env, p, payload, who, result)
    {
      var saved := Tables(apps, grants, runners, jobs);
      if !RunnerLive(runners, p.runner) { return Rejected("invalid_credential"); }
      SweepAll(env);
      var swept := jobs;
      reply := TakeLease(env, p);
      if !reply.Done? { Rollback(saved); return; }
      var job := swept[p.job];
      if payload != job.payload { Rollback(saved); return Rejected("request_binding_mismatch"); }
      if job.binding.None? || who != Principal(job.appId, job.binding.value.grantId, job.binding.value.generation) {
        Rollback(saved);
        return Rejected("principal_binding_mismatch");
      }
      if !env.evidenceOk { Rollback(saved); return Rejected("snapshot_evidence_mismatch"); }
      reply := TakeLease(env, p);
      if !reply.Done? { Rollback(saved); return; }
      jobs := jobs[p.job := jobs[p.job].(state := Succeeded, lease := None,
                                         result := Some(StoredResult(result, env.now + RESULT_MS)))];
      reply := Accepted;
    }

    method Fail(env: Env, p: LeaseProof, payload: Payload, needsSignIn: bool) returns (reply: Reply)
      requires IsScan(env.scan, |jobs|)
      modifies this
      ensures Outcome(View(), reply) == FailRoute(old(View()), env, p, payload, needsSignIn)
    {
      var saved := Tables(apps, grants, runners, jobs);
      if !RunnerLive(runners, p.runner) { return Rejected("invalid_credential"); }
      SweepAll(env);
      var swept := jobs;
      reply := TakeLease(env, p);
      if !reply.Done? { Rollback(saved); return; }
      if payload != swept[p.job].payload { Rollback(saved); return Rejected("request_binding_mismatch"); }
      End(p.job, if needsSignIn then NeedsSignIn else Failed);
      reply := Accepted;
    }

    method CountManual(app: nat, since: int) returns (n: nat)
      ensures n == ManualSince(jobs, app, since)
    {
      n := 0;
      for i := 0 to |jobs|
        invariant n == ManualSince(jobs[..i], app, since)
      {
        assert jobs[..i + 1][..i] == jobs[..i];
        if jobs[i].appId == app && jobs[i].manual && jobs[i].createdAt > since { n := n + 1; }
      }
      assert jobs[..|jobs|] == jobs;
    }

    /** The creation time of the app's newest request, against which a refresh is paced. */
    method RecentlyAsked(app: nat, now: int, gap: int) returns (tooSoon: bool)
      ensures tooSoon == TooSoon(jobs, app, now, gap)
    {
      var latest: Option<nat> := None;
      for i := 0 to |jobs|
        invariant latest.Some? ==> latest.value < i && jobs[latest.value].appId == app
        invariant latest.Some? ==>
                    forall k :: 0 <= k < i && jobs[k].appId == app ==> jobs[k].createdAt <= jobs[latest.value].createdAt
        invariant latest.None? ==> forall k :: 0 <= k < i ==> jobs[k].appId != app
      {
        if jobs[i].appId == app && (latest.None? || jobs[latest.value].createdAt < jobs[i].createdAt) {
          latest := Some(i);
        }
      }
      tooSoon := latest.Some? && now - jobs[latest.value].createdAt < gap;
    }

    method AdmitRequest(app: nat, request: Request, now: int) returns (reply: Reply)
      modifies this`jobs
      ensures Outcome(View(), reply) == Admit(old(View()), app, request, now)
    {
      var prior := FindKey(jobs, app, request.key);
      if prior.Some? {
        if jobs[prior.value].payload != Payload(request, OPERATION_HASH)
           || jobs[prior.value].operationHash != OPERATION_HASH {
          return Rejected("idempotency_conflict");
        }
        return Created(prior.value);
      }
      var g := LatestGrant(app, now);
      var active, awaiting := Busy(app);
      if g.Some? && active { return Rejected("scope_busy"); }
      if g.None? && awaiting { return Rejected("approval_pending"); }
      var tooSoon := RecentlyAsked(app, now, if request.manual then MANUAL_GAP_MS else ROUTINE_GAP_MS);
      if tooSoon { return Rejected("refresh_rate_limited"); }
      var manual := CountManual(app, now - MANUAL_WINDOW_MS);
      if request.manual && manual >= 2 { return Rejected("manual_refresh_limit"); }
      jobs := jobs + [NewJob(grants, app, request, g, now)];
      reply := Created(|jobs| - 1);
    }

    method Submit(env: Env, app: nat, request: Request) returns (reply: Reply)
      requires IsScan(env.scan, |jobs|)
      modifies this
      ensures Outcome(View(), reply) == SubmitRoute(old(View()), env, app, request)
    {
      var saved := Tables(apps, grants, runners, jobs);
      if !AppLive(apps, app) { return Rejected("invalid_credential"); }
      SweepAll(env);
      reply := AdmitRequest(app, request, env.now);
      if reply.Rejected? { Rollback(saved); }
    }

    method Acknowledge(env: Env, app: nat, j: nat) returns (reply: Reply)
      requires IsScan(env.scan, |jobs|)
      modifies this
      ensures Outcome(View(), reply) == AcknowledgeRoute(old(View()), env, app, j)
    {
      var saved := Tables(apps, grants, runners, jobs);
      if !AppLive(apps, app) { return Rejected("invalid_credential"); }
      SweepAll(env);
      if j >= |jobs| || jobs[j].appId != app { Rollback(saved); return Rejected("job_not_found"); }
      if !jobs[j].state.Succeeded? && !jobs[j].state.Acknowledged? {
        Rollback(saved);
        return Rejected("result_not_available");
      }
      End(j, Acknowledged);
      reply := Done;
    }

    method Cancel(env: Env, app: nat, j: nat) returns (reply: Reply)
      requires IsScan(env.scan, |jobs|)
      modifies this
      ensures Outcome(View(), reply) == CancelRoute(old(View()), env, app, j)
    {
      var saved := Tables(apps, grants, runners, jobs);
      if !AppLive(apps, app) { return Rejected("invalid_credential"); }
      SweepAll(env);
      if j >= |jobs| || jobs[j].appId != app { Rollback(saved); return Rejected("job_not_found"); }
      if Terminal(jobs[j].state) && !jobs[j].state.Cancelled? { Rollback(saved); return Rejected("job_terminal"); }
      End(j, Cancelled);
      reply := Done;
    }
  }
}
