/**
  What every run of the host-task broker keeps: the job machine, one pending job per app,
  request pacing, and the fencing of attempts by leases.
*/
module HostTaskProofs {
  import opened Wrappers
  import opened HostTasks

  // ---------------------------------------------------------------- the invariant

  /** An active or succeeded job is bound to a live row of the grants table, exactly as it was approved. */
  ghost predicate BoundOk(t: Tables, job: Job) {
    && job.binding.Some?
    && job.binding.value.grantId < |t.grants|
    && var g := t.grants[job.binding.value.grantId];
    && g.appId == job.appId && !g.revoked
    && g.generation == job.binding.value.generation
    && g == job.binding.value.digest
    && (Active(job.state) ==> job.expiresAt <= g.expiresAt)
    && (job.lease.Some? ==> job.lease.value.until <= Min(job.expiresAt, g.expiresAt))
  }

  ghost predicate JobOk(t: Tables, job: Job) {
    && job.appId < |t.apps|
    && Intact(job)
    && (job.result.Some? <==> job.state.Succeeded?)
    && (job.lease.Some? <==> job.state.Running?)
    && (job.state.AwaitingApproval? ==> job.attempt == 0 && job.runner.None? && job.binding.None?)
    && (job.state.Queued? ==> job.attempt < MAX_ATTEMPTS && job.runner.None?)
    && (job.state.Running? || job.state.Succeeded? ==>
          1 <= job.attempt <= MAX_ATTEMPTS && job.runner.Some? && RunnerLive(t.runners, job.runner.value))
    && (Active(job.state) || job.state.Succeeded? ==> BoundOk(t, job))
  }

  ghost predicate JobsOk(t: Tables) {
    forall i :: 0 <= i < |t.jobs| ==> JobOk(t, t.jobs[i])
  }

  ghost predicate GrantsOk(t: Tables) {
    && (forall g :: 0 <= g < |t.grants| ==> t.grants[g].operationHash == OPERATION_HASH)
    && (forall g, h :: 0 <= g < h < |t.grants| && t.grants[g].appId == t.grants[h].appId ==>
          t.grants[g].revoked || t.grants[h].revoked)
  }

  /** Each app has at most one job awaiting approval, queued or running. */
  ghost predicate Exclusive(jobs: seq<Job>) {
    forall i, k :: 0 <= i < k < |jobs| && jobs[i].appId == jobs[k].appId ==>
      !(Pending(jobs[i].state) && Pending(jobs[k].state))
  }

  ghost predicate AllManual(a: Job, b: Job, c: Job) {
    a.appId == b.appId == c.appId && a.manual && b.manual && c.manual
  }

  /** Requests of one app are spaced, and no idempotency key is used twice. */
  ghost predicate Paced(jobs: seq<Job>) {
    && (forall i, k :: 0 <= i < k < |jobs| && jobs[i].appId == jobs[k].appId ==>
          && jobs[i].key != jobs[k].key
          && jobs[k].createdAt - jobs[i].createdAt >= if jobs[k].manual then MANUAL_GAP_MS else ROUTINE_GAP_MS)
    && (forall i, k, m :: 0 <= i < k < m < |jobs| && AllManual(jobs[i], jobs[k], jobs[m]) ==>
          jobs[m].createdAt - jobs[i].createdAt >= MANUAL_WINDOW_MS)
  }

  ghost predicate CreatedBy(jobs: seq<Job>, clock: int) {
    forall i :: 0 <= i < |jobs| ==> jobs[i].createdAt <= clock
  }

  ghost predicate Inv(t: Tables, clock: int) {
    JobsOk(t) && GrantsOk(t) && Exclusive(t.jobs) && Paced(t.jobs) && CreatedBy(t.jobs, clock)
  }

  // ---------------------------------------------------------------- how tables may change

  /** The columns written when a request is inserted are never written again. */
  ghost predicate SameRequest(a: Job, b: Job) {
    && a.appId == b.appId && a.key == b.key && a.manual == b.manual && a.createdAt == b.createdAt
    && a.stored == b.stored && a.payload == b.payload && a.operationHash == b.operationHash
  }

  /** What a step that neither claims nor finishes a job may do to a row. */
  ghost predicate RowFollows(a: Job, b: Job) {
    && SameRequest(a, b)
    && a.attempt == b.attempt
    && (Pending(b.state) ==> Pending(a.state))
    && (b.state.Running? || b.state.Succeeded? ==> a == b)
    && (Terminal(a.state) ==> Terminal(b.state))
  }

  ghost predicate Follows(a: seq<Job>, b: seq<Job>) {
    && |a| <= |b|
    && (forall i :: 0 <= i < |a| ==> RowFollows(a[i], b[i]))
    && (forall i :: |a| <= i < |b| ==> b[i].attempt == 0 && !b[i].state.Running? && !b[i].state.Succeeded?)
  }

  lemma FollowsTransitive(a: seq<Job>, b: seq<Job>, c: seq<Job>)
    requires Follows(a, b) && Follows(b, c)
    ensures Follows(a, c)
  {
    forall i | 0 <= i < |a| ensures RowFollows(a[i], c[i]) {
      assert RowFollows(a[i], b[i]) && RowFollows(b[i], c[i]);
    }
    forall i | |a| <= i < |c|
      ensures c[i].attempt == 0 && !c[i].state.Running? && !c[i].state.Succeeded?
    {
      if i < |b| { assert RowFollows(b[i], c[i]); }
    }
  }

  /** Rewriting rows without adding any keeps the invariant when the rewritten rows are fine by themselves. */
  lemma Evolve(t: Tables, u: Tables, clock: int)
    requires Inv(t, clock) && GrantsOk(u) && JobsOk(u) && |u.jobs| == |t.jobs|
    requires forall i :: 0 <= i < |t.jobs| ==>
               SameRequest(t.jobs[i], u.jobs[i]) && (Pending(u.jobs[i].state) ==> Pending(t.jobs[i].state))
    ensures Inv(u, clock)
  {
    forall i | 0 <= i < |u.jobs| ensures u.jobs[i].createdAt <= clock {
      assert SameRequest(t.jobs[i], u.jobs[i]);
    }
    forall i, k | 0 <= i < k < |u.jobs| && u.jobs[i].appId == u.jobs[k].appId
      ensures !(Pending(u.jobs[i].state) && Pending(u.jobs[k].state))
      ensures u.jobs[i].key != u.jobs[k].key
      ensures u.jobs[k].createdAt - u.jobs[i].createdAt >= if u.jobs[k].manual then MANUAL_GAP_MS else ROUTINE_GAP_MS
    {
      assert SameRequest(t.jobs[i], u.jobs[i]) && SameRequest(t.jobs[k], u.jobs[k]);
    }
    forall i, k, m | 0 <= i < k < m < |u.jobs| && AllManual(u.jobs[i], u.jobs[k], u.jobs[m])
      ensures u.jobs[m].createdAt - u.jobs[i].createdAt >= MANUAL_WINDOW_MS
    {
      assert SameRequest(t.jobs[i], u.jobs[i]) && SameRequest(t.jobs[k], u.jobs[k])
        && SameRequest(t.jobs[m], u.jobs[m]);
    }
  }

  /** `Evolve` for one rewritten row. */
  lemma EvolveRow(t: Tables, j: nat, job: Job, clock: int)
    requires Inv(t, clock) && j < |t.jobs| && JobOk(t, job) && SameRequest(t.jobs[j], job)
    requires Pending(job.state) ==> Pending(t.jobs[j].state)
    ensures Inv(SetJob(t, j, job), clock)
  {
    var u := SetJob(t, j, job);
    forall i | 0 <= i < |u.jobs| ensures JobOk(u, u.jobs[i]) {
      assert JobOk(t, t.jobs[i]);
    }
    Evolve(t, u, clock);
  }

  // ---------------------------------------------------------------- the sweep

  /** What a live job satisfies once the sweep at `now` has visited it. */
  ghost predicate Settled(t: Tables, job: Job, now: int) {
    !Terminal(job.state) ==>
      && AppLive(t.apps, job.appId)
      && (Pending(job.state) ==> job.expiresAt > now)
      && (job.state.AwaitingApproval? ==> LiveGrant(t.grants, job.appId, now).None?)
      && (job.state.Running? ==> job.lease.Some? && job.lease.value.until > now)
      && (job.state.Succeeded? ==> job.result.Some? && job.result.value.until > now)
      && (!job.state.AwaitingApproval? ==> BindingHolds(t.grants, job, now))
  }

  lemma TerminatedOk(t: Tables, job: Job, state: JobState)
    requires JobOk(t, job) && Terminal(state)
    ensures JobOk(t, Terminated(job, state)) && RowFollows(job, Terminated(job, state))
  {
  }

  ghost predicate AllSettled(s: Tables, now: int) {
    forall j :: 0 <= j < |s.jobs| ==> Settled(s, s.jobs[j], now)
  }

  lemma SweptJobOk(t: Tables, job: Job, now: int)
    requires JobOk(t, job) && GrantsOk(t) && !Terminal(job.state)
    ensures JobOk(t, SweptJob(t, job, now)) && RowFollows(job, SweptJob(t, job, now))
    ensures !HasActive(t.jobs, job.appId) || !job.state.AwaitingApproval? ==> Settled(t, SweptJob(t, job, now), now)
  {
    var swept := SweptJob(t, job, now);
    TerminatedOk(t, job, Expired);
    TerminatedOk(t, job, Cancelled);
    if Terminal(swept.state) {
      assert swept == Terminated(job, swept.state);
    } else if job.state.AwaitingApproval? {
      var g := LiveGrant(t.grants, job.appId, now);
      if g.Some? && !HasActive(t.jobs, job.appId) {
        assert swept == Approved(t.grants, job, g.value);
        assert BoundOk(t, swept);
      }
    } else if swept != job {
      assert swept == Requeued(job);
      assert BoundOk(t, job);
    }
  }

  lemma ExclusiveAwaiting(jobs: seq<Job>, j: nat)
    requires Exclusive(jobs) && j < |jobs| && jobs[j].state.AwaitingApproval?
    ensures !HasActive(jobs, jobs[j].appId)
  {
  }

  lemma SweepRowOk(t: Tables, j: nat, now: int, clock: int)
    requires Inv(t, clock) && j < |t.jobs|
    ensures Inv(SweepRow(t, j, now), clock) && Follows(t.jobs, SweepRow(t, j, now).jobs)
    ensures Settled(t, SweepRow(t, j, now).jobs[j], now)
  {
    var job := t.jobs[j];
    assert JobOk(t, job);
    if !Terminal(job.state) {
      SweptJobOk(t, job, now);
      if job.state.AwaitingApproval? { ExclusiveAwaiting(t.jobs, j); }
      EvolveRow(t, j, SweptJob(t, job, now), clock);
    }
  }

  /** The row a sweep leaves behind depends on that row alone, not on the order of the scan. */
  ghost function SweptAlone(t: Tables, j: nat, now: int): Job
    requires j < |t.jobs|
  {
    SweepRow(t, j, now).jobs[j]
  }

  lemma SweptAloneAgrees(t: Tables, u: Tables, j: nat, now: int, clock: int)
    requires Inv(t, clock) && u.apps == t.apps && u.grants == t.grants && u.runners == t.runners
    requires Follows(t.jobs, u.jobs) && |u.jobs| == |t.jobs| && j < |t.jobs| && u.jobs[j] == t.jobs[j]
    ensures SweptAlone(u, j, now) == SweptAlone(t, j, now)
  {
    var job := t.jobs[j];
    if job.state.AwaitingApproval? {
      ExclusiveAwaiting(t.jobs, j);
      assert !HasActive(u.jobs, job.appId) by {
        forall i | 0 <= i < |u.jobs| && u.jobs[i].appId == job.appId ensures !Active(u.jobs[i].state) {
          assert RowFollows(t.jobs[i], u.jobs[i]);
        }
      }
    }
  }

  ghost predicate RowAfter(t: Tables, u: Tables, visited: seq<nat>, j: nat, now: int)
    requires j < |t.jobs| && |u.jobs| == |t.jobs|
  {
    u.jobs[j] == if j in visited then SweptAlone(t, j, now) else t.jobs[j]
  }

  ghost predicate SweptSoFar(t: Tables, u: Tables, visited: seq<nat>, now: int, clock: int) {
    && Inv(u, clock) && Follows(t.jobs, u.jobs) && |u.jobs| == |t.jobs|
    && u.apps == t.apps && u.grants == t.grants && u.runners == t.runners
    && forall j :: 0 <= j < |t.jobs| ==> RowAfter(t, u, visited, j, now)
  }

  lemma SweepOneMore(t: Tables, u: Tables, visited: seq<nat>, j: nat, now: int, clock: int)
    requires Inv(t, clock) && SweptSoFar(t, u, visited, now, clock) && j < |t.jobs| && j !in visited
    ensures SweptSoFar(t, SweepRow(u, j, now), visited + [j], now, clock)
  {
    var after := SweepRow(u, j, now);
    SweepRowOk(u, j, now, clock);
    FollowsTransitive(t.jobs, u.jobs, after.jobs);
    assert RowAfter(t, u, visited, j, now);
    SweptAloneAgrees(t, u, j, now, clock);
    forall i | 0 <= i < |t.jobs| ensures RowAfter(t, after, visited + [j], i, now) {
      assert RowAfter(t, u, visited, i, now);
    }
  }

  lemma {:induction false} SweepUpToOk(t: Tables, scan: seq<nat>, n: nat, now: int, clock: int)
    requires Inv(t, clock) && n <= |scan|
    requires forall i :: 0 <= i < |scan| ==> scan[i] < |t.jobs|
    requires forall i, k :: 0 <= i < k < |scan| ==> scan[i] != scan[k]
    ensures SweptSoFar(t, SweepUpTo(t, scan, n, now), scan[..n], now, clock)
  {
    if n > 0 {
      SweepUpToOk(t, scan, n - 1, now, clock);
      SweepTurn(t, SweepUpTo(t, scan, n - 1, now), SweepUpTo(t, scan, n, now), scan, n, now, clock);
    } else {
      NoneSwept(t, scan[..n], now, clock);
    }
  }

  lemma SweepTurn(t: Tables, u: Tables, after: Tables, scan: seq<nat>, n: nat, now: int, clock: int)
    requires Inv(t, clock) && 0 < n <= |scan| && scan[n - 1] < |t.jobs| && SweptSoFar(t, u, scan[..n - 1], now, clock)
    requires forall i, k :: 0 <= i < k < |scan| ==> scan[i] != scan[k]
    requires after == SweepRow(u, scan[n - 1], now)
    ensures SweptSoFar(t, after, scan[..n], now, clock)
  {
    NextIsNew(scan, n - 1);
    SweepOneMore(t, u, scan[..n - 1], scan[n - 1], now, clock);
  }

  lemma NoneSwept(t: Tables, none: seq<nat>, now: int, clock: int)
    requires Inv(t, clock) && |none| == 0
    ensures SweptSoFar(t, t, none, now, clock)
  {
    forall j | 0 <= j < |t.jobs| ensures RowAfter(t, t, none, j, now) { }
  }

  lemma NextIsNew(scan: seq<nat>, n: nat)
    requires n < |scan| && forall i, k :: 0 <= i < k < |scan| ==> scan[i] != scan[k]
    ensures scan[..n + 1] == scan[..n] + [scan[n]] && scan[n] !in scan[..n]
  {
  }

  lemma LapseOk(t: Tables, lapsed: set<nat>, clock: int)
    requires Inv(t, clock)
    ensures Inv(RevokeLapsed(t, lapsed), clock)
  {
    var u := RevokeLapsed(t, lapsed);
    forall i | 0 <= i < |u.jobs| ensures JobOk(u, u.jobs[i]) { assert JobOk(t, t.jobs[i]); }
    Evolve(t, u, clock);
  }

  /**
    A sweep keeps the invariant, leaves every live row settled, and treats each row as if it were
    the only one: whatever order the scan takes, the result is the same.
  */
  lemma SweepOk(t: Tables, env: Env, clock: int)
    requires Inv(t, clock) && IsScan(env.scan, |t.jobs|)
    ensures Inv(Sweep(t, env), clock) && Follows(t.jobs, Sweep(t, env).jobs)
    ensures forall j :: 0 <= j < |t.jobs| ==>
              && Sweep(t, env).jobs[j] == SweptAlone(RevokeLapsed(t, env.lapsed), j, env.now)
              && Settled(Sweep(t, env), Sweep(t, env).jobs[j], env.now)
  {
    var u := RevokeLapsed(t, env.lapsed);
    LapseOk(t, env.lapsed, clock);
    SweepUpToOk(u, env.scan, |env.scan|, env.now, clock);
    assert env.scan[..|env.scan|] == env.scan;
    forall j | 0 <= j < |t.jobs|
      ensures Settled(Sweep(t, env), Sweep(t, env).jobs[j], env.now)
      ensures Sweep(t, env).jobs[j] == SweptAlone(u, j, env.now)
    {
      assert RowAfter(u, Sweep(t, env), env.scan, j, env.now);
      SweepRowOk(u, j, env.now, clock);
    }
  }

  lemma SweepOrderIrrelevant(t: Tables, env: Env, scan: seq<nat>, clock: int)
    requires Inv(t, clock) && IsScan(env.scan, |t.jobs|) && IsScan(scan, |t.jobs|)
    ensures Sweep(t, env.(scan := scan)) == Sweep(t, env)
  {
    SweepOk(t, env, clock);
    SweepOk(t, env.(scan := scan), clock);
    assert Sweep(t, env.(scan := scan)).jobs == Sweep(t, env).jobs;
  }

  /** Sweeping twice at one reading of the clock is sweeping once. */
  lemma SweepIdempotent(t: Tables, env: Env, clock: int)
    requires Inv(t, clock) && IsScan(env.scan, |t.jobs|)
    ensures Sweep(Sweep(t, env), env) == Sweep(t, env)
  {
    var s := Sweep(t, env);
    SweepOk(t, env, clock);
    SweepOk(s, env, clock);
    assert RevokeLapsed(s, env.lapsed).apps == s.apps;
    assert RevokeLapsed(s, env.lapsed) == s;
    forall j | 0 <= j < |s.jobs| ensures SweptAlone(s, j, env.now) == s.jobs[j] {
      assert Settled(s, s.jobs[j], env.now) && JobOk(s, s.jobs[j]);
    }
    assert Sweep(s, env).jobs == s.jobs;
  }

  // ---------------------------------------------------------------- the routes

  /** A step that neither claims nor finishes a job. */
  ghost predicate QuietStep(t: Tables, u: Tables, clock: int) {
    Inv(u, clock) && Follows(t.jobs, u.jobs)
  }

  lemma QuietStepsCompose(t: Tables, u: Tables, v: Tables, clock: int)
    requires QuietStep(t, u, clock) && QuietStep(u, v, clock)
    ensures QuietStep(t, v, clock)
  {
    FollowsTransitive(t.jobs, u.jobs, v.jobs);
  }

  lemma TerminateOk(t: Tables, j: nat, state: JobState, clock: int)
    requires Inv(t, clock) && j < |t.jobs| && Terminal(state)
    ensures QuietStep(t, Terminate(t, j, state), clock)
  {
    assert JobOk(t, t.jobs[j]);
    TerminatedOk(t, t.jobs[j], state);
    EvolveRow(t, j, Terminated(t.jobs[j], state), clock);
  }

  /** Cancelling every job that the new tables no longer support. */
  lemma TerminateWhereOk(t: Tables, u: Tables, doomed: Job -> bool, clock: int)
    requires Inv(t, clock) && GrantsOk(u) && |u.apps| == |t.apps|
    requires u.jobs == TerminateWhere(t.jobs, doomed, Cancelled)
    requires forall i :: 0 <= i < |t.jobs| && !doomed(t.jobs[i]) ==> JobOk(u, t.jobs[i])
    ensures QuietStep(t, u, clock)
  {
    forall i | 0 <= i < |t.jobs| ensures JobOk(u, u.jobs[i]) && RowFollows(t.jobs[i], u.jobs[i]) {
      assert JobOk(t, t.jobs[i]);
      TerminatedOk(t, t.jobs[i], Cancelled);
    }
    Evolve(t, u, clock);
  }

  lemma RevokeGrantRowsOk(t: Tables, g: nat, clock: int)
    requires Inv(t, clock) && g < |t.grants|
    ensures QuietStep(t, RevokeGrantRows(t, g), clock)
  {
    var u := RevokeGrantRows(t, g);
    forall i | 0 <= i < |t.jobs| && !BoundTo(g)(t.jobs[i]) ensures JobOk(u, t.jobs[i]) {
      assert JobOk(t, t.jobs[i]);
    }
    TerminateWhereOk(t, u, BoundTo(g), clock);
  }

  ghost predicate AllRevoked(grants: seq<Grant>, app: nat, n: nat)
    requires n <= |grants|
  {
    forall i :: 0 <= i < n && grants[i].appId == app ==> grants[i].revoked
  }

  lemma RevokeOneMore(t: Tables, r: Tables, u: Tables, app: nat, g: nat, clock: int)
    requires QuietStep(t, r, clock) && g < |r.grants| && AllRevoked(r.grants, app, g)
    requires u == if r.grants[g].appId == app && !r.grants[g].revoked then RevokeGrantRows(r, g) else r
    ensures QuietStep(t, u, clock) && AllRevoked(u.grants, app, g + 1)
  {
    if u != r {
      RevokeGrantRowsOk(r, g, clock);
      QuietStepsCompose(t, r, u, clock);
    }
  }

  lemma QuietStepRefl(t: Tables, clock: int)
    requires Inv(t, clock)
    ensures QuietStep(t, t, clock)
  {
  }

  lemma {:induction false} RevokeGrantsOfOk(t: Tables, app: nat, n: nat, clock: int)
    requires Inv(t, clock) && n <= |t.grants|
    ensures QuietStep(t, RevokeGrantsOf(t, app, n), clock)
    ensures AllRevoked(RevokeGrantsOf(t, app, n).grants, app, n)
  {
    if n == 0 {
      QuietStepRefl(t, clock);
    } else {
      RevokeGrantsOfOk(t, app, n - 1, clock);
      RevokeOneMore(t, RevokeGrantsOf(t, app, n - 1), RevokeGrantsOf(t, app, n), app, n - 1, clock);
    }
  }

  lemma AddGrantOk(t: Tables, g: Grant, clock: int)
    requires Inv(t, clock) && g.operationHash == OPERATION_HASH
    requires forall i :: 0 <= i < |t.grants| && t.grants[i].appId == g.appId ==> t.grants[i].revoked
    ensures QuietStep(t, t.(grants := t.grants + [g]), clock)
  {
    var u := t.(grants := t.grants + [g]);
    forall i | 0 <= i < |t.jobs| ensures JobOk(u, t.jobs[i]) { assert JobOk(t, t.jobs[i]); }
    Evolve(t, u, clock);
  }

  /** Changing apps, or adding runners, touches no condition on a job. */
  lemma PeopleOk(t: Tables, u: Tables, clock: int)
    requires Inv(t, clock) && u.jobs == t.jobs && u.grants == t.grants
    requires |t.apps| <= |u.apps| && |t.runners| <= |u.runners| && u.runners[..|t.runners|] == t.runners
    ensures QuietStep(t, u, clock)
  {
    forall i | 0 <= i < |t.jobs| ensures JobOk(u, t.jobs[i]) {
      assert JobOk(t, t.jobs[i]);
      var r := t.jobs[i].runner;
      if r.Some? && RunnerLive(t.runners, r.value) { assert u.runners[..|t.runners|][r.value] == u.runners[r.value]; }
    }
    Evolve(t, u, clock);
  }

  lemma SweepQuiet(t: Tables, env: Env)
    requires Inv(t, env.now) && IsScan(env.scan, |t.jobs|)
    ensures QuietStep(t, Sweep(t, env), env.now) && AllSettled(Sweep(t, env), env.now)
  {
    SweepOk(t, env, env.now);
  }

  lemma PeopleQuiet(t: Tables, env: Env, op: Op)
    requires Inv(t, env.now) && IsScan(env.scan, |t.jobs|) && (op.AddApp? || op.AddRunner?)
    ensures QuietStep(t, Apply(t, env, op).db, env.now)
  {
    var s := Sweep(t, env);
    var u := Apply(t, env, op).db;
    QuietStepRefl(t, env.now);
    if u != t {
      SweepQuiet(t, env);
      PeopleOk(s, u, env.now);
      QuietStepsCompose(t, s, u, env.now);
    }
  }

  lemma RevokeGrantQuiet(t: Tables, env: Env, g: nat)
    requires Inv(t, env.now) && IsScan(env.scan, |t.jobs|)
    ensures QuietStep(t, RevokeGrantRoute(t, env, g).db, env.now)
  {
    var s := Sweep(t, env);
    QuietStepRefl(t, env.now);
    if g < |s.grants| {
      SweepQuiet(t, env);
      RevokeGrantRowsOk(s, g, env.now);
      QuietStepsCompose(t, s, RevokeGrantRows(s, g), env.now);
    }
  }

  lemma AddGrantQuiet(t: Tables, env: Env, app: nat, identity: Identity, expiresAt: int)
    requires Inv(t, env.now) && IsScan(env.scan, |t.jobs|)
    ensures QuietStep(t, AddGrantRoute(t, env, app, identity, expiresAt).db, env.now)
  {
    QuietStepRefl(t, env.now);
    AddGrantShape(t, env, app, identity, expiresAt);
    SweepQuiet(t, env);
    var g := Grant(app, identity, expiresAt, 1, false, OPERATION_HASH);
    ReplaceGrantsQuiet(Sweep(t, env), g, env.now);
    QuietStepsCompose(t, Sweep(t, env), ReplaceGrants(Sweep(t, env), g), env.now);
  }

  /** Revokes the app's grants and appends a new one. */
  ghost function ReplaceGrants(s: Tables, g: Grant): Tables {
    var r := RevokeGrantsOf(s, g.appId, |s.grants|);
    r.(grants := r.grants + [g])
  }

  lemma AddGrantShape(t: Tables, env: Env, app: nat, identity: Identity, expiresAt: int)
    requires IsScan(env.scan, |t.jobs|)
    ensures var u := AddGrantRoute(t, env, app, identity, expiresAt).db;
            u == t || u == ReplaceGrants(Sweep(t, env), Grant(app, identity, expiresAt, 1, false, OPERATION_HASH))
  {
  }

  lemma ReplaceGrantsQuiet(s: Tables, g: Grant, clock: int)
    requires Inv(s, clock) && g.operationHash == OPERATION_HASH
    ensures QuietStep(s, ReplaceGrants(s, g), clock)
  {
    var r := RevokeGrantsOf(s, g.appId, |s.grants|);
    RevokeGrantsOfOk(s, g.appId, |s.grants|, clock);
    AddGrantOk(r, g, clock);
    QuietStepsCompose(s, r, r.(grants := r.grants + [g]), clock);
  }

  lemma RevokeAppQuiet(t: Tables, env: Env, app: nat)
    requires Inv(t, env.now) && IsScan(env.scan, |t.jobs|)
    ensures QuietStep(t, RevokeAppRoute(t, env, app).db, env.now)
  {
    var s := Sweep(t, env);
    if app < |s.apps| {
      SweepQuiet(t, env);
      var a := s.(apps := s.apps[app := s.apps[app].(revoked := true)]);
      PeopleOk(s, a, env.now);
      QuietStepsCompose(t, s, a, env.now);
      var r := RevokeGrantsOf(a, app, |a.grants|);
      RevokeGrantsOfOk(a, app, |a.grants|, env.now);
      QuietStepsCompose(t, a, r, env.now);
      var u := r.(jobs := TerminateWhere(r.jobs, OfApp(app), Cancelled));
      forall i | 0 <= i < |r.jobs| ensures JobOk(u, r.jobs[i]) { assert JobOk(r, r.jobs[i]); }
      TerminateWhereOk(r, u, OfApp(app), env.now);
      QuietStepsCompose(t, r, u, env.now);
    }
  }

  lemma RevokeRunnerQuiet(t: Tables, env: Env, runner: nat)
    requires Inv(t, env.now) && IsScan(env.scan, |t.jobs|)
    ensures QuietStep(t, RevokeRunnerRoute(t, env, runner).db, env.now)
  {
    var s := Sweep(t, env);
    if runner < |s.runners| {
      SweepQuiet(t, env);
      var u := RevokeRunnerRoute(t, env, runner).db;
      forall i | 0 <= i < |s.jobs| && !RunBy(runner)(s.jobs[i]) ensures JobOk(u, s.jobs[i]) {
        assert JobOk(s, s.jobs[i]);
      }
      TerminateWhereOk(s, u, RunBy(runner), env.now);
      QuietStepsCompose(t, s, u, env.now);
    }
  }

  lemma SweepThenTerminate(t: Tables, env: Env, j: nat, state: JobState)
    requires Inv(t, env.now) && IsScan(env.scan, |t.jobs|) && j < |t.jobs| && Terminal(state)
    ensures QuietStep(t, Terminate(Sweep(t, env), j, state), env.now)
  {
    var s := Sweep(t, env);
    SweepQuiet(t, env);
    TerminateOk(s, j, state, env.now);
    QuietStepsCompose(t, s, Terminate(s, j, state), env.now);
  }

  lemma SettleQuiet(t: Tables, env: Env, op: Op)
    requires Inv(t, env.now) && IsScan(env.scan, |t.jobs|) && (op.Acknowledge? || op.Cancel? || op.Deny?)
    ensures QuietStep(t, Apply(t, env, op).db, env.now)
  {
    QuietStepRefl(t, env.now);
    SettleShape(t, env, op);
    if Apply(t, env, op).db == Sweep(t, env) { SweepQuiet(t, env); }
    else if Apply(t, env, op).db != t { SweepThenTerminate(t, env, SettledJob(op), SettledAs(op)); }
  }

  function SettledJob(op: Op): nat
    requires op.Acknowledge? || op.Cancel? || op.Deny?
  {
    match op case Acknowledge(_, j) => j case Cancel(_, j) => j case Deny(j) => j
  }

  function SettledAs(op: Op): JobState {
    if op.Acknowledge? then Acknowledged else if op.Cancel? then Cancelled else Denied
  }

  lemma SettleShape(t: Tables, env: Env, op: Op)
    requires IsScan(env.scan, |t.jobs|) && (op.Acknowledge? || op.Cancel? || op.Deny?)
    ensures var u := Apply(t, env, op).db;
            || u == t || u == Sweep(t, env)
            || (SettledJob(op) < |t.jobs| && u == Terminate(Sweep(t, env), SettledJob(op), SettledAs(op)))
  {
  }

  // ---------------------------------------------------------------- a new request

  lemma {:induction false} ManualSinceCounts(jobs: seq<Job>, app: nat, since: int, i: nat)
    requires i < |jobs| && jobs[i].appId == app && jobs[i].manual && jobs[i].createdAt > since
    ensures ManualSince(jobs, app, since) >= 1
  {
    if i < |jobs| - 1 { ManualSinceCounts(jobs[..|jobs| - 1], app, since, i); }
  }

  lemma {:induction false} ManualSinceCountsTwo(jobs: seq<Job>, app: nat, since: int, i: nat, k: nat)
    requires i < k < |jobs| && jobs[i].appId == jobs[k].appId == app && jobs[i].manual && jobs[k].manual
    requires jobs[i].createdAt > since && jobs[k].createdAt > since
    ensures ManualSince(jobs, app, since) >= 2
  {
    if k < |jobs| - 1 {
      ManualSinceCountsTwo(jobs[..|jobs| - 1], app, since, i, k);
    } else {
      ManualSinceCounts(jobs[..|jobs| - 1], app, since, i);
    }
  }

  lemma AppendPaced(jobs: seq<Job>, job: Job)
    requires Paced(jobs) && CreatedBy(jobs, job.createdAt)
    requires FindKey(jobs, job.appId, job.key).None?
    requires !TooSoon(jobs, job.appId, job.createdAt, if job.manual then MANUAL_GAP_MS else ROUTINE_GAP_MS)
    requires job.manual ==> ManualSince(jobs, job.appId, job.createdAt - MANUAL_WINDOW_MS) < 2
    ensures Paced(jobs + [job])
  {
    var all := jobs + [job];
    forall i, k, m | 0 <= i < k < m < |all| && AllManual(all[i], all[k], all[m])
      ensures all[m].createdAt - all[i].createdAt >= MANUAL_WINDOW_MS
    {
      if m < |jobs| {
        assert AllManual(jobs[i], jobs[k], jobs[m]);
      } else if jobs[i].createdAt > job.createdAt - MANUAL_WINDOW_MS {
        assert jobs[k].createdAt - jobs[i].createdAt >= MANUAL_GAP_MS;
        ManualSinceCountsTwo(jobs, job.appId, job.createdAt - MANUAL_WINDOW_MS, i, k);
      }
    }
  }

  /** With the sweep just done, an app without a conflict of its own kind has no pending job at all. */
  lemma NothingPending(s: Tables, app: nat, now: int)
    requires Inv(s, now) && AllSettled(s, now)
    requires LiveGrant(s.grants, app, now).Some? ==> !HasActive(s.jobs, app)
    requires LiveGrant(s.grants, app, now).None? ==> !HasAwaiting(s.jobs, app)
    ensures forall j :: 0 <= j < |s.jobs| && s.jobs[j].appId == app ==> !Pending(s.jobs[j].state)
  {
    forall j | 0 <= j < |s.jobs| && s.jobs[j].appId == app ensures !Pending(s.jobs[j].state) {
      ActiveHasLiveGrant(s, j, now);
    }
  }

  lemma ActiveHasLiveGrant(s: Tables, j: nat, now: int)
    requires Inv(s, now) && AllSettled(s, now) && j < |s.jobs|
    ensures Active(s.jobs[j].state) ==> LiveGrant(s.grants, s.jobs[j].appId, now).Some?
    ensures s.jobs[j].state.AwaitingApproval? ==> LiveGrant(s.grants, s.jobs[j].appId, now).None?
  {
    assert Settled(s, s.jobs[j], now) && JobOk(s, s.jobs[j]);
    if Active(s.jobs[j].state) {
      assert GrantLive(s.grants[s.jobs[j].binding.value.grantId], s.jobs[j].appId, now);
    }
  }

  lemma AppendOk(s: Tables, job: Job)
    requires Inv(s, job.createdAt) && Paced(s.jobs + [job]) && JobOk(s, job)
    requires job.attempt == 0 && !job.state.Running? && !job.state.Succeeded?
    requires forall j :: 0 <= j < |s.jobs| && s.jobs[j].appId == job.appId ==> !Pending(s.jobs[j].state)
    ensures QuietStep(s, s.(jobs := s.jobs + [job]), job.createdAt)
  {
    var u := s.(jobs := s.jobs + [job]);
    forall i | 0 <= i < |s.jobs| ensures JobOk(u, s.jobs[i]) { assert JobOk(s, s.jobs[i]); }
    AppendExclusive(s.jobs, job);
  }

  lemma AppendExclusive(jobs: seq<Job>, job: Job)
    requires Exclusive(jobs)
    requires forall j :: 0 <= j < |jobs| && jobs[j].appId == job.appId ==> !Pending(jobs[j].state)
    ensures Exclusive(jobs + [job])
  {
  }

  lemma AdmitQuiet(s: Tables, app: nat, request: Request, now: int)
    requires Inv(s, now) && app < |s.apps| && AllSettled(s, now)
    ensures QuietStep(s, Admit(s, app, request, now).db, now)
  {
    QuietStepRefl(s, now);
    if Admit(s, app, request, now).db != s {
      var job := NewJob(s.grants, app, request, LiveGrant(s.grants, app, now), now);
      NothingPending(s, app, now);
      AppendPaced(s.jobs, job);
      AppendOk(s, job);
    }
  }

  lemma SubmitQuiet(t: Tables, env: Env, app: nat, request: Request)
    requires Inv(t, env.now) && IsScan(env.scan, |t.jobs|)
    ensures QuietStep(t, SubmitRoute(t, env, app, request).db, env.now)
  {
    var s := Sweep(t, env);
    QuietStepRefl(t, env.now);
    SweepQuiet(t, env);
    if AppLive(t.apps, app) {
      AdmitQuiet(s, app, request, env.now);
      QuietStepsCompose(t, s, Admit(s, app, request, env.now).db, env.now);
    }
  }

  // ---------------------------------------------------------------- claims and reports

  /** A runner report that passes the lease check finds the very row it was leased, unchanged by the sweeps. */
  lemma CheckLeaseOk(t: Tables, env: Env, p: LeaseProof)
    requires Inv(t, env.now) && IsScan(env.scan, |t.jobs|) && CheckLease(t, env, p).reply.Done?
    ensures var u := CheckLease(t, env, p).db;
            QuietStep(t, u, env.now) && AllSettled(u, env.now) && u.jobs[p.job] == t.jobs[p.job]
    ensures HoldsLease(t, p, env.now) && SameIdentity(t, p)
  {
    SweepQuiet(t, env);
    assert RowFollows(t.jobs[p.job], Sweep(t, env).jobs[p.job]);
  }

  /** The checks a heartbeat, result or failure passes before it takes effect. */
  lemma ReportOk(t: Tables, env: Env, p: LeaseProof)
    requires Inv(t, env.now) && IsScan(env.scan, |t.jobs|) && CheckLease(Sweep(t, env), env, p).reply.Done?
    ensures var u := CheckLease(Sweep(t, env), env, p).db;
            QuietStep(t, u, env.now) && u.jobs[p.job] == t.jobs[p.job] && Sweep(t, env).jobs[p.job] == t.jobs[p.job]
    ensures HoldsLease(t, p, env.now)
  {
    var s := Sweep(t, env);
    SweepQuiet(t, env);
    CheckLeaseOk(s, env, p);
    assert RowFollows(t.jobs[p.job], s.jobs[p.job]);
    QuietStepsCompose(t, s, CheckLease(s, env, p).db, env.now);
  }

  /** A heartbeat changes nothing on the job and reports the deadline set by the claim. */
  lemma HeartbeatNeverExtends(t: Tables, env: Env, p: LeaseProof)
    requires Inv(t, env.now) && IsScan(env.scan, |t.jobs|)
    ensures QuietStep(t, HeartbeatRoute(t, env, p).db, env.now)
    ensures HeartbeatRoute(t, env, p).reply.LeaseUntil? ==>
              && HoldsLease(t, p, env.now)
              && HeartbeatRoute(t, env, p).db.jobs[p.job] == t.jobs[p.job]
              && HeartbeatRoute(t, env, p).reply.until == t.jobs[p.job].lease.value.until
  {
    QuietStepRefl(t, env.now);
    if HeartbeatRoute(t, env, p).reply.LeaseUntil? { ReportOk(t, env, p); }
  }

  lemma ClaimOk(t: Tables, env: Env, runner: nat, token: nat)
    requires Inv(t, env.now) && IsScan(env.scan, |t.jobs|)
    ensures var o := ClaimRoute(t, env, runner, token);
            && Inv(o.db, env.now)
            && (!o.reply.Dispatched? ==> QuietStep(t, o.db, env.now))
            && (o.reply.Dispatched? ==>
                  exists s :: QuietStep(t, s, env.now) && ClaimedRow(s, o.db, o.reply, runner, token, env.now))
  {
    QuietStepRefl(t, env.now);
    SweepIdempotent(t, env, env.now);
    SweepQuiet(t, env);
    ClaimShape(t, env, runner, token);
    var s, o := Sweep(t, env), ClaimRoute(t, env, runner, token);
    if o.reply.Dispatched? {
      ClaimRowOk(s, o.reply.job, runner, token, env.now);
      ClaimReply(s, o, runner, token, env.now);
    }
  }

  /** A claim is refused, finds nothing to do, or leases the job that comes next. */
  lemma ClaimShape(t: Tables, env: Env, runner: nat, token: nat)
    requires IsScan(env.scan, |t.jobs|) && IsScan(env.scan, |Sweep(t, env).jobs|)
    requires Sweep(Sweep(t, env), env) == Sweep(t, env)
    ensures var s, o := Sweep(t, env), ClaimRoute(t, env, runner, token);
            (!o.reply.Dispatched? && (o.db == t || o.db == s)) || Dispatches(s, o, runner, token, env.now)
  {
  }

  ghost predicate Dispatches(s: Tables, o: Outcome, runner: nat, token: nat, now: int) {
    && o.reply.Dispatched? && o.reply.job < |s.jobs| && RunnerLive(s.runners, runner)
    && NextQueued(s, s.runners[runner].identity, |s.jobs|) == Some(o.reply.job)
    && Claimable(s, o.reply.job, s.runners[runner].identity)
    && o.db == SetJob(s, o.reply.job, Claimed(s, o.reply.job, runner, token, now))
    && o.reply.attempt == o.db.jobs[o.reply.job].attempt
    && o.db.jobs[o.reply.job].lease.Some? && o.reply.until == o.db.jobs[o.reply.job].lease.value.until
  }

  lemma ClaimReply(s: Tables, o: Outcome, runner: nat, token: nat, now: int)
    requires Dispatches(s, o, runner, token, now) && o.reply.until > now
    ensures ClaimedRow(s, o.db, o.reply, runner, token, now)
  {
  }

  /** `u` is `s` with the oldest claimable job leased to the runner for its next attempt. */
  ghost predicate ClaimedRow(s: Tables, u: Tables, reply: Reply, runner: nat, token: nat, now: int) {
    && reply.Dispatched? && reply.job < |s.jobs| && runner < |s.runners|
    && Claimable(s, reply.job, s.runners[runner].identity)
    && (forall i :: 0 <= i < |s.jobs| && Claimable(s, i, s.runners[runner].identity) ==>
          s.jobs[reply.job].createdAt <= s.jobs[i].createdAt)
    && u == SetJob(s, reply.job, Claimed(s, reply.job, runner, token, now))
    && reply.attempt == s.jobs[reply.job].attempt + 1
    && reply.until == u.jobs[reply.job].lease.value.until
    && now < reply.until <= now + LEASE_MS
  }

  lemma ClaimRowOk(s: Tables, j: nat, runner: nat, token: nat, now: int)
    requires Inv(s, now) && AllSettled(s, now) && j < |s.jobs| && RunnerLive(s.runners, runner)
    requires Claimable(s, j, s.runners[runner].identity)
    ensures Inv(SetJob(s, j, Claimed(s, j, runner, token, now)), now)
    ensures Claimed(s, j, runner, token, now).lease.value.until > now
  {
    var job := Claimed(s, j, runner, token, now);
    assert JobOk(s, s.jobs[j]) && Settled(s, s.jobs[j], now);
    assert BoundOk(s, job);
    EvolveRow(s, j, job, now);
  }

  /** The rows an accepted result is written over: those left by the two lease checks. */
  lemma CompleteUnfolds(t: Tables, env: Env, op: Op, s: Tables, r: Tables)
    requires IsScan(env.scan, |t.jobs|) && op.Complete? && Apply(t, env, op).reply.Accepted?
    requires s == CheckLease(Sweep(t, env), env, op.done).db && |s.jobs| == |t.jobs|
    requires r == CheckLease(s, env, op.done).db
    ensures CheckLease(Sweep(t, env), env, op.done).reply.Done? && CheckLease(s, env, op.done).reply.Done?
    ensures op.done.job < |r.jobs|
    ensures Apply(t, env, op).db == SetJob(r, op.done.job, Committed(r.jobs[op.done.job], op.result, env.now))
  {
  }

  /** A result is accepted only against the lease it proves. */
  lemma CompleteOk(t: Tables, env: Env, op: Op)
    requires Inv(t, env.now) && IsScan(env.scan, |t.jobs|) && op.Complete?
    requires Apply(t, env, op).reply.Accepted?
    ensures Inv(Apply(t, env, op).db, env.now)
    ensures exists s :: QuietStep(t, s, env.now) && FinishedRow(s, Apply(t, env, op).db, op.done, op, env.now)
  {
    var s := CheckLease(Sweep(t, env), env, op.done).db;
    var r := CheckLease(s, env, op.done).db;
    CompleteUnfolds(t, env, op, s, r);
    TwoChecksOk(t, env, op.done, s, r);
    CommitOk(r, op.done.job, op.result, env.now);
    assert FinishedRow(r, Apply(t, env, op).db, op.done, op, env.now);
  }

  lemma TwoChecksOk(t: Tables, env: Env, p: LeaseProof, s: Tables, r: Tables)
    requires Inv(t, env.now) && IsScan(env.scan, |t.jobs|)
    requires CheckLease(Sweep(t, env), env, p) == Outcome(s, Done) && |s.jobs| == |t.jobs|
    requires CheckLease(s, env, p) == Outcome(r, Done)
    ensures QuietStep(t, r, env.now) && HoldsLease(r, p, env.now)
  {
    ReportOk(t, env, p);
    CheckLeaseOk(s, env, p);
    QuietStepsCompose(t, s, r, env.now);
  }

  function Committed(job: Job, result: nat, now: int): Job {
    job.(state := Succeeded, lease := None, result := Some(StoredResult(result, now + RESULT_MS)))
  }

  lemma CommitOk(t: Tables, j: nat, result: nat, clock: int)
    requires Inv(t, clock) && j < |t.jobs| && t.jobs[j].state.Running?
    ensures Inv(SetJob(t, j, Committed(t.jobs[j], result, clock)), clock)
  {
    assert JobOk(t, t.jobs[j]);
    EvolveRow(t, j, Committed(t.jobs[j], result, clock), clock);
  }

  /** So is a failure. */
  lemma FailOk(t: Tables, env: Env, op: Op)
    requires Inv(t, env.now) && IsScan(env.scan, |t.jobs|) && op.Fail?
    requires Apply(t, env, op).reply.Accepted?
    ensures Inv(Apply(t, env, op).db, env.now)
    ensures exists s :: QuietStep(t, s, env.now) && FinishedRow(s, Apply(t, env, op).db, op.failed, op, env.now)
  {
    var p := op.failed;
    ReportOk(t, env, p);
    var s := CheckLease(Sweep(t, env), env, p).db;
    TerminateOk(s, p.job, if op.needsSignIn then NeedsSignIn else Failed, env.now);
    assert FinishedRow(s, Apply(t, env, op).db, p, op, env.now);
  }

  function ProofOf(op: Op): LeaseProof
    requires op.Complete? || op.Fail?
  {
    if op.Complete? then op.done else op.failed
  }

  ghost predicate FinishedRow(s: Tables, u: Tables, p: LeaseProof, op: Op, now: int)
    requires op.Complete? || op.Fail?
  {
    && HoldsLease(s, p, now)
    && u == SetJob(s, p.job,
                   if op.Complete? then Committed(s.jobs[p.job], op.result, now)
                   else Terminated(s.jobs[p.job], if op.needsSignIn then NeedsSignIn else Failed))
  }
}
