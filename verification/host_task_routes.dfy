/** What single routes of the broker achieve: approvals, revocations, retries and settled jobs. */
module HostTaskRoutes {
  import opened Wrappers
  import opened HostTasks
  import opened HostTaskProofs
  import History = HostTaskHistory

  // ---------------------------------------------------------------- the sweep, row by row

  /** The apps a sweep sees, after the ones whose client lapsed were revoked. */
  function AppsAfter(t: Tables, env: Env): seq<App> { RevokeLapsed(t, env.lapsed).apps }

  /**
    A job awaiting approval is approved by the next sweep exactly when its app is live, it has not expired and the
    app has a live grant; it goes on waiting exactly when only the grant is missing.
  */
  lemma ApprovedIffGranted(t: Tables, env: Env, j: nat)
    requires Inv(t, env.now) && IsScan(env.scan, |t.jobs|) && j < |t.jobs| && t.jobs[j].state.AwaitingApproval?
    ensures var job, after := t.jobs[j], Sweep(t, env).jobs[j];
            var usable := AppLive(AppsAfter(t, env), job.appId) && job.expiresAt > env.now;
            var g := LiveGrant(t.grants, job.appId, env.now);
            && (after.state.Queued? <==> usable && g.Some?)
            && (after == job <==> usable && g.None?)
            && (after.state.Queued? ==>
                  after.binding == Some(Binding(g.value, t.grants[g.value].generation, t.grants[g.value]))
                                        && after.expiresAt == Min(job.expiresAt, t.grants[g.value].expiresAt))
  {
    SweepOk(t, env, env.now);
    assert JobOk(t, t.jobs[j]);
    ExclusiveAwaiting(t.jobs, j);
  }

  /** What keeps a running job's lease from being the only thing a sweep looks at. */
  ghost predicate OtherwiseFine(t: Tables, env: Env, job: Job) {
    && AppLive(AppsAfter(t, env), job.appId) && job.expiresAt > env.now && BindingHolds(t.grants, job, env.now)
  }

  /** A lapsed lease costs the attempt: the job is queued again, or expires after the third. */
  lemma LapsedLeaseRequeues(t: Tables, env: Env, j: nat)
    requires Inv(t, env.now) && IsScan(env.scan, |t.jobs|) && j < |t.jobs| && t.jobs[j].state.Running?
    requires OtherwiseFine(t, env, t.jobs[j])
    ensures var job, after := t.jobs[j], Sweep(t, env).jobs[j];
            var lapsed := job.lease.value.until <= env.now;
            && after.attempt == job.attempt
            && (after == job <==> !lapsed)
            && (after.state.Queued? <==> lapsed && job.attempt < MAX_ATTEMPTS)
            && (after.state.Expired? <==> lapsed && job.attempt >= MAX_ATTEMPTS)
            && (lapsed ==> after.lease.None? && after.result.None?)
  {
    SweepOk(t, env, env.now);
    assert JobOk(t, t.jobs[j]);
  }

  // ---------------------------------------------------------------- revocation

  lemma Terminates(jobs: seq<Job>, doomed: Job -> bool, state: JobState, i: nat)
    requires i < |jobs|
    ensures |TerminateWhere(jobs, doomed, state)| == |jobs|
    ensures TerminateWhere(jobs, doomed, state)[i] == if doomed(jobs[i]) then Terminated(jobs[i], state) else jobs[i]
  {
  }

  /** A revoked app is left without a live grant and without a job that is not over. */
  lemma RevokeAppEndsAll(t: Tables, env: Env, app: nat)
    requires Inv(t, env.now) && IsScan(env.scan, |t.jobs|) && RevokeAppRoute(t, env, app).reply.Done?
    ensures var u := RevokeAppRoute(t, env, app).db;
            && !AppLive(u.apps, app)
            && (forall g :: 0 <= g < |u.grants| && u.grants[g].appId == app ==> u.grants[g].revoked)
            && (forall i :: 0 <= i < |u.jobs| && u.jobs[i].appId == app ==> Terminal(u.jobs[i].state))
  {
    var s := Sweep(t, env);
    SweepQuiet(t, env);
    var a := s.(apps := s.apps[app := s.apps[app].(revoked := true)]);
    PeopleOk(s, a, env.now);
    RevokeGrantsOfOk(a, app, |a.grants|, env.now);
    var r, u := RevokeGrantsOf(a, app, |a.grants|), RevokeAppRoute(t, env, app).db;
    assert u == r.(jobs := TerminateWhere(r.jobs, OfApp(app), Cancelled));
    forall i | 0 <= i < |u.jobs| && u.jobs[i].appId == app ensures Terminal(u.jobs[i].state) {
      Terminates(r.jobs, OfApp(app), Cancelled, i);
    }
  }

  /** Revoking a grant moves its generation on once, ends the jobs it carries and leaves every other job as swept. */
  lemma RevokeGrantEndsItsJobs(t: Tables, env: Env, g: nat, i: nat)
    requires Inv(t, env.now) && IsScan(env.scan, |t.jobs|) && g < |t.grants| && i < |t.jobs|
    ensures var s, u := Sweep(t, env), RevokeGrantRoute(t, env, g).db;
            && u.grants[g].revoked
            && u.grants[g].generation == t.grants[g].generation + (if t.grants[g].revoked then 0 else 1)
            && u.jobs[i] == (if BoundTo(g)(s.jobs[i]) then Terminated(s.jobs[i], Cancelled) else s.jobs[i])
            && !BoundTo(g)(u.jobs[i])
  {
    Terminates(Sweep(t, env).jobs, BoundTo(g), Cancelled, i);
  }

  /** Revoking a runner ends its jobs and no other, and it never holds a job again, whatever happens after. */
  lemma RevokeRunnerEndsItsJobs(w: History.World, first: History.Step, after: seq<History.Step>)
    requires History.WorldOk(w) && History.Possible(w, first)
    requires first.op.RevokeRunner? && first.op.runner < |w.db.runners|
    requires History.Legal(History.Next(w, first), after)
    ensures var s, u := Sweep(w.db, first.env), History.Next(w, first).db;
            |u.jobs| == |w.db.jobs| && forall i :: 0 <= i < |u.jobs| ==>
              u.jobs[i] == if RunBy(first.op.runner)(s.jobs[i]) then Terminated(s.jobs[i], Cancelled) else s.jobs[i]
    ensures var v := History.Run(History.Next(w, first), after).db;
            forall i :: 0 <= i < |v.jobs| ==> !RunBy(first.op.runner)(v.jobs[i])
  {
    RevokeRunnerRows(w.db, first.env, first.op.runner);
    History.StepOk(w, first);
    RevokedRunnerHoldsNothing(History.Next(w, first), after, first.op.runner);
  }

  lemma RevokeRunnerRows(t: Tables, env: Env, runner: nat)
    requires IsScan(env.scan, |t.jobs|) && runner < |t.runners|
    ensures var s, u := Sweep(t, env), Apply(t, env, RevokeRunner(runner)).db;
            && RevokedRunner(u, runner) && |u.jobs| == |t.jobs|
            && forall i :: 0 <= i < |u.jobs| ==>
                 u.jobs[i] == if RunBy(runner)(s.jobs[i]) then Terminated(s.jobs[i], Cancelled) else s.jobs[i]
  {
    forall i | 0 <= i < |t.jobs| { Terminates(Sweep(t, env).jobs, RunBy(runner), Cancelled, i); }
  }

  lemma RevokedRunnerHoldsNothing(w: History.World, steps: seq<History.Step>, runner: nat)
    requires History.WorldOk(w) && History.Legal(w, steps) && RevokedRunner(w.db, runner)
    ensures var v := History.Run(w, steps).db; forall i :: 0 <= i < |v.jobs| ==> !RunBy(runner)(v.jobs[i])
  {
    RevokedRunnersStay(w, steps, runner);
    History.RunOk(w, steps);
    var v := History.Run(w, steps).db;
    forall i | 0 <= i < |v.jobs| ensures !RunBy(runner)(v.jobs[i]) { assert JobOk(v, v.jobs[i]); }
  }

  /** A revoked runner is not live, and no route makes it live. */
  ghost predicate RevokedRunner(t: Tables, runner: nat) { runner < |t.runners| && t.runners[runner].revoked }

  lemma StepKeepsRevoked(t: Tables, env: Env, op: Op, runner: nat)
    requires IsScan(env.scan, |t.jobs|) && RevokedRunner(t, runner)
    ensures RevokedRunner(Apply(t, env, op).db, runner)
  {
  }

  lemma {:induction false} RevokedRunnersStay(w: History.World, steps: seq<History.Step>, runner: nat)
    requires History.Legal(w, steps) && RevokedRunner(w.db, runner)
    ensures RevokedRunner(History.Run(w, steps).db, runner)
    decreases |steps|
  {
    if |steps| > 0 {
      StepKeepsRevoked(w.db, steps[0].env, steps[0].op, runner);
      RevokedRunnersStay(History.Next(w, steps[0]), steps[1..], runner);
    }
  }

  /** A new grant is the only live one of its app, at its first generation. */
  lemma NewGrantIsTheOnlyOne(t: Tables, env: Env, app: nat, identity: Identity, expiresAt: int)
    requires Inv(t, env.now) && IsScan(env.scan, |t.jobs|)
    ensures var o := AddGrantRoute(t, env, app, identity, expiresAt);
            && (o.reply.Created? <==> AppLive(AppsAfter(t, env), app) && env.now < expiresAt <= env.now + GRANT_MS)
            && (o.reply.Created? ==>
                  && o.reply.id == |t.grants| < |o.db.grants|
                  && o.db.grants[o.reply.id] == Grant(app, identity, expiresAt, 1, false, OPERATION_HASH)
                  && LiveGrant(o.db.grants, app, env.now) == Some(o.reply.id)
                  && forall g :: 0 <= g < |o.db.grants| && GrantLive(o.db.grants[g], app, env.now) ==> g == o.reply.id)
  {
    var s, o := Sweep(t, env), AddGrantRoute(t, env, app, identity, expiresAt);
    SweepQuiet(t, env);
    SweepKeepsApps(t, env);
    RevokeGrantsOfOk(s, app, |s.grants|, env.now);
  }

  lemma SweepKeepsApps(t: Tables, env: Env)
    requires IsScan(env.scan, |t.jobs|)
    ensures Sweep(t, env).apps == AppsAfter(t, env)
  {
  }

  // ---------------------------------------------------------------- apps

  /**
    Sending a request again after any run in between, however its job went on, adds no job; it is answered
    with the same job exactly when the app is still there.
  */
  lemma ResubmitFindsTheSameJob(w: History.World, first: History.Step, between: seq<History.Step>, again: History.Step)
    requires History.WorldOk(w) && History.Possible(w, first) && first.op.Submit? && again.op == first.op
    requires Apply(w.db, first.env, first.op).reply.Created?
    requires History.Legal(History.Next(w, first), between)
    requires History.Possible(History.Run(History.Next(w, first), between), again)
    ensures var t := History.Run(History.Next(w, first), between).db;
            var o := Apply(t, again.env, again.op);
            && |o.db.jobs| == |t.jobs|
            && (o.reply == Apply(w.db, first.env, first.op).reply <==> AppLive(t.apps, first.op.caller))
  {
    var n := History.Next(w, first);
    var v := History.Run(n, between);
    var j := Apply(w.db, first.env, first.op).reply.id;
    SubmittedJob(w.db, first.env, first.op.caller, first.op.request);
    History.StepOk(w, first);
    History.RunOk(n, between);
    assert SameRequest(n.db.jobs[j], v.db.jobs[j]);
    History.LaterClock(v.db, v.clock, again.env.now);
    KeptJobAnswers(v.db, again.env, first.op.caller, first.op.request, j);
  }

  /** A job that carries the key and the payload of a request, in whatever state, is what the request finds. */
  lemma KeptJobAnswers(t: Tables, env: Env, app: nat, request: Request, j: nat)
    requires Inv(t, env.now) && IsScan(env.scan, |t.jobs|) && j < |t.jobs| && Carries(t.jobs[j], app, request)
    ensures var o := SubmitRoute(t, env, app, request);
            |o.db.jobs| == |t.jobs| && (o.reply == Created(j) <==> AppLive(t.apps, app))
  {
    var s := Sweep(t, env);
    SweepQuiet(t, env);
    assert RowFollows(t.jobs[j], s.jobs[j]);
    KeyNamesOneJob(s, app, request.key, j, env.now);
  }

  /** The job was made by this request of the app. */
  predicate Carries(job: Job, app: nat, request: Request) {
    && job.appId == app && job.key == request.key && job.payload == Payload(request, OPERATION_HASH)
    && job.operationHash == OPERATION_HASH
  }

  /** The job an accepted request names carries its key and its payload. */
  lemma SubmittedJob(t: Tables, env: Env, app: nat, request: Request)
    requires IsScan(env.scan, |t.jobs|) && SubmitRoute(t, env, app, request).reply.Created?
    ensures var o := SubmitRoute(t, env, app, request);
            o.reply.id < |o.db.jobs| && Carries(o.db.jobs[o.reply.id], app, request)
  {
  }

  lemma KeyNamesOneJob(t: Tables, app: nat, key: string, j: nat, clock: int)
    requires Inv(t, clock) && j < |t.jobs| && t.jobs[j].appId == app && t.jobs[j].key == key
    ensures FindKey(t.jobs, app, key) == Some(j)
  {
    var i := FindKey(t.jobs, app, key).value;
    assert !(i < j) && !(j < i);
  }

  ghost predicate NothingWaits(jobs: seq<Job>, app: nat) {
    forall j :: 0 <= j < |jobs| && jobs[j].appId == app ==> !Pending(jobs[j].state)
  }

  /** Every request of the app is old enough for this one, and by hand there was at most one in the last hour. */
  ghost predicate WithinRates(jobs: seq<Job>, app: nat, manual: bool, now: int) {
    && (forall i :: 0 <= i < |jobs| && jobs[i].appId == app ==>
          now - jobs[i].createdAt >= if manual then MANUAL_GAP_MS else ROUTINE_GAP_MS)
    && (manual ==> forall i, k :: 0 <= i < k < |jobs| && RecentByHand(jobs[i], app, now) ==>
                     !RecentByHand(jobs[k], app, now))
  }

  ghost predicate RecentByHand(job: Job, app: nat, now: int) {
    job.appId == app && job.manual && now - job.createdAt < MANUAL_WINDOW_MS
  }

  lemma {:induction false} OneByHand(jobs: seq<Job>, app: nat, since: int)
    ensures ManualSince(jobs, app, since) >= 1 <==>
              exists i :: 0 <= i < |jobs| && RecentByHand(jobs[i], app, since + MANUAL_WINDOW_MS)
  {
    if |jobs| > 0 {
      var front := jobs[..|jobs| - 1];
      OneByHand(front, app, since);
      if i :| 0 <= i < |front| && RecentByHand(front[i], app, since + MANUAL_WINDOW_MS) {
        assert RecentByHand(jobs[i], app, since + MANUAL_WINDOW_MS);
      }
      if i :| 0 <= i < |jobs| && RecentByHand(jobs[i], app, since + MANUAL_WINDOW_MS) {
        if i < |front| { assert RecentByHand(front[i], app, since + MANUAL_WINDOW_MS); }
      }
    }
  }

  lemma {:induction false} TwoByHand(jobs: seq<Job>, app: nat, now: int)
    ensures ManualSince(jobs, app, now - MANUAL_WINDOW_MS) >= 2 <==>
              exists i, k :: 0 <= i < k < |jobs| && RecentByHand(jobs[i], app, now) && RecentByHand(jobs[k], app, now)
  {
    if |jobs| > 0 {
      var front, last := jobs[..|jobs| - 1], |jobs| - 1;
      TwoByHand(front, app, now);
      OneByHand(front, app, now - MANUAL_WINDOW_MS);
      if i, k :| 0 <= i < k < |front| && RecentByHand(front[i], app, now) && RecentByHand(front[k], app, now) {
        assert RecentByHand(jobs[i], app, now) && RecentByHand(jobs[k], app, now);
      }
      if i :| 0 <= i < |front| && RecentByHand(front[i], app, now) { assert RecentByHand(jobs[i], app, now); }
      if i, k :| 0 <= i < k < |jobs| && RecentByHand(jobs[i], app, now) && RecentByHand(jobs[k], app, now) {
        assert RecentByHand(front[i], app, now);
        if k < last { assert RecentByHand(front[k], app, now); }
      }
    }
  }

  /**
    A request makes a new job exactly if the app is live, the key is new, no job of the app is pending and the rates
    allow it.  The job is queued under the app's live grant, or waits when there is none.
  */
  lemma NewRequestIffFree(t: Tables, env: Env, app: nat, request: Request)
    requires Inv(t, env.now) && IsScan(env.scan, |t.jobs|)
    ensures var s, o := Sweep(t, env), SubmitRoute(t, env, app, request);
            o.reply == Created(|t.jobs|) <==>
              AppLive(t.apps, app) && FindKey(s.jobs, app, request.key).None? && NothingWaits(s.jobs, app)
              && WithinRates(s.jobs, app, request.manual, env.now)
    ensures SubmitRoute(t, env, app, request).reply == Created(|t.jobs|) ==>
              var u := SubmitRoute(t, env, app, request).db;
              |u.jobs| == |t.jobs| + 1 && IsAsGranted(t.grants, u.jobs[|t.jobs|], app, request, env.now)
  {
    var s := Sweep(t, env);
    SweepQuiet(t, env);
    AdmitsIffFree(s, app, request, env.now);
  }

  ghost predicate IsAsGranted(grants: seq<Grant>, job: Job, app: nat, request: Request, now: int) {
    var g := LiveGrant(grants, app, now);
    && Carries(job, app, request) && job.createdAt == now && job.attempt == 0
    && (if g.Some? then job.state.Queued?
                        && job.binding == Some(Binding(g.value, grants[g.value].generation, grants[g.value]))
                        && job.expiresAt == Min(now + REQUEST_MS, grants[g.value].expiresAt)
        else job.state.AwaitingApproval? && job.binding.None? && job.expiresAt == now + REQUEST_MS)
  }

  lemma AdmitsIffFree(s: Tables, app: nat, request: Request, now: int)
    requires Inv(s, now) && AllSettled(s, now)
    ensures Admit(s, app, request, now).reply == Created(|s.jobs|) <==>
              FindKey(s.jobs, app, request.key).None? && NothingWaits(s.jobs, app)
              && WithinRates(s.jobs, app, request.manual, now)
    ensures Admit(s, app, request, now).reply == Created(|s.jobs|) ==>
              var u := Admit(s, app, request, now).db;
              |u.jobs| == |s.jobs| + 1 && IsAsGranted(s.grants, u.jobs[|s.jobs|], app, request, now)
  {
    var g := LiveGrant(s.grants, app, now);
    TwoByHand(s.jobs, app, now);
    if (g.Some? ==> !HasActive(s.jobs, app)) && (g.None? ==> !HasAwaiting(s.jobs, app)) { NothingPending(s, app, now); }
  }

  /** Acknowledging, cancelling and denying settle one job of the states that allow it and leave the others as swept. */
  lemma SettlesOneJob(t: Tables, env: Env, op: Op, i: nat)
    requires IsScan(env.scan, |t.jobs|) && (op.Acknowledge? || op.Cancel? || op.Deny?)
    requires Apply(t, env, op).reply.Done? && i < |t.jobs|
    ensures var s, u, j := Sweep(t, env), Apply(t, env, op).db, SettledJob(op);
            && j < |t.jobs| && |u.jobs| == |t.jobs| && u.jobs[j].state == SettledAs(op)
            && (op.Acknowledge? ==> s.jobs[j].state.Succeeded? || s.jobs[j].state.Acknowledged?)
            && (op.Cancel? ==> !Terminal(s.jobs[j].state) || s.jobs[j].state.Cancelled?)
            && (i != j ==> u.jobs[i] == s.jobs[i])
  {
  }

  /** A job that was acknowledged, cancelled or denied holds neither a result nor a lease ever after. */
  lemma SettledJobHoldsNothing(w: History.World, first: History.Step, after: seq<History.Step>)
    requires History.WorldOk(w) && History.Possible(w, first)
    requires first.op.Acknowledge? || first.op.Cancel? || first.op.Deny?
    requires Apply(w.db, first.env, first.op).reply.Done? && History.Legal(History.Next(w, first), after)
    ensures var v, j := History.Run(History.Next(w, first), after).db, SettledJob(first.op);
            && j < |w.db.jobs| <= |v.jobs|
            && Terminal(v.jobs[j].state) && v.jobs[j].result.None? && v.jobs[j].lease.None?
  {
    SettlesOneJob(w.db, first.env, first.op, 0);
    History.StepOk(w, first);
    TerminalHoldsNothing(History.Next(w, first), after, SettledJob(first.op));
  }

  lemma TerminalHoldsNothing(w: History.World, steps: seq<History.Step>, j: nat)
    requires History.WorldOk(w) && History.Legal(w, steps) && j < |w.db.jobs| && Terminal(w.db.jobs[j].state)
    ensures var v := History.Run(w, steps).db;
            && |w.db.jobs| <= |v.jobs|
            && Terminal(v.jobs[j].state) && v.jobs[j].result.None? && v.jobs[j].lease.None?
  {
    History.RunOk(w, steps);
    var v := History.Run(w, steps).db;
    assert SameRequest(w.db.jobs[j], v.jobs[j]);
    assert JobOk(v, v.jobs[j]);
  }
}
