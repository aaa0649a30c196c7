/** When each route of the script broker succeeds, exactly, and what it then writes. */
module HostScriptOutcomes {
  import opened Wrappers
  import opened HostScripts
  import opened HostScriptProofs

  // ---------------------------------------------------------------- cleanup

  /** A cleanup cancels what lost its support, expires what ran out, and erases what either held. */
  lemma CleanupEnds(t: Tables, env: Env, i: nat)
    requires i < |t.jobs|
    ensures var job, after := t.jobs[i], Clean(t, env).jobs[i];
            && (Retained(job.state) && !Supported(t, env, job) ==>
                  after == job.(state := Cancelled, result := None, parameters := "{}", lease := None))
            && (Retained(job.state) && Supported(t, env, job) && Lapsed(job, env.now) ==>
                  after == job.(state := Expired, result := None, parameters := "{}", lease := None))
            && (!Retained(job.state) || (Supported(t, env, job) && !Lapsed(job, env.now)) ==> after == job)
  {
  }

  // ---------------------------------------------------------------- completion

  /** The run holds this token, its lease and its time have not run out, and it is still supported. */
  ghost predicate MayComplete(t: Tables, env: Env, job: nat, token: nat) {
    && job < |t.jobs| && t.jobs[job].state.Running? && t.jobs[job].lease == Some(token)
    && t.jobs[job].leaseUntil > env.now && t.jobs[job].expiresAt > env.now && Supported(t, env, t.jobs[job])
  }

  /** A completion is accepted exactly when the run may complete, and stores its outcome on that run alone. */
  lemma CompletionStored(t: Tables, env: Env, job: nat, token: nat, failed: bool, result: string)
    ensures var o := CompleteRoute(t, env, job, token, failed, result);
            && (o.error.None? <==> MayComplete(t, env, job, token))
            && (o.error.Some? ==> o.db == t)
            && (o.error.None? ==>
                  var c := Clean(t, env);
                  job < |c.jobs| && job < |t.jobs|
                  && o.db == c.(jobs := c.jobs[job := t.jobs[job].(state := if failed then Failed else Succeeded,
                                                                   result := if failed then None else Some(result),
                                                                   parameters := "{}", lease := None,
                                                                   resultUntil := env.now + RESULT_MS)]))
  {
    if job < |t.jobs| { CleanupEnds(t, env, job); }
  }

  /** Step `i` of a run completed job `j` with the result it now has. */
  ghost predicate Delivers(steps: seq<Step>, i: nat, j: nat, result: Option<string>)
    requires i < |steps|
  {
    var s := steps[i];
    && s.op.Complete? && s.op.done == j && !s.op.failed && result == Some(s.op.result)
    && Apply(Run(START, steps[..i]), s.env, s.op).error.None?
  }

  /** Only an accepted completion makes a run succeed, and no other step touches its result while it stays succeeded. */
  ghost predicate KeptOrCompleted(t: Tables, env: Env, op: Op, j: nat)
    requires j < |Apply(t, env, op).db.jobs|
  {
    var after := Apply(t, env, op).db.jobs[j];
    || (j < |t.jobs| && t.jobs[j].state.Succeeded? && t.jobs[j].result == after.result)
    || (op.Complete? && op.done == j && !op.failed && after.result == Some(op.result)
        && Apply(t, env, op).error.None?)
  }

  lemma CleanKeepsResult(t: Tables, env: Env, j: nat)
    requires j < |t.jobs| && Clean(t, env).jobs[j].state.Succeeded?
    ensures t.jobs[j].state.Succeeded? && t.jobs[j].result == Clean(t, env).jobs[j].result
  {
    CleanupEnds(t, env, j);
  }

  lemma TaskStepKeeps(t: Tables, env: Env, op: Op, j: nat)
    requires op.Cleanup? || op.Register? || op.Save? || op.Publish? || op.RevokeTask?
    requires j < |Apply(t, env, op).db.jobs| && Apply(t, env, op).db.jobs[j].state.Succeeded?
    ensures KeptOrCompleted(t, env, op, j)
  {
    if op.Save? {
      SaveShape(t, env, op.task, op.draft, op.expectedLatest);
    } else if op.Publish? {
      PublishKeeps(t, env, op, j);
    }
  }

  lemma PublishKeeps(t: Tables, env: Env, op: Op, j: nat)
    requires op.Publish? && j < |Apply(t, env, op).db.jobs| && Apply(t, env, op).db.jobs[j].state.Succeeded?
    ensures KeptOrCompleted(t, env, op, j)
  {
  }

  lemma GrantStepKeeps(t: Tables, env: Env, op: Op, j: nat)
    requires op.AddGrant? || op.RevokeGrant? || op.RevokeCaller?
    requires j < |Apply(t, env, op).db.jobs| && Apply(t, env, op).db.jobs[j].state.Succeeded?
    ensures KeptOrCompleted(t, env, op, j)
  {
    if op.AddGrant? {
      var g, c := op.grant, Clean(t, env);
      AddGrantShape(t, env, g, Clean(c.(grants := RevokeGrantsWhere(c.grants, OfTaskAndApp(g.task, g.app))), env));
    }
  }

  lemma RunStepKeeps(t: Tables, env: Env, op: Op, j: nat)
    requires op.Request? || op.Claim? || op.Complete?
    requires j < |Apply(t, env, op).db.jobs| && Apply(t, env, op).db.jobs[j].state.Succeeded?
    ensures KeptOrCompleted(t, env, op, j)
  {
    if op.Request? {
      RequestKeeps(t, env, op, j);
    } else if op.Complete? {
      CompletionStored(t, env, op.done, op.lease, op.failed, op.result);
    }
  }

  lemma RequestKeeps(t: Tables, env: Env, op: Op, j: nat)
    requires op.Request? && j < |Apply(t, env, op).db.jobs| && Apply(t, env, op).db.jobs[j].state.Succeeded?
    ensures KeptOrCompleted(t, env, op, j)
  {
    var u := Apply(t, env, op).db;
    RequestShape(t, env, op.caller, op.wanted, op.digest, op.pinned, op.parameters, op.key);
    if j < |t.jobs| && u != t { CleanKeepsResult(t, env, j); }
  }

  ghost predicate AddsQueued(c: Tables, u: Tables) {
    && |u.jobs| == |c.jobs| + 1 && u == c.(jobs := c.jobs + [u.jobs[|c.jobs|]]) && u.jobs[|c.jobs|].state.Queued?
  }

  lemma AdmitNewAddsQueued(c: Tables, env: Env, caller: Option<nat>, task: nat, digest: Digest, version: nat,
                           parameters: string, key: string)
    ensures var u := AdmitNew(c, env, caller, task, digest, version, parameters, key).db; u == c || AddsQueued(c, u)
  {
  }

  /** A request leaves the tables alone, cleans them, or adds a queued job to the cleaned ones. */
  lemma RequestShape(t: Tables, env: Env, caller: Option<nat>, task: nat, digest: Digest, pinned: Option<nat>,
                     parameters: string, key: string)
    ensures var u, c := RequestRoute(t, env, caller, task, digest, pinned, parameters, key).db, Clean(t, env);
            u == t || u == c || AddsQueued(c, u)
  {
    var c := Clean(t, env);
    AdmitUnfolds(c, env, caller, task, digest, pinned, parameters, key);
    if task < |c.tasks| {
      AdmitNewAddsQueued(c, env, caller, task, digest, ChosenVersion(c, caller, task, pinned), parameters, key);
    }
  }

  lemma StepKeepsResults(t: Tables, env: Env, op: Op, j: nat)
    requires j < |Apply(t, env, op).db.jobs| && Apply(t, env, op).db.jobs[j].state.Succeeded?
    ensures KeptOrCompleted(t, env, op, j)
  {
    if op.Cleanup? || op.Register? || op.Save? || op.Publish? || op.RevokeTask? { TaskStepKeeps(t, env, op, j); }
    else if op.AddGrant? || op.RevokeGrant? || op.RevokeCaller? { GrantStepKeeps(t, env, op, j); }
    else { RunStepKeeps(t, env, op, j); }
  }

  /** Every succeeded run holds the result that an accepted completion of it delivered. */
  lemma {:induction false} ResultsWereDelivered(steps: seq<Step>, j: nat)
    requires j < |Run(START, steps).jobs| && Run(START, steps).jobs[j].state.Succeeded?
    ensures exists i :: 0 <= i < |steps| && Delivers(steps, i, j, Run(START, steps).jobs[j].result)
    decreases |steps|
  {
    if |steps| > 0 {
      var front, last := steps[..|steps| - 1], steps[|steps| - 1];
      assert steps == front + [last];
      RunSplits(START, front, [last]);
      var s := Run(START, front);
      assert Run(s, [last]) == Apply(s, last.env, last.op).db;
      StepKeepsResults(s, last.env, last.op, j);
      if j < |s.jobs| && s.jobs[j].state.Succeeded? && s.jobs[j].result == Run(START, steps).jobs[j].result {
        ResultsWereDelivered(front, j);
        var i :| 0 <= i < |front| && Delivers(front, i, j, s.jobs[j].result);
        assert steps[..i] == front[..i];
        assert Delivers(steps, i, j, Run(START, steps).jobs[j].result);
      } else {
        assert steps[..|front|] == front;
        assert Delivers(steps, |front|, j, Run(START, steps).jobs[j].result);
      }
    }
  }

  // ---------------------------------------------------------------- claims

  /** A queued run of one of the host's scripts; a run asked for by name is the owner's. */
  ghost predicate Ready(t: Tables, i: nat, hostId: string, job: Option<nat>) {
    && i < |t.jobs| && t.jobs[i].state.Queued? && t.jobs[i].task < |t.tasks|
    && t.tasks[t.jobs[i].task].definition.hostId == hostId
    && (job.Some? ==> i == job.value && t.jobs[i].caller.None?)
  }

  lemma ReadyIsClaimable(t: Tables, env: Env, i: nat, hostId: string, job: Option<nat>)
    requires LedgerOk(t) && i < |t.jobs|
    ensures var c := Clean(t, env);
            && (Claimable(c, i, hostId, job) <==> Ready(c, i, hostId, job))
            && (Ready(c, i, hostId, job) ==>
                  var v := FindVersion(c.versions, c.jobs[i].task, c.jobs[i].version);
                  v.Some? && c.versions[v.value].definition == c.jobs[i].digest.of)
  {
    CleanupExact(t, env, i);
    var c := Clean(t, env);
    var v := FindVersion(c.versions, c.jobs[i].task, c.jobs[i].version);
    if v.Some? { assert RowOk(t.tasks, c.versions[v.value]); }
  }

  /** `u` is `c` with the oldest ready run leased for as long as its script may take, at most as long as it lives. */
  ghost predicate Leased(c: Tables, u: Tables, i: nat, hostId: string, job: Option<nat>, token: nat, now: int) {
    && Ready(c, i, hostId, job)
    && (forall k :: 0 <= k < |c.jobs| && Ready(c, k, hostId, job) ==> c.jobs[i].createdAt <= c.jobs[k].createdAt)
    && u == c.(jobs := c.jobs[i := c.jobs[i].(state := Running, lease := Some(token),
                                              leaseUntil := Min(now + c.jobs[i].digest.of.timeoutMs + CLAIM_SLACK_MS,
                                                                c.jobs[i].expiresAt))])
  }

  ghost predicate SomeReady(c: Tables, hostId: string, job: Option<nat>) {
    exists i :: 0 <= i < |c.jobs| && Ready(c, i, hostId, job)
  }

  ghost predicate SomeLeased(c: Tables, u: Tables, hostId: string, job: Option<nat>, token: nat, now: int) {
    exists i :: 0 <= i < |c.jobs| && Leased(c, u, i, hostId, job, token, now)
  }

  /** A claim leases a run exactly when one is ready, and otherwise only cleans up. */
  lemma ClaimLeasesIffReady(t: Tables, env: Env, hostId: string, job: Option<nat>, token: nat)
    requires LedgerOk(t)
    ensures var c, o := Clean(t, env), ClaimRoute(t, env, hostId, job, token);
            && o.error.None?
            && if SomeReady(c, hostId, job) then SomeLeased(c, o.db, hostId, job, token, env.now) else o.db == c
  {
    var c := Clean(t, env);
    forall i | 0 <= i < |c.jobs| ensures Claimable(c, i, hostId, job) <==> Ready(c, i, hostId, job) {
      ReadyIsClaimable(t, env, i, hostId, job);
    }
    ClaimUnfolds(t, env, hostId, job, token);
    var next := NextJob(c, hostId, job, |c.jobs|);
    if next.Some? {
      ReadyIsClaimable(t, env, next.value, hostId, job);
      NextIsLeased(c, next.value, hostId, job, token, env.now);
    }
  }

  /** The row that a claim of job i writes. */
  function LeasedRow(c: Tables, i: nat, v: nat, token: nat, now: int): Job
    requires i < |c.jobs| && v < |c.versions|
  {
    c.jobs[i].(state := Running, lease := Some(token),
               leaseUntil := Min(now + c.versions[v].definition.timeoutMs + CLAIM_SLACK_MS, c.jobs[i].expiresAt))
  }

  lemma ClaimUnfolds(t: Tables, env: Env, hostId: string, job: Option<nat>, token: nat)
    ensures var c, o := Clean(t, env), ClaimRoute(t, env, hostId, job, token);
            var next := NextJob(c, hostId, job, |c.jobs|);
            && o.error.None? && (next.None? ==> o.db == c)
            && (next.Some? ==>
                  var i := next.value;
                  var v := FindVersion(c.versions, c.jobs[i].task, c.jobs[i].version);
                  v.Some? && o.db == c.(jobs := c.jobs[i := LeasedRow(c, i, v.value, token, env.now)]))
  {
  }

  lemma NextIsLeased(c: Tables, i: nat, hostId: string, job: Option<nat>, token: nat, now: int)
    requires NextJob(c, hostId, job, |c.jobs|) == Some(i)
    requires forall k :: 0 <= k < |c.jobs| ==> (Claimable(c, k, hostId, job) <==> Ready(c, k, hostId, job))
    requires var v := FindVersion(c.versions, c.jobs[i].task, c.jobs[i].version);
             v.Some? && c.versions[v.value].definition == c.jobs[i].digest.of
    ensures var v := FindVersion(c.versions, c.jobs[i].task, c.jobs[i].version).value;
            SomeReady(c, hostId, job)
            && SomeLeased(c, c.(jobs := c.jobs[i := LeasedRow(c, i, v, token, now)]), hostId, job, token, now)
  {
    var v := FindVersion(c.versions, c.jobs[i].task, c.jobs[i].version).value;
    assert Leased(c, c.(jobs := c.jobs[i := LeasedRow(c, i, v, token, now)]), i, hostId, job, token, now);
  }

  // ---------------------------------------------------------------- requests

  ghost predicate Recent(job: Job, caller: Option<nat>, now: int) {
    job.caller == caller && now - job.createdAt < BURST_MS
  }

  /** The caller's jobs of the last minute. */
  ghost function RecentJobs(jobs: seq<Job>, caller: Option<nat>, now: int): set<nat> {
    set i: nat | i < |jobs| && Recent(jobs[i], caller, now)
  }

  lemma {:induction false} CreatedSinceCounts(jobs: seq<Job>, caller: Option<nat>, now: int)
    ensures CreatedSince(jobs, caller, now - BURST_MS) == |RecentJobs(jobs, caller, now)|
  {
    if |jobs| > 0 {
      CreatedSinceCounts(jobs[..|jobs| - 1], caller, now);
      RecentJobsGrow(jobs[..|jobs| - 1], jobs[|jobs| - 1], caller, now);
      assert jobs == jobs[..|jobs| - 1] + [jobs[|jobs| - 1]];
    } else {
      assert RecentJobs(jobs, caller, now) == {};
    }
  }

  lemma RecentJobsGrow(front: seq<Job>, last: Job, caller: Option<nat>, now: int)
    ensures |RecentJobs(front + [last], caller, now)|
            == |RecentJobs(front, caller, now)| + if Recent(last, caller, now) then 1 else 0
  {
    var n: nat := |front|;
    assert RecentJobs(front + [last], caller, now)
           == RecentJobs(front, caller, now) + if Recent(last, caller, now) then {n} else {};
  }

  /** An unexpired, unrevoked grant of this version of the script to the app. */
  ghost predicate Covers(g: Grant, app: nat, task: nat, digest: Digest, now: int) {
    g.app == app && g.task == task && g.digest == digest && !g.revoked && g.expiresAt > now
  }

  lemma {:induction false} FindGrantIff(grants: seq<Grant>, app: nat, task: nat, digest: Digest, now: int)
    ensures FindGrant(grants, app, task, digest, now).Some? <==>
              exists i :: 0 <= i < |grants| && Covers(grants[i], app, task, digest, now)
  {
    if |grants| > 0 {
      var front := grants[..|grants| - 1];
      FindGrantIff(front, app, task, digest, now);
      if i :| 0 <= i < |front| && Covers(front[i], app, task, digest, now) {
        assert Covers(grants[i], app, task, digest, now);
      }
      if i :| 0 <= i < |grants| && Covers(grants[i], app, task, digest, now) {
        if i < |front| { assert Covers(front[i], app, task, digest, now); }
      }
    }
  }

  /** The script is live and the ledger has this content under the version that the request runs. */
  ghost predicate Runnable(t: Tables, caller: Option<nat>, task: nat, digest: Digest, pinned: Option<nat>) {
    && TaskLive(t, task)
    && var version := if caller.None? && pinned.Some? then pinned.value else t.tasks[task].published;
    && HasVersion(t.versions, task, version, digest)
    && (caller.Some? && pinned.Some? ==> pinned.value == version)
  }

  ghost predicate IsVersion(v: Version, task: nat, version: nat, digest: Digest) {
    v.task == task && v.version == version && v.digest == digest
  }

  /** A caller with a new key needs a grant; anyone needs to be idle and below ten requests in the last minute. */
  ghost predicate Admissible(c: Tables, caller: Option<nat>, task: nat, digest: Digest, now: int) {
    && (caller.Some? ==> exists i :: 0 <= i < |c.grants| && Covers(c.grants[i], caller.value, task, digest, now))
    && (forall i :: 0 <= i < |c.jobs| && c.jobs[i].caller == caller ==> !Active(c.jobs[i].state))
    && |RecentJobs(c.jobs, caller, now)| < BURST_LIMIT
  }

  ghost predicate HasKey(job: Job, app: nat, key: string) { job.caller == Some(app) && job.key == Some(key) }

  /** The queued run that an admitted request adds. */
  ghost predicate IsNewRun(c: Tables, job: Job, caller: Option<nat>, task: nat, digest: Digest, version: nat,
                           parameters: string, key: string, now: int)
  {
    && job.task == task && job.caller == caller && job.digest == digest && job.version == version
    && job.key == (if caller.Some? then Some(key) else None) && job.asked == job.parameters == parameters
    && job.state.Queued? && job.createdAt == now && job.lease.None? && job.result.None?
    && (caller.None? ==> job.grant.None? && job.expiresAt == now + REQUEST_MS)
    && (caller.Some? ==>
          && job.grant.Some? && job.grant.value < |c.grants|
          && Covers(c.grants[job.grant.value], caller.value, task, digest, now)
          && job.expiresAt == Min(now + REQUEST_MS, c.grants[job.grant.value].expiresAt))
  }

  lemma NewRunIff(c: Tables, env: Env, caller: Option<nat>, task: nat, digest: Digest, version: nat,
                  parameters: string, key: string)
    ensures var o := AdmitNew(c, env, caller, task, digest, version, parameters, key);
            && (o.error.None? <==> Admissible(c, caller, task, digest, env.now))
            && (o.error.None? ==>
                  |o.db.jobs| == |c.jobs| + 1 && o.db == c.(jobs := c.jobs + [o.db.jobs[|c.jobs|]])
                  && IsNewRun(c, o.db.jobs[|c.jobs|], caller, task, digest, version, parameters, key, env.now))
  {
    CreatedSinceCounts(c.jobs, caller, env.now);
    if caller.Some? { FindGrantIff(c.grants, caller.value, task, digest, env.now); }
    if AdmitNew(c, env, caller, task, digest, version, parameters, key).error.None? {
      NewRunIs(c, env, caller, task, digest, version, parameters, key);
    }
  }

  lemma NewRunIs(c: Tables, env: Env, caller: Option<nat>, task: nat, digest: Digest, version: nat,
                 parameters: string, key: string)
    requires AdmitNew(c, env, caller, task, digest, version, parameters, key).error.None?
    ensures var u := AdmitNew(c, env, caller, task, digest, version, parameters, key).db;
            |u.jobs| == |c.jobs| + 1 && u == c.(jobs := c.jobs + [u.jobs[|c.jobs|]])
            && IsNewRun(c, u.jobs[|c.jobs|], caller, task, digest, version, parameters, key, env.now)
  {
  }

  ghost predicate HasVersion(versions: seq<Version>, task: nat, version: nat, digest: Digest) {
    exists i :: 0 <= i < |versions| && IsVersion(versions[i], task, version, digest)
  }

  lemma FindVersionIff(versions: seq<Version>, task: nat, version: nat, digest: Digest)
    requires Contiguous(versions)
    ensures var v := FindVersion(versions, task, version);
            HasVersion(versions, task, version, digest) <==> v.Some? && versions[v.value].digest == digest
  {
    UniqueVersions(versions, task);
    var v := FindVersion(versions, task, version);
    if v.Some? && versions[v.value].digest == digest { assert IsVersion(versions[v.value], task, version, digest); }
  }

  /** A key that was used is answered only to the same question; a new one starts what is admissible. */
  lemma AdmitIff(c: Tables, env: Env, caller: Option<nat>, task: nat, digest: Digest, pinned: Option<nat>,
                 parameters: string, key: string)
    requires Inv(c)
    ensures var o := Admit(c, env, caller, task, digest, pinned, parameters, key);
            if KeyUsed(c.jobs, caller, key)
            then && (o.error.None? <==>
                       Runnable(c, caller, task, digest, pinned)
                       && AskedBefore(c.jobs, caller.value, key, task, digest, parameters))
                 && o.db == c
            else && (o.error.None? <==>
                       Runnable(c, caller, task, digest, pinned) && Admissible(c, caller, task, digest, env.now))
                 && (o.error.None? ==>
                       |o.db.jobs| == |c.jobs| + 1 && o.db == c.(jobs := c.jobs + [o.db.jobs[|c.jobs|]])
                       && IsNewRun(c, o.db.jobs[|c.jobs|], caller, task, digest,
                                   ChosenVersion(c, caller, task, pinned), parameters, key, env.now))
  {
    if TaskLive(c, task) {
      var version := ChosenVersion(c, caller, task, pinned);
      FindVersionIff(c.versions, task, version, digest);
      if caller.Some? { OnlyOneHasKey(c.jobs, caller.value, key); }
      if KeyUsed(c.jobs, caller, key) { AdmitUsed(c, env, caller, task, digest, pinned, parameters, key); }
      else {
        NewRunIff(c, env, caller, task, digest, version, parameters, key);
        AdmitUnused(c, env, caller, task, digest, pinned, parameters, key);
      }
    }
  }

  lemma AdmitUsed(c: Tables, env: Env, caller: Option<nat>, task: nat, digest: Digest, pinned: Option<nat>,
                  parameters: string, key: string)
    requires TaskLive(c, task) && caller.Some?
    requires FindKey(c.jobs, caller.value, key).Some?
    requires var v := FindVersion(c.versions, task, ChosenVersion(c, caller, task, pinned));
             HasVersion(c.versions, task, ChosenVersion(c, caller, task, pinned), digest) <==>
               v.Some? && c.versions[v.value].digest == digest
    ensures var o := Admit(c, env, caller, task, digest, pinned, parameters, key);
            var prior := FindKey(c.jobs, caller.value, key).value;
            && o.db == c
            && (o.error.None? <==>
                  Runnable(c, caller, task, digest, pinned) && c.jobs[prior].task == task
                  && c.jobs[prior].digest == digest && c.jobs[prior].asked == parameters)
  {
  }

  lemma AdmitUnused(c: Tables, env: Env, caller: Option<nat>, task: nat, digest: Digest, pinned: Option<nat>,
                    parameters: string, key: string)
    requires TaskLive(c, task) && (caller.Some? ==> FindKey(c.jobs, caller.value, key).None?)
    requires var v := FindVersion(c.versions, task, ChosenVersion(c, caller, task, pinned));
             HasVersion(c.versions, task, ChosenVersion(c, caller, task, pinned), digest) <==>
               v.Some? && c.versions[v.value].digest == digest
    ensures var o := Admit(c, env, caller, task, digest, pinned, parameters, key);
            if Runnable(c, caller, task, digest, pinned)
            then o == AdmitNew(c, env, caller, task, digest, ChosenVersion(c, caller, task, pinned), parameters, key)
            else o.error.Some?
  {
  }

  /** The caller used the key before.  The owner's requests have none. */
  ghost predicate KeyUsed(jobs: seq<Job>, caller: Option<nat>, key: string) {
    caller.Some? && exists i :: 0 <= i < |jobs| && HasKey(jobs[i], caller.value, key)
  }

  /** It used it to ask for the same. */
  ghost predicate AskedBefore(jobs: seq<Job>, app: nat, key: string, task: nat, digest: Digest, parameters: string) {
    exists i :: 0 <= i < |jobs| && HasKey(jobs[i], app, key)
                && jobs[i].task == task && jobs[i].digest == digest && jobs[i].asked == parameters
  }

  /**
    A request starts a run exactly if its script can be run so, its key is new and it is admissible; with a key used
    before it is answered, and starts nothing, exactly if it asks for the same again.
  */
  lemma RequestAcceptedIff(t: Tables, env: Env, caller: Option<nat>, task: nat, digest: Digest, pinned: Option<nat>,
                           parameters: string, key: string)
    requires Inv(t)
    ensures var c, o := Clean(t, env), RequestRoute(t, env, caller, task, digest, pinned, parameters, key);
            && (o.error.None? <==>
                  Runnable(c, caller, task, digest, pinned)
                  && if KeyUsed(c.jobs, caller, key)
                     then AskedBefore(c.jobs, caller.value, key, task, digest, parameters)
                     else Admissible(c, caller, task, digest, env.now))
            && (o.error.Some? ==> o.db == t)
            && (o.error.None? && KeyUsed(c.jobs, caller, key) ==> o.db == c)
            && (o.error.None? && !KeyUsed(c.jobs, caller, key) ==>
                  |o.db.jobs| == |c.jobs| + 1 && o.db == c.(jobs := c.jobs + [o.db.jobs[|c.jobs|]])
                  && IsNewRun(c, o.db.jobs[|c.jobs|], caller, task, digest, ChosenVersion(c, caller, task, pinned),
                              parameters, key, env.now))
  {
    CleanOk(t, env);
    AdmitIff(Clean(t, env), env, caller, task, digest, pinned, parameters, key);
  }

  lemma OnlyOneHasKey(jobs: seq<Job>, app: nat, key: string)
    requires KeysOnce(jobs)
    ensures var prior := FindKey(jobs, app, key);
            && (prior.Some? <==> exists i :: 0 <= i < |jobs| && HasKey(jobs[i], app, key))
            && (forall i :: 0 <= i < |jobs| && HasKey(jobs[i], app, key) ==> prior == Some(i))
  {
    var prior := FindKey(jobs, app, key);
    if prior.Some? { assert HasKey(jobs[prior.value], app, key); }
    forall i | 0 <= i < |jobs| && HasKey(jobs[i], app, key) ensures prior == Some(i) {
      assert !(i < prior.value) && !(prior.value < i);
    }
  }

  // ---------------------------------------------------------------- versions

  lemma NewestVersion(t: Tables, task: nat)
    requires LedgerOk(t) && task < |t.tasks|
    ensures var latest := Latest(t.versions, task);
            latest.Some? && t.versions[latest.value].version == CountTask(t.versions, task)
  {
    LatestIsCount(t.versions, task);
    assert TaskOk(t.versions, task, t.tasks[task]);
  }

  lemma VersionNamesRow(versions: seq<Version>, i: nat, k: nat)
    requires Contiguous(versions) && i < |versions| && k < |versions|
    requires versions[i].task == versions[k].task && versions[i].version == versions[k].version
    ensures i == k
  {
    UniqueVersions(versions, versions[i].task);
  }

  lemma NewestIsLatest(versions: seq<Version>, task: nat, digest: Digest)
    requires Contiguous(versions) && Latest(versions, task).Some?
    ensures versions[Latest(versions, task).value].digest == digest
            <==> HasVersion(versions, task, CountTask(versions, task), digest)
  {
    LatestIsCount(versions, task);
    NewestHas(versions, task, Latest(versions, task).value, CountTask(versions, task), digest);
  }

  lemma NewestHas(versions: seq<Version>, task: nat, at: nat, n: nat, digest: Digest)
    requires Contiguous(versions) && at < |versions| && versions[at].task == task && versions[at].version == n
    ensures versions[at].digest == digest <==> HasVersion(versions, task, n, digest)
  {
    if versions[at].digest == digest {
      assert IsVersion(versions[at], task, n, digest);
    } else {
      forall i | 0 <= i < |versions| ensures !IsVersion(versions[i], task, n, digest) {
        if versions[i].task == task && versions[i].version == n { VersionNamesRow(versions, i, at); }
      }
    }
  }

  /**
    The outcome of saving a draft of a script with `n` versions: accepted exactly if the script is live, keeps its
    host and was not saved since.  A draft that is the same as the latest version adds none.
  */
  ghost predicate Saves(t: Tables, env: Env, o: Outcome, task: nat, d: Definition, expectedLatest: Option<nat>, n: nat,
                        same: bool)
  {
    && (o.error.None? <==>
          && TaskLive(t, task) && d.hostId == t.tasks[task].definition.hostId
          && (expectedLatest.Some? ==> expectedLatest.value == n))
    && (o.error.Some? ==> o.db == t)
    && (o.error.None? ==>
          o.db == if same then Clean(t, env)
                  else Clean(t, env).(versions := t.versions + [Version(task, n + 1, d, Digest(d))]))
  }

  lemma SavedIff(t: Tables, env: Env, task: nat, d: Definition, expectedLatest: Option<nat>)
    requires LedgerOk(t)
    ensures var n := CountTask(t.versions, task);
            Saves(t, env, SaveRoute(t, env, task, d, expectedLatest), task, d, expectedLatest, n,
                  HasVersion(t.versions, task, n, Digest(d)))
  {
    var n := CountTask(t.versions, task);
    var same := HasVersion(t.versions, task, n, Digest(d));
    if TaskLive(t, task) { NewestIs(t, task, d, n, same); }
    SavedAs(t, env, task, d, expectedLatest, n, same);
  }

  /** `n` is the latest version's number and `same` says whether its content is the draft's. */
  ghost predicate Newest(t: Tables, task: nat, d: Definition, n: nat, same: bool) {
    && Latest(t.versions, task).Some?
    && var last := t.versions[Latest(t.versions, task).value];
    last.version == n && (same <==> last.digest == Digest(d))
  }

  lemma NewestIs(t: Tables, task: nat, d: Definition, n: nat, same: bool)
    requires LedgerOk(t) && task < |t.tasks| && n == CountTask(t.versions, task)
    requires same == HasVersion(t.versions, task, n, Digest(d))
    ensures Newest(t, task, d, n, same)
  {
    NewestVersion(t, task);
    NewestIsLatest(t.versions, task, Digest(d));
  }

  lemma SavedAs(t: Tables, env: Env, task: nat, d: Definition, expectedLatest: Option<nat>, n: nat, same: bool)
    requires TaskLive(t, task) ==> Newest(t, task, d, n, same)
    ensures Saves(t, env, SaveRoute(t, env, task, d, expectedLatest), task, d, expectedLatest, n, same)
  {
  }

  /** A script is registered at version 1, published. */
  lemma RegisteredAs(t: Tables, env: Env, d: Definition)
    ensures var c, o := Clean(t, env), RegisterRoute(t, env, d);
            o.error.None? && o.db == c.(tasks := t.tasks + [Task(d, Digest(d), 1, false)],
                                        versions := t.versions + [Version(|t.tasks|, 1, d, Digest(d))])
  {
  }

  /** What publishing leaves of the grants: those of the script are revoked, the others as they were. */
  ghost predicate GrantsAfterPublish(before: seq<Grant>, after: seq<Grant>, task: nat) {
    && |after| == |before|
    && forall i :: 0 <= i < |before| ==>
         after[i] == if before[i].task == task then before[i].(revoked := true) else before[i]
  }

  /** `u` is `t` with this version published, which ends what ran of the script for callers and nothing else. */
  ghost predicate Publishes(t: Tables, c: Tables, u: Tables, task: nat, version: nat)
    requires task < |t.tasks|
  {
    && u.versions == t.versions && |u.jobs| == |t.jobs| == |c.jobs| && GrantsAfterPublish(t.grants, u.grants, task)
    && |u.tasks| == |t.tasks| && (forall k :: 0 <= k < |t.tasks| && k != task ==> u.tasks[k] == t.tasks[k])
    && !u.tasks[task].revoked && u.tasks[task].published == version && TaskOk(t.versions, task, u.tasks[task])
    && forall i :: 0 <= i < |t.jobs| && t.jobs[i].task != task ==> u.jobs[i] == c.jobs[i]
  }

  /** A version is published exactly if it exists and the script is live and as it was when it was looked at. */
  lemma PublishedIff(t: Tables, env: Env, task: nat, version: nat, expected: Digest)
    requires LedgerOk(t)
    ensures var c, o := Clean(t, env), PublishRoute(t, env, task, version, expected);
            && (o.error.None? <==>
                  TaskLive(t, task) && t.tasks[task].digest == expected && 1 <= version <= CountTask(t.versions, task))
            && (o.error.Some? ==> o.db == t)
            && (o.error.None? ==>
                  if t.tasks[task].published == version then o.db == c else Publishes(t, c, o.db, task, version))
  {
    VersionExistsIff(t.versions, task, version);
    PublishUnfolds(t, env, task, version, expected);
    if PublishRoute(t, env, task, version, expected).error.None? && t.tasks[task].published != version {
      PublishedRows(t, env, task, version, expected);
    }
  }

  lemma PublishUnfolds(t: Tables, env: Env, task: nat, version: nat, expected: Digest)
    ensures var c, o := Clean(t, env), PublishRoute(t, env, task, version, expected);
            && (o.error.None? <==>
                  TaskLive(t, task) && t.tasks[task].digest == expected
                  && FindVersion(t.versions, task, version).Some?)
            && (o.error.Some? ==> o.db == t)
            && (o.error.None? && t.tasks[task].published == version ==> o.db == c)
  {
  }

  lemma {:induction false} VersionExistsIff(versions: seq<Version>, task: nat, version: nat)
    requires Contiguous(versions)
    ensures FindVersion(versions, task, version).Some? <==> 1 <= version <= CountTask(versions, task)
  {
    if |versions| > 0 {
      var front := versions[..|versions| - 1];
      assert forall k :: 0 <= k < |front| ==> front[..k] == versions[..k];
      VersionExistsIff(front, task, version);
    }
  }

  lemma PublishedRows(t: Tables, env: Env, task: nat, version: nat, expected: Digest)
    requires TaskLive(t, task) && PublishRoute(t, env, task, version, expected).error.None?
    requires t.tasks[task].published != version
    ensures Publishes(t, Clean(t, env), PublishRoute(t, env, task, version, expected).db, task, version)
  {
    var at := FindVersion(t.versions, task, version).value;
    var row := t.versions[at];
    assert t.versions[at] == Version(task, version, row.definition, row.digest);
    var c := Clean(t, env);
    var p := c.(tasks := c.tasks[task := Task(row.definition, row.digest, version, false)],
                grants := RevokeGrantsWhere(c.grants, OfTask(task)));
    assert PublishRoute(t, env, task, version, expected).db == Clean(p, env);
    forall i | 0 <= i < |t.jobs| && t.jobs[i].task != task ensures Clean(p, env).jobs[i] == c.jobs[i] {
      OtherTasksJob(t, env, p, task, i);
    }
  }

  lemma OtherTasksJob(t: Tables, env: Env, p: Tables, task: nat, i: nat)
    requires i < |t.jobs| && t.jobs[i].task != task && p.jobs == Clean(t, env).jobs && p.versions == t.versions
    requires |p.tasks| == |t.tasks| && forall k :: 0 <= k < |t.tasks| && k != task ==> p.tasks[k] == t.tasks[k]
    requires GrantsAfterPublish(t.grants, p.grants, task)
    ensures Clean(p, env).jobs[i] == Clean(t, env).jobs[i]
  {
    CleanupEnds(t, env, i);
    CleanupEnds(p, env, i);
  }

  // ---------------------------------------------------------------- revocations

  /** A script can be revoked exactly while it is live; no other script and none of their runs is touched. */
  lemma TaskRevokedIff(t: Tables, env: Env, id: nat)
    ensures var c, o := Clean(t, env), RevokeTaskRoute(t, env, id);
            && (o.error.None? <==> TaskLive(t, id))
            && (o.error.Some? ==> o.db == t)
            && (o.error.None? ==>
                  && o.db.tasks == t.tasks[id := t.tasks[id].(revoked := true)]
                  && o.db.versions == t.versions && o.db.grants == t.grants && |o.db.jobs| == |t.jobs|
                  && forall i :: 0 <= i < |t.jobs| && t.jobs[i].task != id ==> o.db.jobs[i] == c.jobs[i])
  {
    if TaskLive(t, id) {
      var c := Clean(t, env);
      var p := c.(tasks := c.tasks[id := c.tasks[id].(revoked := true)]);
      forall i | 0 <= i < |t.jobs| && t.jobs[i].task != id ensures Clean(p, env).jobs[i] == c.jobs[i] {
        CleanupEnds(t, env, i);
        CleanupEnds(p, env, i);
      }
    }
  }

  /** A grant can be revoked whenever it exists; no other grant is touched and no run that is not under it. */
  lemma GrantRevokedIff(t: Tables, env: Env, id: nat)
    ensures var c, o := Clean(t, env), RevokeGrantRoute(t, env, id);
            && (o.error.None? <==> id < |t.grants|)
            && (o.error.Some? ==> o.db == t)
            && (o.error.None? ==>
                  && o.db.grants == t.grants[id := t.grants[id].(revoked := true)]
                  && o.db.versions == t.versions && o.db.tasks == t.tasks && |o.db.jobs| == |t.jobs|
                  && forall i :: 0 <= i < |t.jobs| && (t.jobs[i].caller.None? || t.jobs[i].grant != Some(id)) ==>
                       o.db.jobs[i] == c.jobs[i])
  {
    if id < |t.grants| {
      var c := Clean(t, env);
      var p := c.(grants := c.grants[id := c.grants[id].(revoked := true)]);
      forall i | 0 <= i < |t.jobs| && (t.jobs[i].caller.None? || t.jobs[i].grant != Some(id))
        ensures Clean(p, env).jobs[i] == c.jobs[i]
      {
        CleanupEnds(t, env, i);
        CleanupEnds(p, env, i);
      }
    }
  }

  ghost predicate Between(g: Grant, task: nat, app: nat) { g.task == task && g.app == app }

  /** A new grant revokes exactly its caller's other grants of the script, and touches no run that was not under one. */
  lemma GrantAddedTouches(t: Tables, env: Env, g: Grant)
    requires AddGrantRoute(t, env, g).error.None?
    ensures var c, u := Clean(t, env), AddGrantRoute(t, env, g).db;
            && u.tasks == t.tasks && u.versions == t.versions && |u.jobs| == |t.jobs| && |u.grants| == |t.grants| + 1
            && (forall k :: 0 <= k < |t.grants| ==>
                  u.grants[k] == if Between(t.grants[k], g.task, g.app) then t.grants[k].(revoked := true)
                                 else t.grants[k])
            && (forall i :: 0 <= i < |t.jobs| && !UnderOne(t, t.jobs[i], g.task, g.app) ==> u.jobs[i] == c.jobs[i])
  {
    var c := Clean(t, env);
    var p := c.(grants := RevokeGrantsWhere(c.grants, OfTaskAndApp(g.task, g.app)));
    AddGrantShape(t, env, g, Clean(p, env));
    forall i | 0 <= i < |t.jobs| && !UnderOne(t, t.jobs[i], g.task, g.app) ensures Clean(p, env).jobs[i] == c.jobs[i] {
      CleanupEnds(t, env, i);
      CleanupEnds(p, env, i);
    }
  }

  /** A caller's run under one of its grants of the script. */
  ghost predicate UnderOne(t: Tables, job: Job, task: nat, app: nat) {
    job.caller.Some? && job.grant.Some? && job.grant.value < |t.grants| && Between(t.grants[job.grant.value], task, app)
  }

  /** Losing access revokes exactly the caller's grants and cancels exactly its retained runs. */
  lemma CallerRevoked(t: Tables, app: nat)
    ensures var u := RevokeCallerStep(t, app);
            && u.tasks == t.tasks && u.versions == t.versions && |u.grants| == |t.grants| && |u.jobs| == |t.jobs|
            && (forall g :: 0 <= g < |t.grants| ==>
                  u.grants[g] == if t.grants[g].app == app then t.grants[g].(revoked := true) else t.grants[g])
            && (forall i :: 0 <= i < |t.jobs| ==>
                  u.jobs[i] == if t.jobs[i].caller == Some(app) && Retained(t.jobs[i].state)
                               then t.jobs[i].(state := Cancelled, result := None, parameters := "{}", lease := None)
                               else t.jobs[i])
  {
  }
}
