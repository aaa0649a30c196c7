/** What single routes of the script broker achieve: revocations, grants, claims, completions and retries. */
module HostScriptRoutes {
  import opened Wrappers
  import opened HostScripts
  import opened HostScriptProofs

  /** Revoking a script ends every run of it, the owner's included. */
  lemma RevokeTaskEndsItsRuns(t: Tables, env: Env, task: nat, i: nat)
    requires RevokeTaskRoute(t, env, task).error.None? && i < |t.jobs| && t.jobs[i].task == task
    ensures i < |RevokeTaskRoute(t, env, task).db.jobs| && !Retained(RevokeTaskRoute(t, env, task).db.jobs[i].state)
  {
    var c := Clean(t, env);
    var u := c.(tasks := c.tasks[task := c.tasks[task].(revoked := true)]);
    CleanupExact(t, env, i);
    CleanupExact(u, env, i);
  }

  /** Revoking a grant ends every run that was admitted under it. */
  lemma RevokeGrantEndsItsRuns(t: Tables, env: Env, id: nat, i: nat)
    requires RevokeGrantRoute(t, env, id).error.None? && i < |t.jobs|
    requires t.jobs[i].caller.Some? && t.jobs[i].grant == Some(id)
    ensures i < |RevokeGrantRoute(t, env, id).db.jobs| && !Retained(RevokeGrantRoute(t, env, id).db.jobs[i].state)
  {
    var c := Clean(t, env);
    var u := c.(grants := c.grants[id := c.grants[id].(revoked := true)]);
    CleanupExact(t, env, i);
    CleanupExact(u, env, i);
  }

  /** A claim leases the oldest job the host may run, no longer than it lives, and no claim ever leases it again. */
  lemma ClaimLeasesOnce(t: Tables, env: Env, hostId: string, job: Option<nat>, token: nat, i: nat,
                        between: seq<Step>, later: Env, otherHost: string, otherJob: Option<nat>)
    requires Inv(t) && i < |t.jobs| && NextJob(Clean(t, env), hostId, job, |t.jobs|) == Some(i)
    ensures var c, u := Clean(t, env), ClaimRoute(t, env, hostId, job, token).db;
            && c.jobs[i].state.Queued? && u.jobs[i].state.Running? && u.jobs[i].lease == Some(token)
            && u.jobs[i].leaseUntil <= u.jobs[i].expiresAt == c.jobs[i].expiresAt
            && (forall k :: 0 <= k < |c.jobs| && Claimable(c, k, hostId, job) ==>
                  c.jobs[i].createdAt <= c.jobs[k].createdAt)
            && (forall k :: 0 <= k < |c.jobs| && k != i ==> u.jobs[k] == c.jobs[k])
    ensures var v := Clean(Run(ClaimRoute(t, env, hostId, job, token).db, between), later);
            NextJob(v, otherHost, otherJob, |v.jobs|) != Some(i)
  {
    ClaimGood(t, env, hostId, job, token);
    StartedIsNotClaimed(ClaimRoute(t, env, hostId, job, token).db, between, later, otherHost, otherJob, i);
  }

  lemma StartedIsNotClaimed(u: Tables, between: seq<Step>, later: Env, hostId: string, job: Option<nat>, i: nat)
    requires Inv(u) && i < |u.jobs| && !u.jobs[i].state.Queued?
    ensures var v := Clean(Run(u, between), later); NextJob(v, hostId, job, |v.jobs|) != Some(i)
  {
    RunGood(u, between);
    assert Evolves(u.jobs[i], Run(u, between).jobs[i]);
  }

  /** A run is completed with the token of its live lease, and never again, whatever happens in between. */
  lemma CompletesOnce(t: Tables, env: Env, job: nat, token: nat, failed: bool, result: string,
                      between: seq<Step>, later: Env, again: nat, failedToo: bool, other: string)
    requires Inv(t) && CompleteRoute(t, env, job, token, failed, result).error.None?
    ensures var u := CompleteRoute(t, env, job, token, failed, result).db;
            && job < |t.jobs| == |u.jobs| && t.jobs[job].state.Running? && t.jobs[job].lease == Some(token)
            && t.jobs[job].leaseUntil > env.now && t.jobs[job].expiresAt > env.now
            && u.jobs[job].state == (if failed then Failed else Succeeded) && u.jobs[job].lease.None?
    ensures var v := Run(CompleteRoute(t, env, job, token, failed, result).db, between);
            CompleteRoute(v, later, job, again, failedToo, other)
              == Refused(v, "Run cancelled, expired, or lease invalid")
  {
    CompletedRow(t, env, job, token, failed, result);
    CompleteGood(t, env, job, token, failed, result);
    var u := CompleteRoute(t, env, job, token, failed, result).db;
    RunGood(u, between);
    assert Evolves(u.jobs[job], Run(u, between).jobs[job]);
    OverIsNotCompleted(Run(u, between), later, job, again, failedToo, other);
  }

  lemma CompletedRow(t: Tables, env: Env, job: nat, token: nat, failed: bool, result: string)
    requires CompleteRoute(t, env, job, token, failed, result).error.None?
    ensures var u := CompleteRoute(t, env, job, token, failed, result).db;
            && job < |t.jobs| == |u.jobs| && t.jobs[job].state.Running? && t.jobs[job].lease == Some(token)
            && t.jobs[job].leaseUntil > env.now && t.jobs[job].expiresAt > env.now
            && u.jobs[job].state == (if failed then Failed else Succeeded) && u.jobs[job].lease.None?
  {
    CleanupExact(t, env, job);
  }

  /** A run that is over cannot be completed. */
  lemma OverIsNotCompleted(t: Tables, env: Env, job: nat, token: nat, failed: bool, result: string)
    requires job < |t.jobs| && !Active(t.jobs[job].state)
    ensures CompleteRoute(t, env, job, token, failed, result) == Refused(t, "Run cancelled, expired, or lease invalid")
  {
    CleanupExact(t, env, job);
  }

  /**
    Asking again with the same key and parameters, after any run in between, starts no other run.  It is
    answered, with the first run, exactly while the script is live and still published as it was asked for.
  */
  lemma RetryStartsNothing(t: Tables, env: Env, app: nat, task: nat, digest: Digest, pinned: Option<nat>,
                           parameters: string, key: string, between: seq<Step>, later: Env)
    requires Inv(t) && RequestRoute(t, env, Some(app), task, digest, pinned, parameters, key).error.None?
    ensures var u := RequestRoute(t, env, Some(app), task, digest, pinned, parameters, key).db;
            var v := Run(u, between);
            var again := RequestRoute(v, later, Some(app), task, digest, pinned, parameters, key);
            && |again.db.jobs| == |v.jobs|
            && FindKey(u.jobs, app, key).Some? && FindKey(again.db.jobs, app, key) == FindKey(u.jobs, app, key)
            && (again.error.None? <==>
                  TaskLive(v, task) && v.tasks[task].digest == digest
                  && (pinned.Some? ==> pinned.value == v.tasks[task].published))
  {
    RequestGood(t, env, Some(app), task, digest, pinned, parameters, key);
    RequestedRun(t, env, app, task, digest, pinned, parameters, key);
    var u := RequestRoute(t, env, Some(app), task, digest, pinned, parameters, key).db;
    RunGood(u, between);
    AnswersStay(u, Run(u, between), app, key, task, digest, parameters);
    AskAgain(Run(u, between), later, app, task, digest, pinned, parameters, key);
  }

  lemma AnswersStay(u: Tables, v: Tables, app: nat, key: string, task: nat, digest: Digest, parameters: string)
    requires Good(u, v) && Answers(u.jobs, app, key, task, digest, parameters)
    ensures Answers(v.jobs, app, key, task, digest, parameters)
    ensures FindKey(v.jobs, app, key) == FindKey(u.jobs, app, key)
  {
    var i := FindKey(u.jobs, app, key).value;
    assert Evolves(u.jobs[i], v.jobs[i]);
    var k := FindKey(v.jobs, app, key).value;
    assert !(i < k) && !(k < i);
  }

  /** A caller asks again for a run that its key still names. */
  lemma AskAgain(v: Tables, later: Env, app: nat, task: nat, digest: Digest, pinned: Option<nat>,
                 parameters: string, key: string)
    requires LedgerOk(v) && Answers(v.jobs, app, key, task, digest, parameters)
    ensures var again := RequestRoute(v, later, Some(app), task, digest, pinned, parameters, key);
            && |again.db.jobs| == |v.jobs| && FindKey(again.db.jobs, app, key) == FindKey(v.jobs, app, key)
            && (again.error.None? <==>
                  TaskLive(v, task) && v.tasks[task].digest == digest
                  && (pinned.Some? ==> pinned.value == v.tasks[task].published))
  {
    KeyStays(v, later, app, key);
    if TaskLive(v, task) { PublishedRow(v, task); }
  }

  /** The ledger's row for the published version has the task's digest. */
  lemma PublishedRow(t: Tables, task: nat)
    requires LedgerOk(t) && task < |t.tasks|
    ensures var at := FindVersion(t.versions, task, t.tasks[task].published);
            at.Some? && t.versions[at.value].digest == t.tasks[task].digest
  {
    assert TaskOk(t.versions, task, t.tasks[task]);
    UniqueVersions(t.versions, task);
  }

  /** The run is the first the key finds, and asks for what was asked. */
  ghost predicate Answers(jobs: seq<Job>, app: nat, key: string, task: nat, digest: Digest, parameters: string) {
    var i := FindKey(jobs, app, key);
    i.Some? && jobs[i.value].task == task && jobs[i.value].digest == digest && jobs[i.value].asked == parameters
  }

  lemma NewRunAnswers(jobs: seq<Job>, job: Job, app: nat, key: string)
    requires job.caller == Some(app) && job.key == Some(key)
    ensures Answers(jobs + [job], app, key, job.task, job.digest, job.asked)
  {
  }

  lemma AdmittedNew(c: Tables, env: Env, app: nat, task: nat, digest: Digest, version: nat, parameters: string,
                    key: string)
    requires AdmitNew(c, env, Some(app), task, digest, version, parameters, key).error.None?
    ensures var u := AdmitNew(c, env, Some(app), task, digest, version, parameters, key).db;
            Answers(u.jobs, app, key, task, digest, parameters)
  {
    var u := AdmitNew(c, env, Some(app), task, digest, version, parameters, key).db;
    var job := u.jobs[|c.jobs|];
    assert u.jobs == c.jobs + [job];
    NewRunAnswers(c.jobs, job, app, key);
  }

  lemma AdmittedOld(c: Tables, env: Env, app: nat, task: nat, digest: Digest, pinned: Option<nat>,
                    parameters: string, key: string)
    requires Admit(c, env, Some(app), task, digest, pinned, parameters, key).error.None?
    requires FindKey(c.jobs, app, key).Some?
    ensures Admit(c, env, Some(app), task, digest, pinned, parameters, key).db == c
    ensures Answers(c.jobs, app, key, task, digest, parameters)
  {
  }

  lemma AdmittedRun(c: Tables, env: Env, app: nat, task: nat, digest: Digest, pinned: Option<nat>,
                    parameters: string, key: string)
    requires Admit(c, env, Some(app), task, digest, pinned, parameters, key).error.None?
    ensures Answers(Admit(c, env, Some(app), task, digest, pinned, parameters, key).db.jobs, app, key, task, digest,
                    parameters)
  {
    if FindKey(c.jobs, app, key).None? {
      AdmittedNew(c, env, app, task, digest, ChosenVersion(c, Some(app), task, pinned), parameters, key);
    } else {
      AdmittedOld(c, env, app, task, digest, pinned, parameters, key);
    }
  }

  /** The run found or started by a request answers for its key. */
  lemma RequestedRun(t: Tables, env: Env, app: nat, task: nat, digest: Digest, pinned: Option<nat>,
                     parameters: string, key: string)
    requires RequestRoute(t, env, Some(app), task, digest, pinned, parameters, key).error.None?
    ensures Answers(RequestRoute(t, env, Some(app), task, digest, pinned, parameters, key).db.jobs, app, key, task,
                    digest, parameters)
  {
    AdmittedRun(Clean(t, env), env, app, task, digest, pinned, parameters, key);
  }

  lemma {:induction false} FindKeySame(a: seq<Job>, b: seq<Job>, app: nat, key: string)
    requires |a| == |b| && forall i :: 0 <= i < |a| ==> SameRequest(a[i], b[i])
    ensures FindKey(a, app, key) == FindKey(b, app, key)
  {
    if |a| > 0 {
      assert SameRequest(a[|a| - 1], b[|b| - 1]);
      FindKeySame(a[..|a| - 1], b[..|b| - 1], app, key);
    }
  }

  lemma KeyStays(u: Tables, later: Env, app: nat, key: string)
    ensures var c := Clean(u, later);
            && FindKey(c.jobs, app, key) == FindKey(u.jobs, app, key) && |c.jobs| == |u.jobs|
            && (forall i :: 0 <= i < |u.jobs| ==> SameRequest(u.jobs[i], c.jobs[i]))
            && c.tasks == u.tasks && c.versions == u.versions
  {
    FindKeySame(u.jobs, Clean(u, later).jobs, app, key);
  }
}
