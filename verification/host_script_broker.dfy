/** The script broker as it runs; each method has the effect `HostScripts` gives its route. */
module HostScriptBrokers {
  import opened Wrappers
  import opened HostScripts

  class HostScriptBroker {
    var tasks: seq<Task>
    var versions: seq<Version>
    var grants: seq<Grant>
    var jobs: seq<Job>

    ghost function View(): Tables
      reads this
    {
      Tables(tasks, versions, grants, jobs)
    }

    constructor ()
      ensures View() == Tables([], [], [], [])
    {
      tasks, versions, grants, jobs := [], [], [], [];
    }

    method Rollback(saved: Tables)
      modifies this
      ensures View() == saved
    {
      tasks, versions, grants, jobs := saved.tasks, saved.versions, saved.grants, saved.jobs;
    }

    method Terminate(i: nat, state: JobState)
      requires i < |jobs|
      modifies this`jobs
      ensures jobs == old(jobs)[i := Terminated(old(jobs)[i], state)]
    {
      jobs := jobs[i := Terminated(jobs[i], state)];
    }

    method Cleanup(env: Env)
      modifies this`jobs
      ensures View() == Clean(old(View()), env)
    {
      var start := Tables(tasks, versions, grants, jobs);
      for i := 0 to |jobs|
        invariant |jobs| == |start.jobs|
        invariant forall k :: 0 <= k < i ==> jobs[k] == CleanJob(start, env, start.jobs[k])
        invariant forall k :: i <= k < |jobs| ==> jobs[k] == start.jobs[k]
      {
        var job := jobs[i];
        if Retained(job.state) {
          if !Supported(start, env, job) {
            Terminate(i, Cancelled);
          } else if Lapsed(job, env.now) {
            Terminate(i, Expired);
          }
        }
      }
      assert jobs == Clean(start, env).jobs;
    }

    method RevokeGrants(doomed: Grant -> bool)
      modifies this`grants
      ensures grants == RevokeGrantsWhere(old(grants), doomed)
    {
      ghost var was := grants;
      for i := 0 to |grants|
        invariant |grants| == |was|
        invariant forall k :: 0 <= k < i ==> grants[k] == RevokeGrantsWhere(was, doomed)[k]
        invariant forall k :: i <= k < |grants| ==> grants[k] == was[k]
      {
        if doomed(grants[i]) { grants := grants[i := grants[i].(revoked := true)]; }
      }
    }

    method Register(env: Env, d: Definition) returns (error: Option<string>)
      modifies this
      ensures Outcome(View(), error) == RegisterRoute(old(View()), env, d)
    {
      Cleanup(env);
      tasks := tasks + [Task(d, Digest(d), 1, false)];
      versions := versions + [Version(|tasks| - 1, 1, d, Digest(d))];
      error := None;
    }

    method Save(env: Env, task: nat, d: Definition, expectedLatest: Option<nat>) returns (error: Option<string>)
      modifies this
      ensures Outcome(View(), error) == SaveRoute(old(View()), env, task, d, expectedLatest)
    {
      var saved := Tables(tasks, versions, grants, jobs);
      Cleanup(env);
      error := None;
      var latest := Latest(versions, task);
      if task >= |tasks| || tasks[task].revoked {
        error := Some("Approved script not found or revoked");
      } else if expectedLatest.Some? && (latest.None? || versions[latest.value].version != expectedLatest.value) {
        error := Some("Task drafts changed");
      } else if d.hostId != tasks[task].definition.hostId {
        error := Some("A task version must stay on its registered host");
      } else if latest.None? {
        error := Some("Script version not found");
      } else if versions[latest.value].digest != Digest(d) {
        versions := versions + [Version(task, versions[latest.value].version + 1, d, Digest(d))];
      }
      if error.Some? { Rollback(saved); }
    }

    method Publish(env: Env, task: nat, version: nat, expected: Digest) returns (error: Option<string>)
      modifies this
      ensures Outcome(View(), error) == PublishRoute(old(View()), env, task, version, expected)
    {
      var saved := Tables(tasks, versions, grants, jobs);
      Cleanup(env);
      if task >= |tasks| || tasks[task].revoked {
        Rollback(saved);
        return Some("Approved script not found or revoked");
      }
      if tasks[task].digest != expected { Rollback(saved); return Some("Published version changed"); }
      var v := FindVersion(versions, task, version);
      if v.None? { Rollback(saved); return Some("Script version not found"); }
      if tasks[task].published != version {
        var row := versions[v.value];
        tasks := tasks[task := Task(row.definition, row.digest, version, false)];
        RevokeGrants(OfTask(task));
        Cleanup(env);
      }
      error := None;
    }

    method RevokeTask(env: Env, task: nat) returns (error: Option<string>)
      modifies this
      ensures Outcome(View(), error) == RevokeTaskRoute(old(View()), env, task)
    {
      var saved := Tables(tasks, versions, grants, jobs);
      Cleanup(env);
      if task >= |tasks| || tasks[task].revoked {
        Rollback(saved);
        return Some("Approved script not found or revoked");
      }
      tasks := tasks[task := tasks[task].(revoked := true)];
      Cleanup(env);
      error := None;
    }

    method AddGrant(env: Env, g: Grant) returns (error: Option<string>)
      modifies this
      ensures Outcome(View(), error) == AddGrantRoute(old(View()), env, g)
    {
      var saved := Tables(tasks, versions, grants, jobs);
      Cleanup(env);
      if g.task >= |tasks| || tasks[g.task].revoked {
        Rollback(saved);
        return Some("Approved script not found or revoked");
      }
      if tasks[g.task].digest != g.digest { Rollback(saved); return Some("Script version changed"); }
      if g.app !in env.apps { Rollback(saved); return Some("Caller not found"); }
      if g.expiresAt <= env.now || g.expiresAt > env.now + GRANT_MS {
        Rollback(saved);
        return Some("Grant must expire within 24 hours");
      }
      RevokeGrants(OfTaskAndApp(g.task, g.app));
      Cleanup(env);
      grants := grants + [g.(revoked := false)];
      error := None;
    }

    method RevokeGrant(env: Env, id: nat) returns (error: Option<string>)
      modifies this
      ensures Outcome(View(), error) == RevokeGrantRoute(old(View()), env, id)
    {
      var saved := Tables(tasks, versions, grants, jobs);
      Cleanup(env);
      if id >= |grants| { Rollback(saved); return Some("Grant not found"); }
      grants := grants[id := grants[id].(revoked := true)];
      Cleanup(env);
      error := None;
    }

    method AdmitRequest(env: Env, caller: Option<nat>, task: nat, digest: Digest, pinned: Option<nat>,
                        parameters: string, key: string)
      returns (error: Option<string>)
      modifies this`jobs
      ensures Outcome(View(), error) == Admit(old(View()), env, caller, task, digest, pinned, parameters, key)
    {
      if task >= |tasks| || tasks[task].revoked { return Some("Approved script not found or revoked"); }
      var version := if caller.None? && pinned.Some? then pinned.value else tasks[task].published;
      var v := FindVersion(versions, task, version);
      if v.None? { return Some("Script version not found"); }
      if digest != versions[v.value].digest || (caller.Some? && pinned.Some? && pinned.value != version) {
        return Some("Script version changed");
      }
      var prior := if caller.Some? then FindKey(jobs, caller.value, key) else None;
      if prior.Some? {
        var asked := jobs[prior.value];
        if asked.task != task || asked.digest != digest || asked.asked != parameters {
          return Some("Idempotency key already used for different parameters");
        }
        return None;
      }
      error := AdmitNewRun(env, caller, task, digest, version, parameters, key);
    }

    method AdmitNewRun(env: Env, caller: Option<nat>, task: nat, digest: Digest, version: nat, parameters: string,
                       key: string)
      returns (error: Option<string>)
      modifies this`jobs
      ensures Outcome(View(), error) == AdmitNew(old(View()), env, caller, task, digest, version, parameters, key)
    {
      var grant := if caller.Some? then FindGrant(grants, caller.value, task, digest, env.now) else None;
      if caller.Some? && grant.None? { return Some("An explicit unexpired grant for this script version is required"); }
      if Busy(jobs, caller) { return Some("A script run for this caller is already active"); }
      var recent := CountRecent(caller, env.now - BURST_MS);
      if recent >= BURST_LIMIT { return Some("At most ten script runs per minute per caller"); }
      var expiresAt := env.now + REQUEST_MS;
      if grant.Some? { expiresAt := Min(expiresAt, grants[grant.value].expiresAt); }
      jobs := jobs + [NewJob(caller, task, grant, digest, version, parameters, key, env.now, expiresAt)];
      error := None;
    }

    method CountRecent(caller: Option<nat>, since: int) returns (n: nat)
      ensures n == CreatedSince(jobs, caller, since)
    {
      n := 0;
      for i := 0 to |jobs|
        invariant n == CreatedSince(jobs[..i], caller, since)
      {
        assert jobs[..i + 1][..i] == jobs[..i];
        if jobs[i].caller == caller && jobs[i].createdAt > since { n := n + 1; }
      }
      assert jobs[..|jobs|] == jobs;
    }

    method Request(env: Env, caller: Option<nat>, task: nat, digest: Digest, pinned: Option<nat>, parameters: string,
                   key: string) returns (error: Option<string>)
      modifies this
      ensures Outcome(View(), error) == RequestRoute(old(View()), env, caller, task, digest, pinned, parameters, key)
    {
      var saved := Tables(tasks, versions, grants, jobs);
      Cleanup(env);
      error := AdmitRequest(env, caller, task, digest, pinned, parameters, key);
      if error.Some? { Rollback(saved); }
    }

    method OldestClaimable(hostId: string, job: Option<nat>) returns (found: Option<nat>)
      ensures found == NextJob(View(), hostId, job, |jobs|)
    {
      found := None;
      for i := 0 to |jobs|
        invariant found == NextJob(View(), hostId, job, i)
      {
        if Claimable(Tables(tasks, versions, grants, jobs), i, hostId, job)
           && (found.None? || jobs[i].createdAt < jobs[found.value].createdAt) {
          found := Some(i);
        }
      }
    }

    method Claim(env: Env, hostId: string, job: Option<nat>, token: nat) returns (claimed: Option<nat>)
      modifies this
      ensures Accepted(View()) == ClaimRoute(old(View()), env, hostId, job, token)
      ensures claimed == NextJob(Clean(old(View()), env), hostId, job, |old(jobs)|)
    {
      Cleanup(env);
      claimed := OldestClaimable(hostId, job);
      if claimed.Some? {
        var row := jobs[claimed.value];
        var v := FindVersion(versions, row.task, row.version);
        var deadline := Min(env.now + versions[v.value].definition.timeoutMs + CLAIM_SLACK_MS, row.expiresAt);
        jobs := jobs[claimed.value := row.(state := Running, lease := Some(token), leaseUntil := deadline)];
      }
    }

    method Complete(env: Env, job: nat, token: nat, failed: bool, result: string) returns (error: Option<string>)
      modifies this
      ensures Outcome(View(), error) == CompleteRoute(old(View()), env, job, token, failed, result)
    {
      var saved := Tables(tasks, versions, grants, jobs);
      Cleanup(env);
      if job >= |jobs| || !jobs[job].state.Running? || jobs[job].lease != Some(token) {
        Rollback(saved);
        return Some("Run cancelled, expired, or lease invalid");
      }
      jobs := jobs[job := jobs[job].(state := if failed then Failed else Succeeded,
                                     result := if failed then None else Some(result),
                                     parameters := "{}", lease := None, resultUntil := env.now + RESULT_MS)];
      error := None;
    }
  }
}
