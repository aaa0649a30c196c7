/** The version ledger, what a cleanup leaves, and the pacing of script requests, over every run. */
module HostScriptProofs {
  import opened Wrappers
  import opened HostScripts

  // ---------------------------------------------------------------- the ledger

  ghost function CountTask(versions: seq<Version>, task: nat): nat {
    if |versions| == 0 then 0
    else CountTask(versions[..|versions| - 1], task) + if versions[|versions| - 1].task == task then 1 else 0
  }

  /** Versions of a task count up from 1 in the order they were saved. */
  ghost predicate Contiguous(versions: seq<Version>) {
    forall i :: 0 <= i < |versions| ==> versions[i].version == CountTask(versions[..i], versions[i].task) + 1
  }

  ghost predicate NextVersion(a: Version, b: Version) { a.task == b.task && b.version == a.version + 1 }

  ghost predicate AdjacentDiffer(versions: seq<Version>) {
    forall i, k :: 0 <= i < k < |versions| && NextVersion(versions[i], versions[k]) ==>
      versions[i].digest != versions[k].digest
  }

  ghost predicate RowOk(tasks: seq<Task>, v: Version) {
    && v.task < |tasks| && v.digest == Digest(v.definition)
    && v.definition.hostId == tasks[v.task].definition.hostId
  }

  /** A task carries the ledger's entry for its published version. */
  ghost predicate TaskOk(versions: seq<Version>, id: nat, task: Task) {
    exists i :: 0 <= i < |versions| && versions[i] == Version(id, task.published, task.definition, task.digest)
  }

  ghost predicate LedgerOk(t: Tables) {
    && Contiguous(t.versions) && AdjacentDiffer(t.versions)
    && (forall i :: 0 <= i < |t.versions| ==> RowOk(t.tasks, t.versions[i]))
    && (forall id :: 0 <= id < |t.tasks| ==> TaskOk(t.versions, id, t.tasks[id]))
  }

  // ---------------------------------------------------------------- the jobs

  ghost predicate OneActive(jobs: seq<Job>) {
    forall i, k :: 0 <= i < k < |jobs| && jobs[i].caller == jobs[k].caller ==>
      !(Active(jobs[i].state) && Active(jobs[k].state))
  }

  ghost predicate KeysOnce(jobs: seq<Job>) {
    forall i, k :: 0 <= i < k < |jobs| && jobs[i].caller.Some? && jobs[i].caller == jobs[k].caller ==>
      jobs[i].key != jobs[k].key
  }

  ghost predicate PacedAt(jobs: seq<Job>, k: nat)
    requires k < |jobs|
  {
    CreatedSince(jobs[..k], jobs[k].caller, jobs[k].createdAt - BURST_MS) < BURST_LIMIT
  }

  /** When a job was requested, fewer than ten others of its caller were less than a minute old. */
  ghost predicate BurstOk(jobs: seq<Job>) {
    forall k :: 0 <= k < |jobs| ==> PacedAt(jobs, k)
  }

  ghost predicate JobOk(job: Job) {
    && (job.lease.Some? ==> job.state.Running? && job.leaseUntil <= job.expiresAt)
    && (job.result.Some? ==> job.state.Succeeded?)
    && (job.caller.Some? ==> job.key.Some?)
  }

  ghost predicate JobsOk(jobs: seq<Job>) {
    OneActive(jobs) && KeysOnce(jobs) && BurstOk(jobs) && forall i :: 0 <= i < |jobs| ==> JobOk(jobs[i])
  }

  ghost predicate Inv(t: Tables) { LedgerOk(t) && JobsOk(t.jobs) }

  /** The columns of a job that nothing rewrites. */
  ghost predicate SameRequest(a: Job, b: Job) {
    a.task == b.task && a.caller == b.caller && a.grant == b.grant && a.digest == b.digest && a.version == b.version
    && a.key == b.key && a.asked == b.asked && a.createdAt == b.createdAt && a.expiresAt == b.expiresAt
  }

  /** What any step may do to a job: its request stays, and a run once started or over is never queued again. */
  ghost predicate Evolves(a: Job, b: Job) {
    SameRequest(a, b) && (Active(b.state) ==> Active(a.state)) && (b.state.Queued? ==> a.state.Queued?)
  }

  lemma {:induction false} CreatedSinceSame(a: seq<Job>, b: seq<Job>, caller: Option<nat>, since: int)
    requires |a| == |b| && forall i :: 0 <= i < |a| ==> SameRequest(a[i], b[i])
    ensures CreatedSince(a, caller, since) == CreatedSince(b, caller, since)
  {
    if |a| > 0 {
      assert SameRequest(a[|a| - 1], b[|b| - 1]);
      CreatedSinceSame(a[..|a| - 1], b[..|b| - 1], caller, since);
    }
  }

  /** Rewriting the state of jobs without waking any. */
  lemma JobsEvolve(a: seq<Job>, b: seq<Job>)
    requires JobsOk(a) && |a| == |b|
    requires forall i :: 0 <= i < |a| ==> Evolves(a[i], b[i]) && JobOk(b[i])
    ensures JobsOk(b)
  {
    forall k | 0 <= k < |b| ensures PacedAt(b, k) {
      assert Evolves(a[k], b[k]) && PacedAt(a, k);
      forall i | 0 <= i < k ensures SameRequest(a[..k][i], b[..k][i]) { assert Evolves(a[i], b[i]); }
      CreatedSinceSame(a[..k], b[..k], b[k].caller, b[k].createdAt - BURST_MS);
    }
    forall i, k | 0 <= i < k < |b| && b[i].caller == b[k].caller
      ensures !(Active(b[i].state) && Active(b[k].state))
      ensures b[i].caller.Some? ==> b[i].key != b[k].key
    {
      assert Evolves(a[i], b[i]) && Evolves(a[k], b[k]);
    }
  }

  /** Versions are never rewritten or dropped, a request's columns never change, and no run starts again. */
  ghost predicate Extends(t: Tables, u: Tables) {
    && |t.versions| <= |u.versions| && u.versions[..|t.versions|] == t.versions
    && |t.jobs| <= |u.jobs| && (forall i :: 0 <= i < |t.jobs| ==> Evolves(t.jobs[i], u.jobs[i]))
  }

  // ---------------------------------------------------------------- cleanup

  lemma CleanOk(t: Tables, env: Env)
    requires Inv(t)
    ensures Inv(Clean(t, env)) && Extends(t, Clean(t, env))
  {
    forall i | 0 <= i < |t.jobs|
      ensures Evolves(t.jobs[i], CleanJob(t, env, t.jobs[i])) && JobOk(CleanJob(t, env, t.jobs[i]))
    {
      assert JobOk(t.jobs[i]);
    }
    JobsEvolve(t.jobs, Clean(t, env).jobs);
  }

  /**
    What a cleanup keeps, it keeps unchanged, and it keeps a job exactly when its task, version and, for
    a caller, the published digest and a live unexpired grant still support it and it has not run out.
  */
  lemma CleanupExact(t: Tables, env: Env, i: nat)
    requires i < |t.jobs|
    ensures var c := Clean(t, env);
            && (Retained(c.jobs[i].state) <==>
                  Retained(t.jobs[i].state) && Supported(t, env, t.jobs[i]) && !Lapsed(t.jobs[i], env.now))
            && (Retained(c.jobs[i].state) ==> c.jobs[i] == t.jobs[i] && Supported(c, env, c.jobs[i]))
  {
  }

  // ---------------------------------------------------------------- saving and publishing

  lemma {:induction false} VersionAtMostCount(versions: seq<Version>, i: nat)
    requires Contiguous(versions) && i < |versions|
    ensures 1 <= versions[i].version <= CountTask(versions, versions[i].task)
  {
    var front := versions[..|versions| - 1];
    assert forall k :: 0 <= k < |front| ==> front[..k] == versions[..k];
    if i < |front| { VersionAtMostCount(front, i); }
  }

  lemma {:induction false} LatestIsCount(versions: seq<Version>, task: nat)
    requires Contiguous(versions)
    ensures var latest := Latest(versions, task);
            if latest.None? then CountTask(versions, task) == 0
            else versions[latest.value].version == CountTask(versions, task)
  {
    if |versions| > 0 {
      var front := versions[..|versions| - 1];
      assert forall k :: 0 <= k < |front| ==> front[..k] == versions[..k];
      LatestIsCount(front, task);
    }
  }

  lemma ContiguousAppend(versions: seq<Version>, v: Version)
    requires Contiguous(versions) && v.version == CountTask(versions, v.task) + 1
    ensures Contiguous(versions + [v])
  {
    var all := versions + [v];
    forall i | 0 <= i < |all| ensures all[i].version == CountTask(all[..i], all[i].task) + 1 {
      assert all[..i] == versions[..i];
      if i == |versions| { assert versions[..i] == versions; }
    }
  }

  lemma AdjacentAppend(versions: seq<Version>, at: nat, v: Version)
    requires Contiguous(versions) && AdjacentDiffer(versions) && at < |versions|
    requires NextVersion(versions[at], v) && versions[at].digest != v.digest
    ensures AdjacentDiffer(versions + [v])
  {
    var all := versions + [v];
    UniqueVersions(versions, v.task);
    forall i, k | 0 <= i < k < |all| && NextVersion(all[i], all[k]) ensures all[i].digest != all[k].digest {
      if k < |versions| { assert NextVersion(versions[i], versions[k]); } else { assert i == at; }
    }
  }

  lemma TasksStayOk(t: Tables, v: Version)
    requires forall id :: 0 <= id < |t.tasks| ==> TaskOk(t.versions, id, t.tasks[id])
    ensures forall id :: 0 <= id < |t.tasks| ==> TaskOk(t.versions + [v], id, t.tasks[id])
  {
    forall id | 0 <= id < |t.tasks| ensures TaskOk(t.versions + [v], id, t.tasks[id]) {
      TaskStaysOk(t.versions, t.versions + [v], id, t.tasks[id]);
    }
  }

  lemma AppendVersionOk(t: Tables, at: nat, v: Version)
    requires LedgerOk(t) && RowOk(t.tasks, v) && at < |t.versions|
    requires Latest(t.versions, v.task) == Some(at) && v.version == t.versions[at].version + 1
    requires t.versions[at].digest != v.digest
    ensures LedgerOk(t.(versions := t.versions + [v]))
  {
    LatestIsCount(t.versions, v.task);
    ContiguousAppend(t.versions, v);
    AdjacentAppend(t.versions, at, v);
    TasksStayOk(t, v);
  }

  lemma TaskStaysOk(versions: seq<Version>, longer: seq<Version>, id: nat, task: Task)
    requires TaskOk(versions, id, task) && |versions| <= |longer| && longer[..|versions|] == versions
    ensures TaskOk(longer, id, task)
  {
    var i :| 0 <= i < |versions| && versions[i] == Version(id, task.published, task.definition, task.digest);
    assert longer[..|versions|][i] == longer[i];
  }

  /** A version number of a task names one row. */
  lemma UniqueVersions(versions: seq<Version>, task: nat)
    requires Contiguous(versions)
    ensures forall i, k :: 0 <= i < k < |versions| && versions[i].task == versions[k].task == task ==>
              versions[i].version < versions[k].version
  {
    forall i, k | 0 <= i < k < |versions| && versions[i].task == versions[k].task == task
      ensures versions[i].version < versions[k].version
    {
      var front := versions[..k];
      assert forall j :: 0 <= j < |front| ==> front[..j] == versions[..j];
      VersionAtMostCount(front, i);
    }
  }

  lemma RegisterOk(t: Tables, d: Definition)
    requires LedgerOk(t)
    ensures LedgerOk(t.(tasks := t.tasks + [Task(d, Digest(d), 1, false)],
                        versions := t.versions + [Version(|t.tasks|, 1, d, Digest(d))]))
  {
    var v := Version(|t.tasks|, 1, d, Digest(d));
    var tasks := t.tasks + [Task(d, Digest(d), 1, false)];
    NoVersions(t.versions, |t.tasks|, t.tasks);
    ContiguousAppend(t.versions, v);
    FirstOfTask(t.versions, t.tasks, v);
    RegisterTasksOk(t, v, tasks[|t.tasks|]);
    forall i | 0 <= i < |t.versions| ensures RowOk(tasks, t.versions[i]) { assert RowOk(t.tasks, t.versions[i]); }
  }

  lemma RegisterTasksOk(t: Tables, v: Version, task: Task)
    requires forall id :: 0 <= id < |t.tasks| ==> TaskOk(t.versions, id, t.tasks[id])
    requires v == Version(|t.tasks|, task.published, task.definition, task.digest)
    ensures forall id :: 0 <= id < |t.tasks| + 1 ==> TaskOk(t.versions + [v], id, (t.tasks + [task])[id])
  {
    TasksStayOk(t, v);
    assert (t.versions + [v])[|t.versions|] == v;
    assert TaskOk(t.versions + [v], |t.tasks|, task);
  }

  lemma FirstOfTask(versions: seq<Version>, tasks: seq<Task>, v: Version)
    requires AdjacentDiffer(versions) && v.task >= |tasks|
             && forall i :: 0 <= i < |versions| ==> RowOk(tasks, versions[i])
    ensures AdjacentDiffer(versions + [v])
  {
    var all := versions + [v];
    forall i, k | 0 <= i < k < |all| && NextVersion(all[i], all[k]) ensures all[i].digest != all[k].digest {
      assert RowOk(tasks, versions[i]);
      assert NextVersion(versions[i], versions[k]);
    }
  }

  lemma {:induction false} NoVersions(versions: seq<Version>, task: nat, tasks: seq<Task>)
    requires task >= |tasks| && forall i :: 0 <= i < |versions| ==> RowOk(tasks, versions[i])
    ensures CountTask(versions, task) == 0
  {
    if |versions| > 0 { NoVersions(versions[..|versions| - 1], task, tasks); }
  }

  lemma PublishRowOk(t: Tables, task: nat, version: nat, grants: seq<Grant>)
    requires LedgerOk(t) && task < |t.tasks| && FindVersion(t.versions, task, version).Some?
    ensures var row := t.versions[FindVersion(t.versions, task, version).value];
            LedgerOk(t.(tasks := t.tasks[task := Task(row.definition, row.digest, version, false)], grants := grants))
  {
    var at := FindVersion(t.versions, task, version).value;
    var row := t.versions[at];
    var tasks := t.tasks[task := Task(row.definition, row.digest, version, false)];
    assert RowOk(t.tasks, row);
    forall i | 0 <= i < |t.versions| ensures RowOk(tasks, t.versions[i]) { assert RowOk(t.tasks, t.versions[i]); }
    forall id | 0 <= id < |tasks| ensures TaskOk(t.versions, id, tasks[id]) {
      if id == task { assert t.versions[at] == Version(id, version, row.definition, row.digest); }
    }
  }

  /** Publishing another version ends every retained run a caller had of the script. */
  lemma PublishEndsOldRuns(t: Tables, env: Env, task: nat, version: nat, expected: Digest, i: nat)
    requires PublishRoute(t, env, task, version, expected).error.None?
    requires task < |t.tasks| && t.tasks[task].published != version
    requires i < |t.jobs| && t.jobs[i].task == task && t.jobs[i].caller.Some?
    ensures i < |PublishRoute(t, env, task, version, expected).db.jobs|
    ensures !Retained(PublishRoute(t, env, task, version, expected).db.jobs[i].state)
  {
    var c := Clean(t, env);
    var row := c.versions[FindVersion(c.versions, task, version).value];
    var p := c.(tasks := c.tasks[task := Task(row.definition, row.digest, version, false)],
                grants := RevokeGrantsWhere(c.grants, OfTask(task)));
    CleanupExact(p, env, i);
    CleanupExact(t, env, i);
  }

  // ---------------------------------------------------------------- jobs come and go

  lemma BurstAppend(jobs: seq<Job>, job: Job)
    requires BurstOk(jobs) && CreatedSince(jobs, job.caller, job.createdAt - BURST_MS) < BURST_LIMIT
    ensures BurstOk(jobs + [job])
  {
    var all := jobs + [job];
    forall k | 0 <= k < |all| ensures PacedAt(all, k) {
      assert all[..k] == jobs[..k];
      if k == |jobs| { assert jobs[..k] == jobs; } else { assert PacedAt(jobs, k); }
    }
  }

  /** What an admitted request needs of the jobs before it. */
  ghost predicate Admissible(jobs: seq<Job>, job: Job) {
    && JobOk(job) && !Busy(jobs, job.caller)
    && (job.caller.Some? ==> FindKey(jobs, job.caller.value, job.key.value).None?)
    && CreatedSince(jobs, job.caller, job.createdAt - BURST_MS) < BURST_LIMIT
  }

  lemma AppendJobOk(jobs: seq<Job>, job: Job)
    requires JobsOk(jobs) && Admissible(jobs, job)
    ensures JobsOk(jobs + [job])
  {
    BurstAppend(jobs, job);
    var all := jobs + [job];
    forall i, k | 0 <= i < k < |all| && all[i].caller == all[k].caller
      ensures !(Active(all[i].state) && Active(all[k].state))
      ensures all[i].caller.Some? ==> all[i].key != all[k].key
    {
      if k < |jobs| { assert jobs[i].caller == jobs[k].caller; } else { assert JobOk(jobs[i]); }
    }
  }

  ghost predicate Admitted(c: Tables, d: Tables, now: int) {
    && |d.jobs| == |c.jobs| + 1 && d == c.(jobs := c.jobs + [d.jobs[|c.jobs|]])
    && Admissible(c.jobs, d.jobs[|c.jobs|]) && d.jobs[|c.jobs|].createdAt == now
  }

  lemma AdmitNewShape(c: Tables, env: Env, caller: Option<nat>, task: nat, digest: Digest, version: nat,
                      parameters: string, key: string)
    requires caller.Some? ==> FindKey(c.jobs, caller.value, key).None?
    ensures var d := AdmitNew(c, env, caller, task, digest, version, parameters, key).db;
            d == c || Admitted(c, d, env.now)
  {
  }

  lemma AdmitUnfolds(c: Tables, env: Env, caller: Option<nat>, task: nat, digest: Digest, pinned: Option<nat>,
                     parameters: string, key: string)
    ensures var o := Admit(c, env, caller, task, digest, pinned, parameters, key);
            || o.db == c
            || (task < |c.tasks| && (caller.Some? ==> FindKey(c.jobs, caller.value, key).None?)
                && o == AdmitNew(c, env, caller, task, digest, ChosenVersion(c, caller, task, pinned), parameters, key))
  {
  }

  lemma AdmitShape(c: Tables, env: Env, caller: Option<nat>, task: nat, digest: Digest, pinned: Option<nat>,
                   parameters: string, key: string)
    ensures var d := Admit(c, env, caller, task, digest, pinned, parameters, key).db;
            d == c || Admitted(c, d, env.now)
  {
    AdmitUnfolds(c, env, caller, task, digest, pinned, parameters, key);
    if task < |c.tasks| && (caller.Some? ==> FindKey(c.jobs, caller.value, key).None?) {
      AdmitNewShape(c, env, caller, task, digest, ChosenVersion(c, caller, task, pinned), parameters, key);
    }
  }

  lemma AdmitOk(c: Tables, env: Env, caller: Option<nat>, task: nat, digest: Digest, pinned: Option<nat>,
                parameters: string, key: string)
    requires JobsOk(c.jobs)
    ensures var d := Admit(c, env, caller, task, digest, pinned, parameters, key).db;
            JobsOk(d.jobs) && d == c.(jobs := d.jobs) && |c.jobs| <= |d.jobs| && d.jobs[..|c.jobs|] == c.jobs
  {
    AdmitShape(c, env, caller, task, digest, pinned, parameters, key);
    var d := Admit(c, env, caller, task, digest, pinned, parameters, key).db;
    if d != c { AppendJobOk(c.jobs, d.jobs[|c.jobs|]); }
  }

  lemma SetJobOk(t: Tables, i: nat, job: Job)
    requires Inv(t) && i < |t.jobs| && Evolves(t.jobs[i], job) && JobOk(job)
    ensures Inv(t.(jobs := t.jobs[i := job]))
  {
    JobsEvolve(t.jobs, t.jobs[i := job]);
  }

  /** What a runner is handed is the very definition whose digest the job, and its grant, name. */
  lemma ClaimsApprovedDefinition(t: Tables, env: Env, hostId: string, job: Option<nat>)
    requires LedgerOk(t) && NextJob(Clean(t, env), hostId, job, |t.jobs|).Some?
    ensures var c := Clean(t, env);
            var row := c.jobs[NextJob(c, hostId, job, |c.jobs|).value];
            var v := FindVersion(c.versions, row.task, row.version);
            && v.Some? && Digest(c.versions[v.value].definition) == row.digest
            && (row.caller.Some? ==>
                  && c.tasks[row.task].digest == row.digest
                  && row.grant.Some? && c.grants[row.grant.value].digest == row.digest
                  && !c.grants[row.grant.value].revoked && c.grants[row.grant.value].expiresAt > env.now)
  {
    var c := Clean(t, env);
    var i := NextJob(c, hostId, job, |c.jobs|).value;
    CleanupExact(t, env, i);
    assert RowOk(c.tasks, c.versions[FindVersion(c.versions, c.jobs[i].task, c.jobs[i].version).value]);
  }

  // ---------------------------------------------------------------- every step

  lemma ExtendsTransitive(t: Tables, u: Tables, v: Tables)
    requires Extends(t, u) && Extends(u, v)
    ensures Extends(t, v)
  {
    assert v.versions[..|t.versions|] == v.versions[..|u.versions|][..|t.versions|];
    forall i | 0 <= i < |t.jobs| ensures Evolves(t.jobs[i], v.jobs[i]) {
      assert Evolves(t.jobs[i], u.jobs[i]) && Evolves(u.jobs[i], v.jobs[i]);
    }
  }

  ghost predicate Good(t: Tables, u: Tables) { Inv(u) && Extends(t, u) }

  lemma CleanGood(t: Tables, env: Env)
    requires Inv(t)
    ensures Good(t, Clean(t, env))
  {
    CleanOk(t, env);
  }

  lemma ThenClean(t: Tables, u: Tables, env: Env)
    requires Good(t, u)
    ensures Good(t, Clean(u, env))
  {
    CleanGood(u, env);
    ExtendsTransitive(t, u, Clean(u, env));
  }

  /** What a save makes of the cleaned tables: nothing, or one more version of the script. */
  ghost predicate Saved(c: Tables, u: Tables, task: nat, d: Definition) {
    && TaskLive(c, task) && d.hostId == c.tasks[task].definition.hostId && Latest(c.versions, task).Some?
    && var at := Latest(c.versions, task).value;
    && c.versions[at].digest != Digest(d)
    && u == c.(versions := c.versions + [Version(task, c.versions[at].version + 1, d, Digest(d))])
  }

  lemma SaveShape(t: Tables, env: Env, task: nat, d: Definition, expectedLatest: Option<nat>)
    ensures var u := SaveRoute(t, env, task, d, expectedLatest).db;
      u == t || u == Clean(t, env) || Saved(Clean(t, env), u, task, d)
  {
  }

  lemma SavedGood(c: Tables, u: Tables, task: nat, d: Definition)
    requires Inv(c) && Saved(c, u, task, d)
    ensures Good(c, u)
  {
    AppendVersionOk(c, Latest(c.versions, task).value, u.versions[|c.versions|]);
    assert u.versions[..|c.versions|] == c.versions;
  }

  lemma SaveGood(t: Tables, env: Env, task: nat, d: Definition, expectedLatest: Option<nat>)
    requires Inv(t)
    ensures Good(t, SaveRoute(t, env, task, d, expectedLatest).db)
  {
    SaveShape(t, env, task, d, expectedLatest);
    CleanGood(t, env);
    SavedFrom(t, Clean(t, env), SaveRoute(t, env, task, d, expectedLatest).db, task, d);
  }

  lemma SavedFrom(t: Tables, c: Tables, u: Tables, task: nat, d: Definition)
    requires Inv(t) && Good(t, c) && (u == t || u == c || Saved(c, u, task, d))
    ensures Good(t, u)
  {
    if u != t && u != c {
      SavedGood(c, u, task, d);
      ExtendsTransitive(t, c, u);
    }
  }

  lemma RegisterGood(t: Tables, env: Env, d: Definition)
    requires Inv(t)
    ensures Good(t, RegisterRoute(t, env, d).db)
  {
    var c := Clean(t, env);
    var u := RegisterRoute(t, env, d).db;
    CleanGood(t, env);
    RegisterOk(c, d);
    assert u.versions[..|c.versions|] == c.versions;
    ExtendsTransitive(t, c, u);
  }

  lemma PublishGood(t: Tables, env: Env, task: nat, version: nat, expected: Digest)
    requires Inv(t)
    ensures Good(t, PublishRoute(t, env, task, version, expected).db)
  {
    var c := Clean(t, env);
    CleanGood(t, env);
    if TaskLive(c, task) && FindVersion(c.versions, task, version).Some? {
      var row := c.versions[FindVersion(c.versions, task, version).value];
      var grants := RevokeGrantsWhere(c.grants, OfTask(task));
      PublishRowOk(c, task, version, grants);
      var p := c.(tasks := c.tasks[task := Task(row.definition, row.digest, version, false)], grants := grants);
      assert Good(t, p);
      ThenClean(t, p, env);
    }
  }

  lemma RevokeTaskGood(t: Tables, env: Env, task: nat)
    requires Inv(t)
    ensures Good(t, RevokeTaskRoute(t, env, task).db)
  {
    var c := Clean(t, env);
    CleanGood(t, env);
    if TaskLive(c, task) {
      var p := c.(tasks := c.tasks[task := c.tasks[task].(revoked := true)]);
      forall i | 0 <= i < |c.versions| ensures RowOk(p.tasks, c.versions[i]) { assert RowOk(c.tasks, c.versions[i]); }
      forall id | 0 <= id < |p.tasks| ensures TaskOk(p.versions, id, p.tasks[id]) {
        assert TaskOk(c.versions, id, c.tasks[id]);
      }
      assert Good(t, p);
      ThenClean(t, p, env);
    }
  }

  /** Grants are no part of the invariant. */
  lemma GrantsFree(t: Tables, u: Tables, grants: seq<Grant>)
    requires Good(t, u)
    ensures Good(t, u.(grants := grants))
  {
  }

  lemma AddGrantShape(t: Tables, env: Env, g: Grant, d: Tables)
    requires var c := Clean(t, env);
             d == Clean(c.(grants := RevokeGrantsWhere(c.grants, OfTaskAndApp(g.task, g.app))), env)
    ensures AddGrantRoute(t, env, g).error.None? ==>
            AddGrantRoute(t, env, g).db == d.(grants := d.grants + [g.(revoked := false)])
    ensures AddGrantRoute(t, env, g).error.Some? ==> AddGrantRoute(t, env, g).db == t
  {
  }

  lemma AddGrantGood(t: Tables, env: Env, g: Grant)
    requires Inv(t)
    ensures Good(t, AddGrantRoute(t, env, g).db)
  {
    var c := Clean(t, env);
    CleanGood(t, env);
    var r := c.(grants := RevokeGrantsWhere(c.grants, OfTaskAndApp(g.task, g.app)));
    GrantsFree(t, c, r.grants);
    ThenClean(t, r, env);
    var d := Clean(r, env);
    AddGrantShape(t, env, g, d);
    GrantsFree(t, d, d.grants + [g.(revoked := false)]);
  }

  lemma RevokeGrantGood(t: Tables, env: Env, id: nat)
    requires Inv(t)
    ensures Good(t, RevokeGrantRoute(t, env, id).db)
  {
    var c := Clean(t, env);
    CleanGood(t, env);
    if id < |c.grants| {
      var r := c.(grants := c.grants[id := c.grants[id].(revoked := true)]);
      GrantsFree(t, c, r.grants);
      ThenClean(t, r, env);
    }
  }

  lemma RevokeCallerGood(t: Tables, app: nat)
    requires Inv(t)
    ensures Good(t, RevokeCallerStep(t, app))
  {
    var u := RevokeCallerStep(t, app);
    forall i | 0 <= i < |t.jobs| ensures Evolves(t.jobs[i], u.jobs[i]) && JobOk(u.jobs[i]) { assert JobOk(t.jobs[i]); }
    JobsEvolve(t.jobs, u.jobs);
  }

  lemma RequestGood(t: Tables, env: Env, caller: Option<nat>, task: nat, digest: Digest, pinned: Option<nat>,
                    parameters: string, key: string)
    requires Inv(t)
    ensures Good(t, RequestRoute(t, env, caller, task, digest, pinned, parameters, key).db)
  {
    var c := Clean(t, env);
    CleanGood(t, env);
    AdmitOk(c, env, caller, task, digest, pinned, parameters, key);
    var d := Admit(c, env, caller, task, digest, pinned, parameters, key).db;
    forall i | 0 <= i < |c.jobs| ensures Evolves(c.jobs[i], d.jobs[i]) { assert d.jobs[..|c.jobs|][i] == d.jobs[i]; }
    ExtendsTransitive(t, c, d);
  }

  lemma RowGood(t: Tables, c: Tables, i: nat, job: Job)
    requires Good(t, c) && i < |c.jobs| && Evolves(c.jobs[i], job) && JobOk(job)
    ensures Good(t, c.(jobs := c.jobs[i := job]))
  {
    SetJobOk(c, i, job);
    ExtendsTransitive(t, c, c.(jobs := c.jobs[i := job]));
  }

  lemma ClaimGood(t: Tables, env: Env, hostId: string, job: Option<nat>, token: nat)
    requires Inv(t)
    ensures Good(t, ClaimRoute(t, env, hostId, job, token).db)
  {
    var c := Clean(t, env);
    CleanGood(t, env);
    var next := NextJob(c, hostId, job, |c.jobs|);
    if next.Some? {
      assert JobOk(c.jobs[next.value]);
      RowGood(t, c, next.value, ClaimRoute(t, env, hostId, job, token).db.jobs[next.value]);
    }
  }

  lemma CompleteGood(t: Tables, env: Env, job: nat, token: nat, failed: bool, result: string)
    requires Inv(t)
    ensures Good(t, CompleteRoute(t, env, job, token, failed, result).db)
  {
    var c := Clean(t, env);
    var o := CompleteRoute(t, env, job, token, failed, result);
    CleanGood(t, env);
    if o.error.None? {
      assert JobOk(c.jobs[job]);
      RowGood(t, c, job, o.db.jobs[job]);
    }
  }

  lemma TaskStepGood(t: Tables, env: Env, op: Op)
    requires Inv(t) && (op.Cleanup? || op.Register? || op.Save? || op.Publish? || op.RevokeTask?)
    ensures Good(t, Apply(t, env, op).db)
  {
    match op
    case Cleanup => CleanGood(t, env);
    case Register(d) => RegisterGood(t, env, d);
    case Save(task, d, expected) => SaveGood(t, env, task, d, expected);
    case Publish(task, version, expected) => PublishGood(t, env, task, version, expected);
    case RevokeTask(task) => RevokeTaskGood(t, env, task);
  }

  lemma GrantStepGood(t: Tables, env: Env, op: Op)
    requires Inv(t) && (op.AddGrant? || op.RevokeGrant? || op.RevokeCaller?)
    ensures Good(t, Apply(t, env, op).db)
  {
    match op
    case AddGrant(g) => AddGrantGood(t, env, g);
    case RevokeGrant(id) => RevokeGrantGood(t, env, id);
    case RevokeCaller(app) => RevokeCallerGood(t, app);
  }

  /** Every route keeps the ledger and the jobs in order, forgets no row and wakes no run. */
  lemma StepGood(t: Tables, env: Env, op: Op)
    requires Inv(t)
    ensures Good(t, Apply(t, env, op).db)
  {
    if op.Cleanup? || op.Register? || op.Save? || op.Publish? || op.RevokeTask? {
      TaskStepGood(t, env, op);
    } else if op.AddGrant? || op.RevokeGrant? || op.RevokeCaller? {
      GrantStepGood(t, env, op);
    } else if op.Request? {
      RequestGood(t, env, op.caller, op.wanted, op.digest, op.pinned, op.parameters, op.key);
    } else if op.Claim? {
      ClaimGood(t, env, op.hostId, op.job, op.token);
    } else {
      CompleteGood(t, env, op.done, op.lease, op.failed, op.result);
    }
  }

  // ---------------------------------------------------------------- runs

  datatype Step = Step(env: Env, op: Op)

  ghost function Run(t: Tables, steps: seq<Step>): Tables
    decreases |steps|
  {
    if |steps| == 0 then t else Run(Apply(t, steps[0].env, steps[0].op).db, steps[1..])
  }

  lemma {:induction false} RunGood(t: Tables, steps: seq<Step>)
    requires Inv(t)
    ensures Good(t, Run(t, steps))
    decreases |steps|
  {
    if |steps| > 0 {
      var u := Apply(t, steps[0].env, steps[0].op).db;
      StepGood(t, steps[0].env, steps[0].op);
      RunGood(u, steps[1..]);
      ExtendsTransitive(t, u, Run(u, steps[1..]));
    }
  }

  const START: Tables := Tables([], [], [], [])

  lemma {:induction false} RunSplits(t: Tables, before: seq<Step>, after: seq<Step>)
    ensures Run(t, before + after) == Run(Run(t, before), after)
    decreases |before|
  {
    if |before| == 0 {
      assert before + after == after;
    } else {
      assert (before + after)[1..] == before[1..] + after;
      RunSplits(Apply(t, before[0].env, before[0].op).db, before[1..], after);
    }
  }

  /**
    The ledger after any run: versions of a task are numbered from 1 without gaps, stay on one host,
    differ from their neighbours, and each task carries the entry it published; and what is in the ledger
    at one time is there, unchanged, ever after.
  */
  lemma LedgerForever(before: seq<Step>, after: seq<Step>)
    ensures LedgerOk(Run(START, before)) && Extends(Run(START, before), Run(START, before + after))
  {
    RunGood(START, before);
    RunSplits(START, before, after);
    RunGood(Run(START, before), after);
  }

  ghost function CountCaller(jobs: seq<Job>, caller: Option<nat>): nat {
    if |jobs| == 0 then 0
    else CountCaller(jobs[..|jobs| - 1], caller) + if jobs[|jobs| - 1].caller == caller then 1 else 0
  }

  lemma {:induction false} AllCreatedSince(jobs: seq<Job>, caller: Option<nat>, since: int, i: nat)
    requires i <= |jobs| && forall k :: i <= k < |jobs| ==> jobs[k].createdAt > since
    ensures CreatedSince(jobs, caller, since) >= CountCaller(jobs[i..], caller)
    decreases |jobs|
  {
    if i < |jobs| {
      assert jobs[i..][..|jobs[i..]| - 1] == jobs[..|jobs| - 1][i..];
      AllCreatedSince(jobs[..|jobs| - 1], caller, since, i);
    }
  }

  /** Jobs are created in order of time. */
  ghost predicate Timely(jobs: seq<Job>, clock: int) {
    && (forall i, k :: 0 <= i < k < |jobs| ==> jobs[i].createdAt <= jobs[k].createdAt)
    && (forall i :: 0 <= i < |jobs| ==> jobs[i].createdAt <= clock)
  }

  lemma SameJobCount(t: Tables, env: Env, op: Op)
    requires !op.Request? && !op.Save? && !op.Publish? && !op.AddGrant?
    ensures |Apply(t, env, op).db.jobs| == |t.jobs|
  {
  }

  lemma SameJobCountToo(t: Tables, env: Env, op: Op)
    requires op.Save? || op.Publish? || op.AddGrant?
    ensures |Apply(t, env, op).db.jobs| == |t.jobs|
  {
    match op
    case Save(task, d, expected) =>
    case Publish(task, version, expected) =>
    case AddGrant(g) =>
  }

  lemma NewJobsAreNow(t: Tables, env: Env, op: Op)
    ensures var u := Apply(t, env, op).db;
            forall i :: |t.jobs| <= i < |u.jobs| ==> u.jobs[i].createdAt == env.now
  {
    if op.Request? {
      RequestIsNow(Clean(t, env), env, op.caller, op.wanted, op.digest, op.pinned, op.parameters, op.key);
    } else if op.Save? || op.Publish? || op.AddGrant? {
      SameJobCountToo(t, env, op);
    } else {
      SameJobCount(t, env, op);
    }
  }

  lemma RequestIsNow(c: Tables, env: Env, caller: Option<nat>, task: nat, digest: Digest, pinned: Option<nat>,
                     parameters: string, key: string)
    ensures var u := Admit(c, env, caller, task, digest, pinned, parameters, key).db;
            forall i :: |c.jobs| <= i < |u.jobs| ==> u.jobs[i].createdAt == env.now
  {
    AdmitShape(c, env, caller, task, digest, pinned, parameters, key);
  }

  ghost predicate Clocked(clock: int, steps: seq<Step>)
    decreases |steps|
  {
    |steps| == 0 || (clock <= steps[0].env.now && Clocked(steps[0].env.now, steps[1..]))
  }

  lemma {:induction false} RunTimely(t: Tables, clock: int, steps: seq<Step>)
    requires Inv(t) && Timely(t.jobs, clock) && Clocked(clock, steps)
    ensures exists later :: Timely(Run(t, steps).jobs, later)
    decreases |steps|
  {
    if |steps| > 0 {
      var env := steps[0].env;
      var u := Apply(t, env, steps[0].op).db;
      StepGood(t, env, steps[0].op);
      NewJobsAreNow(t, env, steps[0].op);
      forall i | 0 <= i < |u.jobs|
        ensures u.jobs[i].createdAt == if i < |t.jobs| then t.jobs[i].createdAt else env.now
      {
        if i < |t.jobs| { assert Evolves(t.jobs[i], u.jobs[i]); }
      }
      RunTimely(u, env.now, steps[1..]);
      var later :| Timely(Run(u, steps[1..]).jobs, later);
      assert Timely(Run(t, steps).jobs, later);
    } else {
      assert Timely(Run(t, steps).jobs, clock);
    }
  }

  /**
    Ten requests of one caller and then an eleventh span at least a minute, after any run whose clock
    does not run backwards.
  */
  lemma RequestsArePaced(steps: seq<Step>, i: nat, k: nat)
    requires Clocked(0, steps) && i < k < |Run(START, steps).jobs|
    requires CountCaller(Run(START, steps).jobs[i..k], Run(START, steps).jobs[k].caller) >= BURST_LIMIT
    ensures Run(START, steps).jobs[k].createdAt - Run(START, steps).jobs[i].createdAt >= BURST_MS
  {
    var jobs := Run(START, steps).jobs;
    RunGood(START, steps);
    RunTimely(START, 0, steps);
    SpanOfEleven(jobs, i, k);
  }

  lemma SpanOfEleven(jobs: seq<Job>, i: nat, k: nat)
    requires BurstOk(jobs) && i < k < |jobs|
             && (forall a, b :: 0 <= a < b < |jobs| ==> jobs[a].createdAt <= jobs[b].createdAt)
    requires CountCaller(jobs[i..k], jobs[k].caller) >= BURST_LIMIT
    ensures jobs[k].createdAt - jobs[i].createdAt >= BURST_MS
  {
    if jobs[k].createdAt - jobs[i].createdAt < BURST_MS {
      assert PacedAt(jobs, k);
      assert jobs[..k][i..] == jobs[i..k];
      AllCreatedSince(jobs[..k], jobs[k].caller, jobs[k].createdAt - BURST_MS, i);
      assert false;
    }
  }

  /** A caller has at most one job queued or running, and an idempotency key names one job. */
  lemma OneRunPerCaller(steps: seq<Step>)
    ensures OneActive(Run(START, steps).jobs) && KeysOnce(Run(START, steps).jobs)
  {
    RunGood(START, steps);
  }
}
