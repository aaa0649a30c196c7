/**
  The host-script broker: tasks with a ledger of versions, grants for one published version, and jobs
  (control-plane/src/hostScripts.ts).  Row ids are positions, and a digest is the value digested.
*/
module HostScripts {
  import opened Wrappers

  const REQUEST_MS := 300000
  const RESULT_MS := 1800000
  const GRANT_MS := 86400000
  const CLAIM_SLACK_MS := 5000
  const BURST_MS := 60000
  const BURST_LIMIT := 10

  datatype Definition = Definition(hostId: string, timeoutMs: nat, source: string)

  datatype Digest = Digest(of: Definition)

  datatype Task = Task(definition: Definition, digest: Digest, published: nat, revoked: bool)

  datatype Version = Version(task: nat, version: nat, definition: Definition, digest: Digest)

  datatype Grant = Grant(task: nat, app: nat, digest: Digest, expiresAt: int, revoked: bool)

  datatype JobState = Queued | Running | Succeeded | Failed | Cancelled | Expired

  /** The caller is `None` for the owner, who needs no grant; `asked` keeps the parameters asked for. */
  datatype Job = Job(task: nat, caller: Option<nat>, grant: Option<nat>, digest: Digest, version: nat,
                     key: Option<string>, asked: string, parameters: string, state: JobState, createdAt: int,
                     expiresAt: int, lease: Option<nat>, leaseUntil: int, result: Option<string>, resultUntil: int)

  datatype Tables = Tables(tasks: seq<Task>, versions: seq<Version>, grants: seq<Grant>, jobs: seq<Job>)

  /** The clock, and the callers whose app row exists and is not revoked. */
  datatype Env = Env(now: int, apps: set<nat>)

  datatype Op =
    | Cleanup
    | Register(definition: Definition)
    | Save(task: nat, draft: Definition, expectedLatest: Option<nat>)
    | Publish(chosen: nat, version: nat, expectedDigest: Digest)
    | RevokeTask(retired: nat)
    | AddGrant(grant: Grant)
    | RevokeGrant(id: nat)
    | RevokeCaller(app: nat)
    | Request(caller: Option<nat>, wanted: nat, digest: Digest, pinned: Option<nat>, parameters: string, key: string)
    | Claim(hostId: string, job: Option<nat>, token: nat)
    | Complete(done: nat, lease: nat, failed: bool, result: string)

  datatype Outcome = Outcome(db: Tables, error: Option<string>)

  function Refused(t: Tables, error: string): Outcome { Outcome(t, Some(error)) }

  function Accepted(t: Tables): Outcome { Outcome(t, None) }

  // ---------------------------------------------------------------- lookups

  predicate TaskLive(t: Tables, task: nat) { task < |t.tasks| && !t.tasks[task].revoked }

  function FindVersion(versions: seq<Version>, task: nat, version: nat): (i: Option<nat>)
    ensures i.Some? ==> i.value < |versions| && versions[i.value].task == task && versions[i.value].version == version
    ensures i.None? ==> forall k :: 0 <= k < |versions| ==>
            !(versions[k].task == task && versions[k].version == version)
  {
    if |versions| == 0 then None
    else
      var n := |versions| - 1;
      if versions[n].task == task && versions[n].version == version then Some(n)
      else FindVersion(versions[..n], task, version)
  }

  /** The row of a task's highest version. */
  function Latest(versions: seq<Version>, task: nat): (i: Option<nat>)
    ensures i.Some? ==> i.value < |versions| && versions[i.value].task == task
    ensures i.Some? ==> forall k :: 0 <= k < |versions| && versions[k].task == task ==>
                          versions[k].version <= versions[i.value].version
    ensures i.None? ==> forall k :: 0 <= k < |versions| ==> versions[k].task != task
  {
    if |versions| == 0 then None
    else
      var n := |versions| - 1;
      var best := Latest(versions[..n], task);
      if versions[n].task == task && (best.None? || versions[best.value].version < versions[n].version) then Some(n)
        else best
  }

  // ---------------------------------------------------------------- cleanup

  predicate Retained(s: JobState) { s.Queued? || s.Running? || s.Succeeded? || s.Failed? }

  predicate Active(s: JobState) { s.Queued? || s.Running? }

  predicate GrantCovers(t: Tables, job: Job, now: int) {
    && job.grant.Some? && job.grant.value < |t.grants|
    && var g := t.grants[job.grant.value];
    && Some(g.app) == job.caller && g.task == job.task && g.digest == job.digest && !g.revoked && g.expiresAt > now
  }

  /** The task, caller, grant and version the job was requested under all still stand. */
  predicate Supported(t: Tables, env: Env, job: Job) {
    && TaskLive(t, job.task)
    && (job.caller.Some? ==> job.caller.value in env.apps && GrantCovers(t, job, env.now))
    && var v := FindVersion(t.versions, job.task, job.version);
    && v.Some? && t.versions[v.value].digest == job.digest
    && (job.caller.Some? ==> t.tasks[job.task].digest == job.digest)
  }

  predicate Lapsed(job: Job, now: int) {
    || (Active(job.state) && job.expiresAt <= now)
    || (job.state.Running? && job.leaseUntil <= now)
    || ((job.state.Succeeded? || job.state.Failed?) && job.resultUntil <= now)
  }

  function Terminated(job: Job, state: JobState): Job {
    job.(state := state, result := None, parameters := "{}", lease := None)
  }

  function CleanJob(t: Tables, env: Env, job: Job): Job {
    if !Retained(job.state) then job
    else if !Supported(t, env, job) then Terminated(job, Cancelled)
    else if Lapsed(job, env.now) then Terminated(job, Expired)
    else job
  }

  function Clean(t: Tables, env: Env): Tables {
    t.(jobs := seq(|t.jobs|, i requires 0 <= i < |t.jobs| => CleanJob(t, env, t.jobs[i])))
  }

  // ---------------------------------------------------------------- tasks and versions

  function RegisterRoute(t: Tables, env: Env, d: Definition): Outcome {
    var c := Clean(t, env);
    Accepted(c.(tasks := c.tasks + [Task(d, Digest(d), 1, false)],
                versions := c.versions + [Version(|c.tasks|, 1, d, Digest(d))]))
  }

  function SaveVersion(t: Tables, task: nat, d: Definition): Outcome {
    if !TaskLive(t, task) then Refused(t, "Approved script not found or revoked")
    else if d.hostId != t.tasks[task].definition.hostId
      then Refused(t, "A task version must stay on its registered host")
    else
      var latest := Latest(t.versions, task);
      if latest.None? then Refused(t, "Script version not found")
      else if t.versions[latest.value].digest == Digest(d) then Accepted(t)
      else Accepted(t.(versions := t.versions + [Version(task, t.versions[latest.value].version + 1, d, Digest(d))]))
  }

  function SaveRoute(t: Tables, env: Env, task: nat, d: Definition, expectedLatest: Option<nat>): Outcome {
    var c := Clean(t, env);
    var latest := Latest(c.versions, task);
    if !TaskLive(c, task) then Refused(t, "Approved script not found or revoked")
    else if expectedLatest.Some? && (latest.None? || c.versions[latest.value].version != expectedLatest.value)
    then Refused(t, "Task drafts changed")
    else
      var o := SaveVersion(c, task, d);
      if o.error.Some? then Refused(t, o.error.value) else o
  }

  function RevokeGrantsWhere(grants: seq<Grant>, doomed: Grant -> bool): seq<Grant> {
    seq(|grants|, i requires 0 <= i < |grants| => if doomed(grants[i]) then grants[i].(revoked := true) else grants[i])
  }

  function OfTask(task: nat): Grant -> bool { (g: Grant) => g.task == task }

  function OfTaskAndApp(task: nat, app: nat): Grant -> bool { (g: Grant) => g.task == task && g.app == app }

  function OfApp(app: nat): Grant -> bool { (g: Grant) => g.app == app }

  function PublishRoute(t: Tables, env: Env, task: nat, version: nat, expected: Digest): Outcome {
    var c := Clean(t, env);
    if !TaskLive(c, task) then Refused(t, "Approved script not found or revoked")
    else if c.tasks[task].digest != expected then Refused(t, "Published version changed")
    else
      var v := FindVersion(c.versions, task, version);
      if v.None? then Refused(t, "Script version not found")
      else if c.tasks[task].published == version then Accepted(c)
      else
        var row := c.versions[v.value];
        Accepted(Clean(c.(tasks := c.tasks[task := Task(row.definition, row.digest, version, false)],
                          grants := RevokeGrantsWhere(c.grants, OfTask(task))), env))
  }

  function RevokeTaskRoute(t: Tables, env: Env, task: nat): Outcome {
    var c := Clean(t, env);
    if !TaskLive(c, task) then Refused(t, "Approved script not found or revoked")
    else Accepted(Clean(c.(tasks := c.tasks[task := c.tasks[task].(revoked := true)]), env))
  }

  // ---------------------------------------------------------------- grants

  function AddGrantRoute(t: Tables, env: Env, g: Grant): Outcome {
    var c := Clean(t, env);
    if !TaskLive(c, g.task) then Refused(t, "Approved script not found or revoked")
    else if c.tasks[g.task].digest != g.digest then Refused(t, "Script version changed")
    else if g.app !in env.apps then Refused(t, "Caller not found")
    else if g.expiresAt <= env.now || g.expiresAt > env.now + GRANT_MS
      then Refused(t, "Grant must expire within 24 hours")
    else
      var d := Clean(c.(grants := RevokeGrantsWhere(c.grants, OfTaskAndApp(g.task, g.app))), env);
      Accepted(d.(grants := d.grants + [g.(revoked := false)]))
  }

  function RevokeGrantRoute(t: Tables, env: Env, id: nat): Outcome {
    var c := Clean(t, env);
    if id >= |c.grants| then Refused(t, "Grant not found")
    else Accepted(Clean(c.(grants := c.grants[id := c.grants[id].(revoked := true)]), env))
  }

  /** A change of the caller's own access, made outside the routes: its grants go and so do its jobs. */
  function RevokeCallerStep(t: Tables, app: nat): Tables {
    t.(grants := RevokeGrantsWhere(t.grants, OfApp(app)),
       jobs := seq(|t.jobs|, i requires 0 <= i < |t.jobs| =>
                 if t.jobs[i].caller == Some(app) && Retained(t.jobs[i].state) then Terminated(t.jobs[i], Cancelled)
                 else t.jobs[i]))
  }

  // ---------------------------------------------------------------- jobs

  predicate Busy(jobs: seq<Job>, caller: Option<nat>) {
    exists i :: 0 <= i < |jobs| && Active(jobs[i].state) && jobs[i].caller == caller
  }

  /** How many jobs of the caller were created after `since`. */
  function CreatedSince(jobs: seq<Job>, caller: Option<nat>, since: int): nat {
    if |jobs| == 0 then 0
    else
      var last := jobs[|jobs| - 1];
      CreatedSince(jobs[..|jobs| - 1], caller, since) + if last.caller == caller && last.createdAt > since then 1 else 0
  }

  function FindKey(jobs: seq<Job>, app: nat, key: string): (i: Option<nat>)
    ensures i.Some? ==> i.value < |jobs| && jobs[i.value].caller == Some(app) && jobs[i.value].key == Some(key)
    ensures i.None? ==> forall k :: 0 <= k < |jobs| ==> !(jobs[k].caller == Some(app) && jobs[k].key == Some(key))
  {
    if |jobs| == 0 then None
    else
      var n := |jobs| - 1;
      if jobs[n].caller == Some(app) && jobs[n].key == Some(key) then Some(n) else FindKey(jobs[..n], app, key)
  }

  /** A live grant of this version of a script for the app. */
  function FindGrant(grants: seq<Grant>, app: nat, task: nat, digest: Digest, now: int): (i: Option<nat>)
    ensures i.Some? ==>
              && i.value < |grants| && grants[i.value].app == app && grants[i.value].task == task
              && grants[i.value].digest == digest && !grants[i.value].revoked && grants[i.value].expiresAt > now
  {
    if |grants| == 0 then None
    else
      var n := |grants| - 1;
      var earlier := FindGrant(grants[..n], app, task, digest, now);
      if earlier.Some? then earlier
      else if grants[n].app == app && grants[n].task == task && grants[n].digest == digest && !grants[n].revoked
              && grants[n].expiresAt > now
      then Some(n) else None
  }

  /** The version a request runs: the owner may pick one, a caller gets the published one. */
  function ChosenVersion(t: Tables, caller: Option<nat>, task: nat, pinned: Option<nat>): nat
    requires task < |t.tasks|
  {
    if caller.None? && pinned.Some? then pinned.value else t.tasks[task].published
  }

  function NewJob(caller: Option<nat>, task: nat, grant: Option<nat>, digest: Digest, version: nat, parameters: string,
                  key: string, now: int, expiresAt: int): Job
  {
    Job(task, caller, grant, digest, version, if caller.Some? then Some(key) else None, parameters, parameters,
        Queued, now, expiresAt, None, 0, None, 0)
  }

  function Admit(c: Tables, env: Env, caller: Option<nat>, task: nat, digest: Digest, pinned: Option<nat>,
                 parameters: string, key: string): Outcome
  {
    if !TaskLive(c, task) then Refused(c, "Approved script not found or revoked")
    else
      var version := ChosenVersion(c, caller, task, pinned);
      var v := FindVersion(c.versions, task, version);
      if v.None? then Refused(c, "Script version not found")
      else if digest != c.versions[v.value].digest || (caller.Some? && pinned.Some? && pinned.value != version)
      then Refused(c, "Script version changed")
      else
        var prior := if caller.Some? then FindKey(c.jobs, caller.value, key) else None;
        if prior.Some? then
          if c.jobs[prior.value].task != task || c.jobs[prior.value].digest != digest
            || c.jobs[prior.value].asked != parameters
          then Refused(c, "Idempotency key already used for different parameters") else Accepted(c)
        else AdmitNew(c, env, caller, task, digest, version, parameters, key)
  }

  /** A request with a new key needs a grant, an idle caller and room in the last minute. */
  function AdmitNew(c: Tables, env: Env, caller: Option<nat>, task: nat, digest: Digest, version: nat,
                    parameters: string, key: string): Outcome
  {
    var grant := if caller.Some? then FindGrant(c.grants, caller.value, task, digest, env.now) else None;
    if caller.Some? && grant.None? then Refused(c, "An explicit unexpired grant for this script version is required")
    else if Busy(c.jobs, caller) then Refused(c, "A script run for this caller is already active")
    else if CreatedSince(c.jobs, caller, env.now - BURST_MS) >= BURST_LIMIT
    then Refused(c, "At most ten script runs per minute per caller")
    else
      var expiresAt := if grant.Some? then Min(env.now + REQUEST_MS, c.grants[grant.value].expiresAt)
                       else env.now + REQUEST_MS;
      Accepted(c.(jobs := c.jobs + [NewJob(caller, task, grant, digest, version, parameters, key, env.now, expiresAt)]))
  }

  function RequestRoute(t: Tables, env: Env, caller: Option<nat>, task: nat, digest: Digest, pinned: Option<nat>,
                        parameters: string, key: string): Outcome
  {
    var o := Admit(Clean(t, env), env, caller, task, digest, pinned, parameters, key);
    if o.error.Some? then Refused(t, o.error.value) else o
  }

  predicate Claimable(t: Tables, i: nat, hostId: string, job: Option<nat>) {
    && i < |t.jobs| && t.jobs[i].state.Queued?
    && (job.Some? ==> i == job.value && t.jobs[i].caller.None?)
    && var v := FindVersion(t.versions, t.jobs[i].task, t.jobs[i].version);
    && v.Some? && t.versions[v.value].definition.hostId == hostId
  }

  /** The oldest claimable job among the first n. */
  function NextJob(t: Tables, hostId: string, job: Option<nat>, n: nat): (i: Option<nat>)
    requires n <= |t.jobs|
    ensures i.Some? ==> i.value < n && Claimable(t, i.value, hostId, job)
    ensures i.Some? ==> forall k :: 0 <= k < n && Claimable(t, k, hostId, job) ==>
            t.jobs[i.value].createdAt <= t.jobs[k].createdAt
    ensures i.None? ==> forall k :: 0 <= k < n ==> !Claimable(t, k, hostId, job)
  {
    if n == 0 then None
    else
      var best := NextJob(t, hostId, job, n - 1);
      if Claimable(t, n - 1, hostId, job) && (best.None? || t.jobs[n - 1].createdAt < t.jobs[best.value].createdAt)
      then Some(n - 1) else best
  }

  function ClaimRoute(t: Tables, env: Env, hostId: string, job: Option<nat>, token: nat): Outcome {
    var c := Clean(t, env);
    var next := NextJob(c, hostId, job, |c.jobs|);
    if next.None? then Accepted(c)
    else
      var row := c.jobs[next.value];
      var v := FindVersion(c.versions, row.task, row.version);
      var deadline := Min(env.now + c.versions[v.value].definition.timeoutMs + CLAIM_SLACK_MS, row.expiresAt);
      Accepted(c.(jobs := c.jobs[next.value := row.(state := Running, lease := Some(token), leaseUntil := deadline)]))
  }

  function CompleteRoute(t: Tables, env: Env, job: nat, token: nat, failed: bool, result: string): Outcome {
    var c := Clean(t, env);
    if job >= |c.jobs| || !c.jobs[job].state.Running? || c.jobs[job].lease != Some(token)
    then Refused(t, "Run cancelled, expired, or lease invalid")
    else
      Accepted(c.(jobs := c.jobs[job := c.jobs[job].(state := if failed then Failed else Succeeded,
                                                     result := if failed then None else Some(result),
                                                     parameters := "{}", lease := None,
                                                     resultUntil := env.now + RESULT_MS)]))
  }

  function Apply(t: Tables, env: Env, op: Op): Outcome {
    match op
    case Cleanup => Accepted(Clean(t, env))
    case Register(d) => RegisterRoute(t, env, d)
    case Save(task, d, expected) => SaveRoute(t, env, task, d, expected)
    case Publish(task, version, expected) => PublishRoute(t, env, task, version, expected)
    case RevokeTask(task) => RevokeTaskRoute(t, env, task)
    case AddGrant(g) => AddGrantRoute(t, env, g)
    case RevokeGrant(id) => RevokeGrantRoute(t, env, id)
    case RevokeCaller(app) => Accepted(RevokeCallerStep(t, app))
    case Request(caller, task, digest, pinned, parameters, key) =>
      RequestRoute(t, env, caller, task, digest, pinned, parameters, key)
    case Claim(hostId, job, token) => ClaimRoute(t, env, hostId, job, token)
    case Complete(job, token, failed, result) => CompleteRoute(t, env, job, token, failed, result)
  }
}
