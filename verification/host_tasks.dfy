/**
  The host-task broker's tables and the effect of each of its routes on them
  (control-plane/src/hostTasks.ts).

  A row's id is its position in its table: rows are only ever appended, so a new id is fresh.
  A digest is modelled by the value digested, which makes it injective.  A route runs in one
  transaction: a rejected route leaves the tables as they were.
*/
module HostTasks {
  import opened Wrappers

  const OPERATION_HASH: string := "55647153d96cfebbd301392a91d9cbb47635ab981dae25dfed26221737d33352"
  const MAX_ATTEMPTS := 3
  const LEASE_MS := 60000
  const REQUEST_MS := 900000
  const RESULT_MS := 1800000
  const GRANT_MS := 86400000
  const ROUTINE_GAP_MS := 300000
  const MANUAL_GAP_MS := 60000
  const MANUAL_WINDOW_MS := 3600000

  datatype Identity = Identity(windowsSid: string, tenantId: string)

  datatype App = App(instanceId: string, revoked: bool)

  datatype Grant = Grant(appId: nat, identity: Identity, expiresAt: int, generation: nat, revoked: bool,
                         operationHash: string)

  datatype Runner = Runner(identity: Identity, revoked: bool)

  /** `parameters` stands for the mode, checkpoint and known ids. */
  datatype Request = Request(key: string, manual: bool, parameters: nat)

  datatype Payload = Payload(request: Request, operationHash: string)

  datatype JobState =
    | AwaitingApproval | Queued | Running | Succeeded
    | Acknowledged | Cancelled | Denied | Expired | Failed | NeedsSignIn

  /** The columns grant_id, grant_generation and grant_hash, which are written together. */
  datatype Binding = Binding(grantId: nat, generation: nat, digest: Grant)

  datatype Lease = Lease(token: nat, until: int)

  datatype StoredResult = StoredResult(value: nat, until: int)

  /** `stored` is the parse of request_json, `None` when it does not parse. */
  datatype Job = Job(appId: nat, key: string, manual: bool, createdAt: int,
                     stored: Option<Request>, payload: Payload, operationHash: string,
                     state: JobState, expiresAt: int, attempt: nat,
                     binding: Option<Binding>, runner: Option<nat>,
                     lease: Option<Lease>, result: Option<StoredResult>)

  datatype Tables = Tables(apps: seq<App>, grants: seq<Grant>, runners: seq<Runner>, jobs: seq<Job>)

  /**
    What one step reads from outside the tables: the clock, the instance clients that are revoked
    or past their expiry, the order in which a scan returns the job rows, and the verdicts of the
    execution fixture.
  */
  datatype Env = Env(now: int, lapsed: set<nat>, scan: seq<nat>, identityOk: bool, evidenceOk: bool)

  datatype LeaseProof = LeaseProof(runner: nat, job: nat, attempt: nat, token: nat)

  /** The principal a result names: app, grant and grant generation. */
  datatype Principal = Principal(app: nat, grantId: nat, generation: nat)

  datatype Op =
    | Cleanup
    | AddApp(instanceId: string)
    | ReviveApp(revived: nat)
    | AddGrant(grantee: nat, identity: Identity, expiresAt: int)
    | RevokeApp(app: nat)
    | RevokeGrant(grant: nat)
    | RevokeRunner(runner: nat)
    | AddRunner(person: Identity)
    | Deny(job: nat)
    | Claim(claimant: nat, token: nat)
    | Heartbeat(beat: LeaseProof)
    | Complete(done: LeaseProof, payload: Payload, principal: Principal, result: nat)
    | Fail(failed: LeaseProof, cause: Payload, needsSignIn: bool)
    | Submit(caller: nat, request: Request)
    | Acknowledge(owner: nat, finished: nat)
    | Cancel(canceller: nat, unwanted: nat)

  datatype Reply =
    | Done
    | Created(id: nat)
    | NoJob
    | Dispatched(job: nat, attempt: nat, until: int)
    | LeaseUntil(until: int)
    | Accepted
    | Rejected(code: string)

  datatype Outcome = Outcome(db: Tables, reply: Reply)

  // ---------------------------------------------------------------- rows

  predicate Terminal(s: JobState) {
    s.Acknowledged? || s.Cancelled? || s.Denied? || s.Expired? || s.Failed? || s.NeedsSignIn?
  }

  /** The states that count against an app: one such job at a time. */
  predicate Pending(s: JobState) { s.AwaitingApproval? || s.Queued? || s.Running? }

  predicate Active(s: JobState) { s.Queued? || s.Running? }

  function Terminated(job: Job, state: JobState): Job {
    job.(state := state, result := None, lease := None)
  }

  function SetJob(t: Tables, j: nat, job: Job): Tables
    requires j < |t.jobs|
  {
    t.(jobs := t.jobs[j := job])
  }

  function Terminate(t: Tables, j: nat, state: JobState): Tables
    requires j < |t.jobs|
  {
    SetJob(t, j, Terminated(t.jobs[j], state))
  }

  predicate AppLive(apps: seq<App>, a: nat) { a < |apps| && !apps[a].revoked }

  predicate RunnerLive(runners: seq<Runner>, r: nat) { r < |runners| && !runners[r].revoked }

  predicate GrantLive(g: Grant, app: nat, now: int) {
    g.appId == app && !g.revoked && g.expiresAt > now
  }

  /** The live grant of an app with the latest expiry. */
  function LiveGrant(grants: seq<Grant>, app: nat, now: int): (g: Option<nat>)
    ensures g.Some? ==> g.value < |grants| && GrantLive(grants[g.value], app, now)
    ensures g.Some? ==>
              forall i :: 0 <= i < |grants| && GrantLive(grants[i], app, now) ==>
                grants[i].expiresAt <= grants[g.value].expiresAt
    ensures g.None? ==> forall i :: 0 <= i < |grants| ==> !GrantLive(grants[i], app, now)
  {
    if |grants| == 0 then None
    else
      var n := |grants| - 1;
      var best := LiveGrant(grants[..n], app, now);
      if GrantLive(grants[n], app, now) && (best.None? || grants[best.value].expiresAt < grants[n].expiresAt)
      then Some(n) else best
  }

  predicate HasActive(jobs: seq<Job>, app: nat) {
    exists i :: 0 <= i < |jobs| && jobs[i].appId == app && Active(jobs[i].state)
  }

  predicate HasAwaiting(jobs: seq<Job>, app: nat) {
    exists i :: 0 <= i < |jobs| && jobs[i].appId == app && jobs[i].state.AwaitingApproval?
  }

  // ---------------------------------------------------------------- sweep

  predicate Intact(job: Job) {
    && job.stored.Some?
    && job.payload == Payload(job.stored.value, OPERATION_HASH)
    && job.stored.value.key == job.key
    && job.stored.value.manual == job.manual
    && job.operationHash == OPERATION_HASH
  }

  predicate BindingHolds(grants: seq<Grant>, job: Job, now: int) {
    && job.binding.Some?
    && job.binding.value.grantId < |grants|
    && var g := grants[job.binding.value.grantId];
    && g.appId == job.appId
    && !g.revoked
    && g.expiresAt > now
    && g.generation == job.binding.value.generation
    && g == job.binding.value.digest
    && g.operationHash == OPERATION_HASH
  }

  function Approved(grants: seq<Grant>, job: Job, g: nat): Job
    requires g < |grants|
  {
    job.(state := Queued,
         binding := Some(Binding(g, grants[g].generation, grants[g])),
         expiresAt := Min(job.expiresAt, grants[g].expiresAt))
  }

  function Requeued(job: Job): Job {
    job.(state := Queued, runner := None, lease := None)
  }

  /** What the sweep makes of one live job. */
  function SweptJob(t: Tables, job: Job, now: int): Job {
    if job.stored.None? then Terminated(job, Expired)
    else if !AppLive(t.apps, job.appId) then Terminated(job, Cancelled)
    else if job.runner.Some? && !RunnerLive(t.runners, job.runner.value) then Terminated(job, Cancelled)
    else if !Intact(job) || (job.expiresAt <= now && !job.state.Succeeded?) then Terminated(job, Expired)
    else if job.state.AwaitingApproval? then
      var g := LiveGrant(t.grants, job.appId, now);
      if g.Some? && !HasActive(t.jobs, job.appId) then Approved(t.grants, job, g.value) else job
    else if !BindingHolds(t.grants, job, now) then Terminated(job, Expired)
    else if job.state.Succeeded? && (job.result.None? || job.result.value.until <= now) then Terminated(job, Expired)
    else if job.state.Running? && (job.lease.None? || job.lease.value.until <= now) then
      if job.attempt >= MAX_ATTEMPTS then Terminated(job, Expired) else Requeued(job)
    else job
  }

  function SweepRow(t: Tables, j: nat, now: int): Tables
    requires j < |t.jobs|
  {
    if Terminal(t.jobs[j].state) then t else SetJob(t, j, SweptJob(t, t.jobs[j], now))
  }

  /** A scan visits every job row once, in some order. */
  ghost predicate IsScan(scan: seq<nat>, n: nat) {
    && (forall i :: 0 <= i < |scan| ==> scan[i] < n)
    && (forall j :: 0 <= j < n ==> j in scan)
    && (forall i, k :: 0 <= i < k < |scan| ==> scan[i] != scan[k])
  }

  function SweepUpTo(t: Tables, scan: seq<nat>, n: nat, now: int): (r: Tables)
    requires n <= |scan|
    requires forall i :: 0 <= i < |scan| ==> scan[i] < |t.jobs|
    ensures r.apps == t.apps && r.grants == t.grants && r.runners == t.runners && |r.jobs| == |t.jobs|
  {
    if n == 0 then t else SweepRow(SweepUpTo(t, scan, n - 1, now), scan[n - 1], now)
  }

  function RevokeLapsed(t: Tables, lapsed: set<nat>): Tables {
    t.(apps := seq(|t.apps|, i requires 0 <= i < |t.apps| =>
                  if i in lapsed then t.apps[i].(revoked := true) else t.apps[i]))
  }

  function Sweep(t: Tables, env: Env): (r: Tables)
    requires IsScan(env.scan, |t.jobs|)
    ensures |r.jobs| == |t.jobs| && r.grants == t.grants && r.runners == t.runners && |r.apps| == |t.apps|
  {
    SweepUpTo(RevokeLapsed(t, env.lapsed), env.scan, |env.scan|, env.now)
  }

  // ---------------------------------------------------------------- administration

  /** Terminates every job that `doomed` selects. */
  function TerminateWhere(jobs: seq<Job>, doomed: Job -> bool, state: JobState): seq<Job> {
    seq(|jobs|, i requires 0 <= i < |jobs| => if doomed(jobs[i]) then Terminated(jobs[i], state) else jobs[i])
  }

  function BoundTo(g: nat): Job -> bool {
    (job: Job) => job.binding.Some? && job.binding.value.grantId == g && (Active(job.state) || job.state.Succeeded?)
  }

  function RevokedGrant(g: Grant): Grant {
    if g.revoked then g else g.(revoked := true, generation := g.generation + 1)
  }

  function RevokeGrantRows(t: Tables, g: nat): Tables
    requires g < |t.grants|
  {
    t.(grants := t.grants[g := RevokedGrant(t.grants[g])], jobs := TerminateWhere(t.jobs, BoundTo(g), Cancelled))
  }

  /** Revokes, in row order, those of the first n grants that belong to the app and are not revoked. */
  function RevokeGrantsOf(t: Tables, app: nat, n: nat): (r: Tables)
    requires n <= |t.grants|
    ensures |r.grants| == |t.grants| && |r.jobs| == |t.jobs| && r.apps == t.apps && r.runners == t.runners
  {
    if n == 0 then t
    else
      var r := RevokeGrantsOf(t, app, n - 1);
      if r.grants[n - 1].appId == app && !r.grants[n - 1].revoked then RevokeGrantRows(r, n - 1) else r
  }

  function AddGrantRoute(t: Tables, env: Env, app: nat, identity: Identity, expiresAt: int): Outcome
    requires IsScan(env.scan, |t.jobs|)
  {
    var s := Sweep(t, env);
    if !AppLive(s.apps, app) then Outcome(t, Rejected("app_not_found"))
    else if expiresAt <= env.now || expiresAt > env.now + GRANT_MS then Outcome(t, Rejected("invalid_expiry"))
    else
      var r := RevokeGrantsOf(s, app, |s.grants|);
      Outcome(r.(grants := r.grants + [Grant(app, identity, expiresAt, 1, false, OPERATION_HASH)]), Created(|r.grants|))
  }

  function OfApp(app: nat): Job -> bool {
    (job: Job) => job.appId == app && !Terminal(job.state)
  }

  function RevokeAppRoute(t: Tables, env: Env, app: nat): Outcome
    requires IsScan(env.scan, |t.jobs|)
  {
    var s := Sweep(t, env);
    if app >= |s.apps| then Outcome(t, Rejected("app_not_found"))
    else
      var r := RevokeGrantsOf(s.(apps := s.apps[app := s.apps[app].(revoked := true)]), app, |s.grants|);
      Outcome(r.(jobs := TerminateWhere(r.jobs, OfApp(app), Cancelled)), Done)
  }

  function RevokeGrantRoute(t: Tables, env: Env, g: nat): Outcome
    requires IsScan(env.scan, |t.jobs|)
  {
    var s := Sweep(t, env);
    if g >= |s.grants| then Outcome(t, Rejected("grant_not_found")) else Outcome(RevokeGrantRows(s, g), Done)
  }

  function RunBy(r: nat): Job -> bool {
    (job: Job) => job.runner == Some(r) && (job.state.Running? || job.state.Succeeded?)
  }

  function RevokeRunnerRoute(t: Tables, env: Env, runner: nat): Outcome
    requires IsScan(env.scan, |t.jobs|)
  {
    var s := Sweep(t, env);
    if runner >= |s.runners| then Outcome(t, Rejected("runner_not_found"))
    else
      Outcome(s.(runners := s.runners[runner := s.runners[runner].(revoked := true)],
                 jobs := TerminateWhere(s.jobs, RunBy(runner), Cancelled)), Done)
  }

  function DenyRoute(t: Tables, env: Env, j: nat): Outcome
    requires IsScan(env.scan, |t.jobs|)
  {
    var s := Sweep(t, env);
    if j >= |s.jobs| then Outcome(t, Rejected("job_not_found")) else Outcome(Terminate(s, j, Denied), Done)
  }

  function AddAppRoute(t: Tables, env: Env, instanceId: string): Outcome
    requires IsScan(env.scan, |t.jobs|)
  {
    var s := Sweep(t, env);
    if exists a :: 0 <= a < |s.apps| && s.apps[a].instanceId == instanceId
    then Outcome(t, Rejected("instance_already_provisioned"))
    else Outcome(s.(apps := s.apps + [App(instanceId, false)]), Created(|s.apps|))
  }

  function AddRunnerRoute(t: Tables, env: Env, identity: Identity): Outcome
    requires IsScan(env.scan, |t.jobs|)
  {
    var s := Sweep(t, env);
    if !env.identityOk then Outcome(t, Rejected("execution_blocked"))
    else Outcome(s.(runners := s.runners + [Runner(identity, false)]), Created(|s.runners|))
  }

  // ---------------------------------------------------------------- runners

  predicate Claimable(t: Tables, j: nat, who: Identity) {
    && j < |t.jobs|
    && t.jobs[j].state.Queued?
    && t.jobs[j].binding.Some?
    && t.jobs[j].binding.value.grantId < |t.grants|
    && !t.grants[t.jobs[j].binding.value.grantId].revoked
    && t.grants[t.jobs[j].binding.value.grantId].identity == who
  }

  /** The oldest claimable job among the first n. */
  function NextQueued(t: Tables, who: Identity, n: nat): (j: Option<nat>)
    requires n <= |t.jobs|
    ensures j.Some? ==> j.value < n && Claimable(t, j.value, who)
    ensures j.Some? ==>
              forall i :: 0 <= i < n && Claimable(t, i, who) ==> t.jobs[j.value].createdAt <= t.jobs[i].createdAt
    ensures j.None? ==> forall i :: 0 <= i < n ==> !Claimable(t, i, who)
  {
    if n == 0 then None
    else
      var best := NextQueued(t, who, n - 1);
      if Claimable(t, n - 1, who) && (best.None? || t.jobs[n - 1].createdAt < t.jobs[best.value].createdAt)
      then Some(n - 1) else best
  }

  function Claimed(t: Tables, j: nat, runner: nat, token: nat, now: int): Job
    requires j < |t.jobs| && t.jobs[j].binding.Some? && t.jobs[j].binding.value.grantId < |t.grants|
  {
    var job := t.jobs[j];
    var until := Min(now + LEASE_MS, Min(job.expiresAt, t.grants[job.binding.value.grantId].expiresAt));
    job.(state := Running, attempt := job.attempt + 1, runner := Some(runner), lease := Some(Lease(token, until)))
  }

  function ClaimRoute(t: Tables, env: Env, runner: nat, token: nat): Outcome
    requires IsScan(env.scan, |t.jobs|)
  {
    if !RunnerLive(t.runners, runner) then Outcome(t, Rejected("invalid_credential"))
    else if !env.identityOk then Outcome(t, Rejected("execution_blocked"))
    else
      var s := Sweep(Sweep(t, env), env);
      var next := NextQueued(s, s.runners[runner].identity, |s.jobs|);
      if next.None? then Outcome(s, NoJob)
      else
        var job := Claimed(s, next.value, runner, token, env.now);
        Outcome(SetJob(s, next.value, job), Dispatched(next.value, job.attempt, job.lease.value.until))
  }

  predicate HoldsLease(t: Tables, p: LeaseProof, now: int) {
    && p.job < |t.jobs|
    && t.jobs[p.job].state.Running?
    && t.jobs[p.job].runner == Some(p.runner)
    && t.jobs[p.job].attempt == p.attempt
    && t.jobs[p.job].lease.Some?
    && t.jobs[p.job].lease.value.token == p.token
    && t.jobs[p.job].lease.value.until > now
  }

  predicate SameIdentity(t: Tables, p: LeaseProof)
    requires p.job < |t.jobs|
  {
    var job := t.jobs[p.job];
    && job.binding.Some? && job.binding.value.grantId < |t.grants| && p.runner < |t.runners|
    && t.grants[job.binding.value.grantId].identity == t.runners[p.runner].identity
  }

  /** The lease check every runner report goes through; it sweeps before it answers. */
  function CheckLease(t: Tables, env: Env, p: LeaseProof): (o: Outcome)
    requires IsScan(env.scan, |t.jobs|)
    ensures o.reply.Done? ==> p.job < |o.db.jobs| && |o.db.jobs| == |t.jobs|
  {
    if !HoldsLease(t, p, env.now) then Outcome(t, Rejected("stale_lease"))
    else if !SameIdentity(t, p) || !env.identityOk then Outcome(t, Rejected("identity_not_verified"))
    else
      var s := Sweep(t, env);
      if !s.jobs[p.job].state.Running? then Outcome(t, Rejected("stale_lease")) else Outcome(s, Done)
  }

  function HeartbeatRoute(t: Tables, env: Env, p: LeaseProof): Outcome
    requires IsScan(env.scan, |t.jobs|)
  {
    if !RunnerLive(t.runners, p.runner) then Outcome(t, Rejected("invalid_credential"))
    else
      var s := Sweep(t, env);
      var held := CheckLease(s, env, p);
      if !held.reply.Done? then Outcome(t, held.reply)
      else Outcome(held.db, LeaseUntil(s.jobs[p.job].lease.value.until))
  }

  function CompleteRoute(t: Tables, env: Env, p: LeaseProof, payload: Payload, who: Principal, result: nat): Outcome
    requires IsScan(env.scan, |t.jobs|)
  {
    if !RunnerLive(t.runners, p.runner) then Outcome(t, Rejected("invalid_credential"))
    else
      var s := Sweep(t, env);
      var held := CheckLease(s, env, p);
      if !held.reply.Done? then Outcome(t, held.reply)
      else
        var job := s.jobs[p.job];
        if payload != job.payload then Outcome(t, Rejected("request_binding_mismatch"))
        else if job.binding.None?
          || who != Principal(job.appId, job.binding.value.grantId, job.binding.value.generation)
        then Outcome(t, Rejected("principal_binding_mismatch"))
        else if !env.evidenceOk then Outcome(t, Rejected("snapshot_evidence_mismatch"))
        else
          var again := CheckLease(held.db, env, p);
          if !again.reply.Done? then Outcome(t, again.reply)
          else
            var kept := again.db.jobs[p.job].(state := Succeeded, lease := None,
                                              result := Some(StoredResult(result, env.now + RESULT_MS)));
            Outcome(SetJob(again.db, p.job, kept), Accepted)
  }

  function FailRoute(t: Tables, env: Env, p: LeaseProof, payload: Payload, needsSignIn: bool): Outcome
    requires IsScan(env.scan, |t.jobs|)
  {
    if !RunnerLive(t.runners, p.runner) then Outcome(t, Rejected("invalid_credential"))
    else
      var s := Sweep(t, env);
      var held := CheckLease(s, env, p);
      if !held.reply.Done? then Outcome(t, held.reply)
      else if payload != s.jobs[p.job].payload then Outcome(t, Rejected("request_binding_mismatch"))
      else Outcome(Terminate(held.db, p.job, if needsSignIn then NeedsSignIn else Failed), Accepted)
  }

  // ---------------------------------------------------------------- apps

  function FindKey(jobs: seq<Job>, app: nat, key: string): (j: Option<nat>)
    ensures j.Some? ==> j.value < |jobs| && jobs[j.value].appId == app && jobs[j.value].key == key
    ensures j.None? ==> forall i :: 0 <= i < |jobs| ==> !(jobs[i].appId == app && jobs[i].key == key)
  {
    if |jobs| == 0 then None
    else
      var n := |jobs| - 1;
      var earlier := FindKey(jobs[..n], app, key);
      if earlier.Some? then earlier
      else if jobs[n].appId == app && jobs[n].key == key then Some(n) else None
  }

  /** How many manual requests of the app were created after `since`. */
  function ManualSince(jobs: seq<Job>, app: nat, since: int): nat {
    if |jobs| == 0 then 0
    else
      var job := jobs[|jobs| - 1];
      ManualSince(jobs[..|jobs| - 1], app, since)
        + if job.appId == app && job.manual && job.createdAt > since then 1 else 0
  }

  /** The newest request of the app is less than `gap` old. */
  predicate TooSoon(jobs: seq<Job>, app: nat, now: int, gap: int) {
    exists i :: 0 <= i < |jobs| && jobs[i].appId == app && now - jobs[i].createdAt < gap
  }

  function NewJob(grants: seq<Grant>, app: nat, request: Request, g: Option<nat>, now: int): Job
    requires g.Some? ==> g.value < |grants|
  {
    Job(app, request.key, request.manual, now, Some(request), Payload(request, OPERATION_HASH), OPERATION_HASH,
        if g.Some? then Queued else AwaitingApproval,
        if g.Some? then Min(now + REQUEST_MS, grants[g.value].expiresAt) else now + REQUEST_MS,
        0,
        if g.Some? then Some(Binding(g.value, grants[g.value].generation, grants[g.value])) else None,
        None, None, None)
  }

  /** What an authenticated request meets in freshly swept tables. */
  function Admit(s: Tables, app: nat, request: Request, now: int): Outcome {
    var prior := FindKey(s.jobs, app, request.key);
    if prior.Some? then
      if s.jobs[prior.value].payload != Payload(request, OPERATION_HASH)
         || s.jobs[prior.value].operationHash != OPERATION_HASH
      then Outcome(s, Rejected("idempotency_conflict"))
      else Outcome(s, Created(prior.value))
    else
      var g := LiveGrant(s.grants, app, now);
      if g.Some? && HasActive(s.jobs, app) then Outcome(s, Rejected("scope_busy"))
      else if g.None? && HasAwaiting(s.jobs, app) then Outcome(s, Rejected("approval_pending"))
      else if TooSoon(s.jobs, app, now, if request.manual then MANUAL_GAP_MS else ROUTINE_GAP_MS)
      then Outcome(s, Rejected("refresh_rate_limited"))
      else if request.manual && ManualSince(s.jobs, app, now - MANUAL_WINDOW_MS) >= 2
      then Outcome(s, Rejected("manual_refresh_limit"))
      else Outcome(s.(jobs := s.jobs + [NewJob(s.grants, app, request, g, now)]), Created(|s.jobs|))
  }

  function SubmitRoute(t: Tables, env: Env, app: nat, request: Request): Outcome
    requires IsScan(env.scan, |t.jobs|)
  {
    if !AppLive(t.apps, app) then Outcome(t, Rejected("invalid_credential"))
    else
      var o := Admit(Sweep(t, env), app, request, env.now);
      if o.reply.Rejected? then Outcome(t, o.reply) else o
  }

  function AcknowledgeRoute(t: Tables, env: Env, app: nat, j: nat): Outcome
    requires IsScan(env.scan, |t.jobs|)
  {
    if !AppLive(t.apps, app) then Outcome(t, Rejected("invalid_credential"))
    else
      var s := Sweep(t, env);
      if j >= |s.jobs| || s.jobs[j].appId != app then Outcome(t, Rejected("job_not_found"))
      else if !s.jobs[j].state.Succeeded? && !s.jobs[j].state.Acknowledged?
      then Outcome(t, Rejected("result_not_available"))
      else Outcome(Terminate(s, j, Acknowledged), Done)
  }

  function CancelRoute(t: Tables, env: Env, app: nat, j: nat): Outcome
    requires IsScan(env.scan, |t.jobs|)
  {
    if !AppLive(t.apps, app) then Outcome(t, Rejected("invalid_credential"))
    else
      var s := Sweep(t, env);
      if j >= |s.jobs| || s.jobs[j].appId != app then Outcome(t, Rejected("job_not_found"))
      else if Terminal(s.jobs[j].state) && !s.jobs[j].state.Cancelled? then Outcome(t, Rejected("job_terminal"))
      else Outcome(Terminate(s, j, Cancelled), Done)
  }

  // ---------------------------------------------------------------- one step

  function Apply(t: Tables, env: Env, op: Op): Outcome
    requires IsScan(env.scan, |t.jobs|)
  {
    match op
    case Cleanup => Outcome(Sweep(t, env), Done)
    case AddApp(instanceId) => AddAppRoute(t, env, instanceId)
    case ReviveApp(a) =>
      if a < |t.apps| then Outcome(t.(apps := t.apps[a := t.apps[a].(revoked := false)]), Done) else Outcome(t, Done)
    case AddGrant(app, identity, expiresAt) => AddGrantRoute(t, env, app, identity, expiresAt)
    case RevokeApp(app) => RevokeAppRoute(t, env, app)
    case RevokeGrant(g) => RevokeGrantRoute(t, env, g)
    case RevokeRunner(r) => RevokeRunnerRoute(t, env, r)
    case AddRunner(identity) => AddRunnerRoute(t, env, identity)
    case Deny(j) => DenyRoute(t, env, j)
    case Claim(runner, token) => ClaimRoute(t, env, runner, token)
    case Heartbeat(p) => HeartbeatRoute(t, env, p)
    case Complete(p, payload, who, result) => CompleteRoute(t, env, p, payload, who, result)
    case Fail(p, payload, needsSignIn) => FailRoute(t, env, p, payload, needsSignIn)
    case Submit(app, request) => SubmitRoute(t, env, app, request)
    case Acknowledge(app, j) => AcknowledgeRoute(t, env, app, j)
    case Cancel(app, j) => CancelRoute(t, env, app, j)
  }
}
