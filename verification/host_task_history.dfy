/** Whole runs of the host-task broker: what holds after any sequence of steps, and of the claims and reports in it. */
module HostTaskHistory {
  import opened Wrappers
  import opened HostTasks
  import opened HostTaskProofs

  /** The two events that fencing is about.  A `Finish` with no result is a reported failure. */
  datatype Event =
    | Claiming(job: nat, runner: nat, attempt: nat, token: nat, until: int)
    | Finish(job: nat, runner: nat, attempt: nat, token: nat, at: int, result: Option<nat>)

  datatype World = World(db: Tables, log: seq<Event>, clock: int)

  datatype Step = Step(env: Env, op: Op)

  const START: World := World(Tables([], [], [], []), [], 0)

  function Happened(s: Step, reply: Reply): seq<Event> {
    match s.op
    case Claim(runner, token) =>
      if reply.Dispatched? then [Claiming(reply.job, runner, reply.attempt, token, reply.until)] else []
    case Complete(_, _, _, _) => if reply.Accepted? then [FinishOf(s.op, s.env.now)] else []
    case Fail(_, _, _) => if reply.Accepted? then [FinishOf(s.op, s.env.now)] else []
    case _ => []
  }

  function FinishOf(op: Op, now: int): Event
    requires op.Complete? || op.Fail?
  {
    var p := ProofOf(op);
    Finish(p.job, p.runner, p.attempt, p.token, now, if op.Complete? then Some(op.result) else None)
  }

  ghost predicate Possible(w: World, s: Step) {
    s.env.now >= w.clock && IsScan(s.env.scan, |w.db.jobs|)
  }

  ghost function Next(w: World, s: Step): World
    requires Possible(w, s)
  {
    var o := Apply(w.db, s.env, s.op);
    World(o.db, w.log + Happened(s, o.reply), s.env.now)
  }

  ghost predicate Legal(w: World, steps: seq<Step>)
    decreases |steps|
  {
    |steps| == 0 || (Possible(w, steps[0]) && Legal(Next(w, steps[0]), steps[1..]))
  }

  ghost function Run(w: World, steps: seq<Step>): World
    requires Legal(w, steps)
    decreases |steps|
  {
    if |steps| == 0 then w else Run(Next(w, steps[0]), steps[1..])
  }

  // ---------------------------------------------------------------- the history invariant

  ghost predicate ClaimOnRecord(jobs: seq<Job>, e: Event) {
    e.Claiming? ==> e.job < |jobs| && 1 <= e.attempt <= jobs[e.job].attempt
  }

  /** A finish matches an earlier claim, that claim is the latest of the job, and its deadline had not passed. */
  ghost predicate Answers(log: seq<Event>, l: nat)
    requires l < |log| && log[l].Finish?
  {
    && (exists k :: 0 <= k < l && Matches(log[k], log[l]))
    && (forall k :: 0 <= k < |log| && log[k].Claiming? && log[k].job == log[l].job ==>
          k < l && log[k].attempt <= log[l].attempt)
  }

  ghost predicate Matches(c: Event, f: Event) {
    && c.Claiming? && f.Finish?
    && c.job == f.job && c.runner == f.runner && c.attempt == f.attempt && c.token == f.token
    && f.at < c.until
  }

  ghost predicate LeaseOnRecord(log: seq<Event>, j: nat, job: Job) {
    job.state.Running? ==>
      job.runner.Some? && job.lease.Some? &&
      Claiming(j, job.runner.value, job.attempt, job.lease.value.token, job.lease.value.until) in log
  }

  ghost predicate Delivers(e: Event, j: nat, result: nat) {
    e.Finish? && e.job == j && e.result == Some(result)
  }

  ghost predicate ResultOnRecord(log: seq<Event>, j: nat, job: Job) {
    job.state.Succeeded? ==>
      job.result.Some? && exists l :: 0 <= l < |log| && Delivers(log[l], j, job.result.value.value)
  }

  ghost predicate LogOk(jobs: seq<Job>, log: seq<Event>) {
    && (forall k :: 0 <= k < |log| ==> ClaimOnRecord(jobs, log[k]))
    && (forall k, l :: 0 <= k < l < |log| && log[k].Claiming? && log[l].Claiming? && log[k].job == log[l].job ==>
          log[k].attempt < log[l].attempt)
    && (forall j :: 0 <= j < |jobs| ==> LeaseOnRecord(log, j, jobs[j]) && ResultOnRecord(log, j, jobs[j]))
    && (forall l :: 0 <= l < |log| && log[l].Finish? ==>
          Answers(log, l) && log[l].job < |jobs| && !Pending(jobs[log[l].job].state))
    && (forall k, l :: 0 <= k < l < |log| && log[k].Finish? && log[l].Finish? ==> log[k].job != log[l].job)
  }

  ghost predicate WorldOk(w: World) {
    Inv(w.db, w.clock) && LogOk(w.db.jobs, w.log)
  }

  lemma LaterClock(t: Tables, clock: int, later: int)
    requires Inv(t, clock) && clock <= later
    ensures Inv(t, later)
  {
  }

  lemma QuietLog(a: seq<Job>, b: seq<Job>, log: seq<Event>)
    requires LogOk(a, log) && Follows(a, b)
    ensures LogOk(b, log)
  {
    forall k | 0 <= k < |log| ensures ClaimOnRecord(b, log[k]) {
      assert ClaimOnRecord(a, log[k]);
      if log[k].Claiming? { assert RowFollows(a[log[k].job], b[log[k].job]); }
    }
    forall j | 0 <= j < |b| ensures LeaseOnRecord(log, j, b[j]) && ResultOnRecord(log, j, b[j]) {
      if j < |a| {
        assert RowFollows(a[j], b[j]);
        assert LeaseOnRecord(log, j, a[j]) && ResultOnRecord(log, j, a[j]);
      }
    }
    forall l | 0 <= l < |log| && log[l].Finish?
      ensures Answers(log, l) && log[l].job < |b| && !Pending(b[log[l].job].state)
    {
      assert RowFollows(a[log[l].job], b[log[l].job]);
    }
  }

  lemma ClaimLog(s: Tables, u: Tables, log: seq<Event>, reply: Reply, runner: nat, token: nat, now: int)
    requires LogOk(s.jobs, log) && ClaimedRow(s, u, reply, runner, token, now)
    ensures LogOk(u.jobs, log + [Claiming(reply.job, runner, reply.attempt, token, reply.until)])
  {
    var e := Claiming(reply.job, runner, reply.attempt, token, reply.until);
    var longer := log + [e];
    forall k | 0 <= k < |longer| ensures ClaimOnRecord(u.jobs, longer[k]) {
      if k < |log| { assert ClaimOnRecord(s.jobs, log[k]); }
    }
    forall k, l | 0 <= k < l < |longer| && longer[k].Claiming? && longer[l].Claiming? && longer[k].job == longer[l].job
      ensures longer[k].attempt < longer[l].attempt
    {
      assert ClaimOnRecord(s.jobs, log[k]);
    }
    forall j | 0 <= j < |u.jobs| ensures LeaseOnRecord(longer, j, u.jobs[j]) && ResultOnRecord(longer, j, u.jobs[j]) {
      assert LeaseOnRecord(log, j, s.jobs[j]) && ResultOnRecord(log, j, s.jobs[j]);
      if j == reply.job { assert longer[|log|] == e; } else { KeptResult(log, e, j, s.jobs[j]); }
    }
    forall l | 0 <= l < |longer| && longer[l].Finish?
      ensures Answers(longer, l) && longer[l].job < |u.jobs| && !Pending(u.jobs[longer[l].job].state)
    {
      assert Answers(log, l);
      assert log[l].job != reply.job;
      KeptAnswer(log, e, l);
    }
  }

  lemma KeptResult(log: seq<Event>, e: Event, j: nat, job: Job)
    requires ResultOnRecord(log, j, job)
    ensures ResultOnRecord(log + [e], j, job)
  {
    if job.state.Succeeded? {
      var l :| 0 <= l < |log| && Delivers(log[l], j, job.result.value.value);
      assert Delivers((log + [e])[l], j, job.result.value.value);
    }
  }

  lemma KeptAnswer(log: seq<Event>, e: Event, l: nat)
    requires l < |log| && log[l].Finish? && Answers(log, l)
    requires e.Claiming? ==> e.job != log[l].job
    ensures Answers(log + [e], l)
  {
    var k :| 0 <= k < l && Matches(log[k], log[l]);
    assert Matches((log + [e])[k], (log + [e])[l]);
  }

  lemma FinishLog(s: Tables, u: Tables, log: seq<Event>, p: LeaseProof, op: Op, now: int)
    requires op.Complete? || op.Fail?
    requires LogOk(s.jobs, log) && p == ProofOf(op) && FinishedRow(s, u, p, op, now)
    ensures LogOk(u.jobs, log + [FinishOf(op, now)])
  {
    var e := FinishOf(op, now);
    var longer := log + [e];
    forall k | 0 <= k < |longer| ensures ClaimOnRecord(u.jobs, longer[k]) {
      if k < |log| { assert ClaimOnRecord(s.jobs, log[k]); }
    }
    FinishRecords(s, u, log, p, op, now);
    FinishAnswers(s, u, log, p, op, now);
  }

  lemma FinishRecords(s: Tables, u: Tables, log: seq<Event>, p: LeaseProof, op: Op, now: int)
    requires op.Complete? || op.Fail?
    requires LogOk(s.jobs, log) && p == ProofOf(op) && FinishedRow(s, u, p, op, now)
    ensures forall j :: 0 <= j < |u.jobs| ==>
              LeaseOnRecord(log + [FinishOf(op, now)], j, u.jobs[j])
                && ResultOnRecord(log + [FinishOf(op, now)], j, u.jobs[j])
  {
    var e := FinishOf(op, now);
    var longer := log + [e];
    assert longer[|log|] == e;
    assert LeaseOnRecord(log, p.job, s.jobs[p.job]);
    forall j | 0 <= j < |u.jobs| ensures LeaseOnRecord(longer, j, u.jobs[j]) && ResultOnRecord(longer, j, u.jobs[j]) {
      assert LeaseOnRecord(log, j, s.jobs[j]) && ResultOnRecord(log, j, s.jobs[j]);
      if j == p.job {
        if op.Complete? { assert Delivers(longer[|log|], j, op.result); }
      } else {
        KeptResult(log, e, j, s.jobs[j]);
      }
    }
  }

  lemma FinishAnswers(s: Tables, u: Tables, log: seq<Event>, p: LeaseProof, op: Op, now: int)
    requires op.Complete? || op.Fail?
    requires LogOk(s.jobs, log) && p == ProofOf(op) && FinishedRow(s, u, p, op, now)
    ensures var longer := log + [FinishOf(op, now)]; forall l :: 0 <= l < |longer| && longer[l].Finish? ==>
              Answers(longer, l) && longer[l].job < |u.jobs| && !Pending(u.jobs[longer[l].job].state)
  {
    var e := FinishOf(op, now);
    var longer := log + [e];
    forall l | 0 <= l < |longer| && longer[l].Finish?
      ensures Answers(longer, l) && longer[l].job < |u.jobs| && !Pending(u.jobs[longer[l].job].state)
    {
      if l < |log| { KeptAnswer(log, e, l); } else { NewAnswer(s, log, e, p, now); }
    }
  }

  lemma NewAnswer(s: Tables, log: seq<Event>, e: Event, p: LeaseProof, now: int)
    requires LogOk(s.jobs, log) && HoldsLease(s, p, now)
    requires e.Finish? && e == Finish(p.job, p.runner, p.attempt, p.token, now, e.result)
    ensures Answers(log + [e], |log|)
  {
    var longer := log + [e];
    var job := s.jobs[p.job];
    assert LeaseOnRecord(log, p.job, job);
    var c := Claiming(p.job, p.runner, p.attempt, p.token, job.lease.value.until);
    var k :| 0 <= k < |log| && log[k] == c;
    assert Matches(longer[k], longer[|log|]);
    forall m | 0 <= m < |longer| && longer[m].Claiming? && longer[m].job == p.job
      ensures m < |log| && longer[m].attempt <= e.attempt
    {
      assert ClaimOnRecord(s.jobs, log[m]);
    }
  }

  // ---------------------------------------------------------------- one step, every run

  ghost predicate Persists(a: seq<Job>, b: seq<Job>) {
    |a| <= |b| && forall i :: 0 <= i < |a| ==>
      SameRequest(a[i], b[i]) && a[i].attempt <= b[i].attempt && (Terminal(a[i].state) ==> Terminal(b[i].state))
  }

  lemma QuietGrant(t: Tables, env: Env, op: Op)
    requires Inv(t, env.now) && IsScan(env.scan, |t.jobs|) && (op.AddGrant? || op.RevokeGrant?)
    ensures QuietStep(t, Apply(t, env, op).db, env.now)
  {
    match op
    case AddGrant(app, identity, expiresAt) => AddGrantQuiet(t, env, app, identity, expiresAt);
    case RevokeGrant(g) => RevokeGrantQuiet(t, env, g);
  }

  lemma QuietAppRevocation(t: Tables, env: Env, app: nat)
    requires Inv(t, env.now) && IsScan(env.scan, |t.jobs|)
    ensures QuietStep(t, Apply(t, env, RevokeApp(app)).db, env.now)
  {
    RevokeAppQuiet(t, env, app);
  }

  lemma QuietRunnerRevocation(t: Tables, env: Env, runner: nat)
    requires Inv(t, env.now) && IsScan(env.scan, |t.jobs|)
    ensures QuietStep(t, Apply(t, env, RevokeRunner(runner)).db, env.now)
  {
    RevokeRunnerQuiet(t, env, runner);
  }

  lemma QuietHeartbeat(t: Tables, env: Env, p: LeaseProof)
    requires Inv(t, env.now) && IsScan(env.scan, |t.jobs|)
    ensures QuietStep(t, Apply(t, env, Heartbeat(p)).db, env.now)
  {
    HeartbeatNeverExtends(t, env, p);
  }

  lemma QuietRequest(t: Tables, env: Env, app: nat, request: Request)
    requires Inv(t, env.now) && IsScan(env.scan, |t.jobs|)
    ensures QuietStep(t, Apply(t, env, Submit(app, request)).db, env.now)
  {
    SubmitQuiet(t, env, app, request);
  }

  lemma QuietOp(t: Tables, env: Env, op: Op)
    requires Inv(t, env.now) && IsScan(env.scan, |t.jobs|) && !op.Claim? && !op.Complete? && !op.Fail?
    ensures QuietStep(t, Apply(t, env, op).db, env.now)
  {
    if op.AddGrant? || op.RevokeGrant? { QuietGrant(t, env, op); }
    else if op.RevokeApp? { QuietAppRevocation(t, env, op.app); }
    else if op.RevokeRunner? { QuietRunnerRevocation(t, env, op.runner); }
    else if op.Heartbeat? { QuietHeartbeat(t, env, op.beat); }
    else if op.Submit? { QuietRequest(t, env, op.caller, op.request); }
    else if op.Deny? || op.Acknowledge? || op.Cancel? { SettleQuiet(t, env, op); }
    else if op.AddApp? || op.AddRunner? { PeopleQuiet(t, env, op); }
    else if op.Cleanup? { SweepQuiet(t, env); }
    else { PeopleOk(t, Apply(t, env, op).db, env.now); }
  }

  lemma FollowsPersists(a: seq<Job>, b: seq<Job>)
    requires Follows(a, b)
    ensures Persists(a, b)
  {
    forall i | 0 <= i < |a| ensures SameRequest(a[i], b[i]) { assert RowFollows(a[i], b[i]); }
  }

  lemma SetPersists(a: seq<Job>, m: seq<Job>, j: nat, job: Job)
    requires Follows(a, m) && j < |m|
    requires SameRequest(m[j], job) && m[j].attempt <= job.attempt && !Terminal(m[j].state)
    ensures Persists(a, m[j := job])
  {
    forall i | 0 <= i < |a|
      ensures SameRequest(a[i], m[j := job][i]) && a[i].attempt <= m[j := job][i].attempt
      ensures Terminal(a[i].state) ==> Terminal(m[j := job][i].state)
    {
      assert RowFollows(a[i], m[i]);
    }
  }

  lemma QuietWorld(w: World, u: Tables, now: int)
    requires LogOk(w.db.jobs, w.log) && QuietStep(w.db, u, now)
    ensures WorldOk(World(u, w.log + [], now)) && Persists(w.db.jobs, u.jobs)
  {
    QuietLog(w.db.jobs, u.jobs, w.log);
    FollowsPersists(w.db.jobs, u.jobs);
    assert w.log + [] == w.log;
  }

  lemma ClaimWorld(w: World, m: Tables, u: Tables, reply: Reply, runner: nat, token: nat, now: int)
    requires LogOk(w.db.jobs, w.log) && Inv(u, now)
    requires QuietStep(w.db, m, now) && ClaimedRow(m, u, reply, runner, token, now)
    ensures WorldOk(World(u, w.log + [Claiming(reply.job, runner, reply.attempt, token, reply.until)], now))
    ensures Persists(w.db.jobs, u.jobs)
  {
    QuietLog(w.db.jobs, m.jobs, w.log);
    ClaimLog(m, u, w.log, reply, runner, token, now);
    SetPersists(w.db.jobs, m.jobs, reply.job, Claimed(m, reply.job, runner, token, now));
  }

  lemma ClaimDispatched(t: Tables, env: Env, runner: nat, token: nat, o: Outcome) returns (m: Tables)
    requires Inv(t, env.now) && IsScan(env.scan, |t.jobs|)
    requires o == ClaimRoute(t, env, runner, token) && o.reply.Dispatched?
    ensures Inv(o.db, env.now) && QuietStep(t, m, env.now) && ClaimedRow(m, o.db, o.reply, runner, token, env.now)
  {
    ClaimOk(t, env, runner, token);
    m :| QuietStep(t, m, env.now) && ClaimedRow(m, o.db, o.reply, runner, token, env.now);
  }

  lemma ClaimStep(w: World, s: Step)
    requires WorldOk(w) && Possible(w, s) && s.op.Claim?
    ensures WorldOk(Next(w, s)) && Persists(w.db.jobs, Next(w, s).db.jobs)
  {
    LaterClock(w.db, w.clock, s.env.now);
    var o := ClaimRoute(w.db, s.env, s.op.claimant, s.op.token);
    if o.reply.Dispatched? {
      var m := ClaimDispatched(w.db, s.env, s.op.claimant, s.op.token, o);
      ClaimWorld(w, m, o.db, o.reply, s.op.claimant, s.op.token, s.env.now);
    } else {
      ClaimOk(w.db, s.env, s.op.claimant, s.op.token);
      QuietWorld(w, o.db, s.env.now);
    }
  }

  lemma FinishWorld(w: World, m: Tables, u: Tables, op: Op, now: int)
    requires LogOk(w.db.jobs, w.log) && (op.Complete? || op.Fail?) && Inv(u, now)
    requires QuietStep(w.db, m, now) && FinishedRow(m, u, ProofOf(op), op, now)
    ensures WorldOk(World(u, w.log + [FinishOf(op, now)], now))
    ensures Persists(w.db.jobs, u.jobs)
  {
    var p := ProofOf(op);
    QuietLog(w.db.jobs, m.jobs, w.log);
    FinishLog(m, u, w.log, p, op, now);
    SetPersists(w.db.jobs, m.jobs, p.job, u.jobs[p.job]);
  }

  lemma RejectedReport(t: Tables, env: Env, op: Op)
    requires IsScan(env.scan, |t.jobs|) && (op.Complete? || op.Fail?) && !Apply(t, env, op).reply.Accepted?
    ensures Apply(t, env, op).db == t
  {
  }

  lemma AcceptedReport(t: Tables, env: Env, op: Op, u: Tables) returns (m: Tables)
    requires Inv(t, env.now) && IsScan(env.scan, |t.jobs|) && (op.Complete? || op.Fail?)
    requires Apply(t, env, op) == Outcome(u, Accepted)
    ensures Inv(u, env.now) && QuietStep(t, m, env.now) && FinishedRow(m, u, ProofOf(op), op, env.now)
  {
    if op.Complete? { CompleteOk(t, env, op); } else { FailOk(t, env, op); }
    m :| QuietStep(t, m, env.now) && FinishedRow(m, u, ProofOf(op), op, env.now);
  }

  lemma RejectedWorld(w: World, s: Step, reply: Reply)
    requires WorldOk(w) && Possible(w, s) && (s.op.Complete? || s.op.Fail?) && !reply.Accepted?
    ensures WorldOk(World(w.db, w.log + Happened(s, reply), s.env.now)) && Persists(w.db.jobs, w.db.jobs)
  {
    LaterClock(w.db, w.clock, s.env.now);
    assert w.log + Happened(s, reply) == w.log;
  }

  lemma AcceptedWorld(w: World, s: Step, m: Tables, u: Tables)
    requires WorldOk(w) && (s.op.Complete? || s.op.Fail?) && Inv(u, s.env.now)
    requires QuietStep(w.db, m, s.env.now) && FinishedRow(m, u, ProofOf(s.op), s.op, s.env.now)
    ensures WorldOk(World(u, w.log + Happened(s, Accepted), s.env.now)) && Persists(w.db.jobs, u.jobs)
  {
    AcceptedHappened(s);
    FinishWorld(w, m, u, s.op, s.env.now);
  }

  lemma AcceptedHappened(s: Step)
    requires s.op.Complete? || s.op.Fail?
    ensures Happened(s, Accepted) == [FinishOf(s.op, s.env.now)]
  {
  }

  lemma ReportStep(w: World, s: Step)
    requires WorldOk(w) && Possible(w, s) && (s.op.Complete? || s.op.Fail?)
    ensures WorldOk(Next(w, s)) && Persists(w.db.jobs, Next(w, s).db.jobs)
  {
    LaterClock(w.db, w.clock, s.env.now);
    var o := Apply(w.db, s.env, s.op);
    if o.reply.Accepted? {
      var m := AcceptedReport(w.db, s.env, s.op, o.db);
      AcceptedWorld(w, s, m, o.db);
    } else {
      RejectedReport(w.db, s.env, s.op);
      RejectedWorld(w, s, o.reply);
    }
  }

  lemma StepOk(w: World, s: Step)
    requires WorldOk(w) && Possible(w, s)
    ensures WorldOk(Next(w, s)) && Persists(w.db.jobs, Next(w, s).db.jobs)
  {
    if s.op.Claim? {
      ClaimStep(w, s);
    } else if s.op.Complete? || s.op.Fail? {
      ReportStep(w, s);
    } else {
      LaterClock(w.db, w.clock, s.env.now);
      QuietOp(w.db, s.env, s.op);
      QuietWorld(w, Apply(w.db, s.env, s.op).db, s.env.now);
    }
  }

  /** Every run keeps the invariant, and never rewrites a request or revives a terminal job. */
  lemma {:induction false} RunOk(w: World, steps: seq<Step>)
    requires WorldOk(w) && Legal(w, steps)
    ensures WorldOk(Run(w, steps)) && Persists(w.db.jobs, Run(w, steps).db.jobs)
    decreases |steps|
  {
    if |steps| > 0 {
      var n := Next(w, steps[0]);
      StepOk(w, steps[0]);
      RunOk(n, steps[1..]);
      forall i | 0 <= i < |w.db.jobs| ensures SameRequest(w.db.jobs[i], Run(w, steps).db.jobs[i]) {
        assert SameRequest(w.db.jobs[i], n.db.jobs[i]);
      }
    }
  }

  // ---------------------------------------------------------------- the promises, from the empty broker

  /**
    The job machine.  After any run: a result is stored exactly for succeeded jobs and a lease exactly
    for running ones, attempts stay within the budget, and every active or succeeded job is bound to a
    live grant of its own app, at the recorded generation and with the leases inside both expiries.
  */
  lemma JobMachine(steps: seq<Step>, j: nat)
    requires Legal(START, steps) && j < |Run(START, steps).db.jobs|
    ensures var t := Run(START, steps).db;
            var job := t.jobs[j];
            && (job.result.Some? <==> job.state.Succeeded?)
            && (job.lease.Some? <==> job.state.Running?)
            && (job.state.Queued? ==> job.attempt < MAX_ATTEMPTS)
            && (job.state.Running? ==> 1 <= job.attempt <= MAX_ATTEMPTS)
            && (Active(job.state) || job.state.Succeeded? ==> BoundOk(t, job))
  {
    RunOk(START, steps);
    assert JobOk(Run(START, steps).db, Run(START, steps).db.jobs[j]);
  }

  /** One pending job per app, spaced requests, and one job per idempotency key, after any run. */
  lemma ExclusiveAndPaced(steps: seq<Step>)
    requires Legal(START, steps)
    ensures var jobs := Run(START, steps).db.jobs; Exclusive(jobs) && Paced(jobs)
  {
    RunKeepsApart(START, steps);
  }

  lemma RunKeepsApart(w: World, steps: seq<Step>)
    requires WorldOk(w) && Legal(w, steps)
    ensures Exclusive(Run(w, steps).db.jobs) && Paced(Run(w, steps).db.jobs)
  {
    RunOk(w, steps);
  }

  lemma {:induction false} RunSplits(w: World, before: seq<Step>, after: seq<Step>)
    requires Legal(w, before + after)
    ensures Legal(w, before) && Legal(Run(w, before), after)
    ensures Run(Run(w, before), after) == Run(w, before + after)
    decreases |before|
  {
    if |before| == 0 {
      assert before + after == after;
    } else {
      assert (before + after)[1..] == before[1..] + after;
      RunSplits(Next(w, before[0]), before[1..], after);
    }
  }

  /** A terminal job stays terminal and an idempotency key stays with its job, however the run goes on. */
  lemma TerminalForever(before: seq<Step>, after: seq<Step>)
    requires Legal(START, before + after)
    ensures Legal(START, before) && Persists(Run(START, before).db.jobs, Run(START, before + after).db.jobs)
  {
    RunSplits(START, before, after);
    RunOk(START, before);
    RunOk(Run(START, before), after);
  }

  /**
    Attempt fencing.  In the record of any run, each job is finished at most once; the finish comes from
    the runner, attempt and token of the job's latest claim, before the deadline that claim set; and no
    claim follows it.
  */
  lemma AttemptFencing(steps: seq<Step>, l: nat)
    requires Legal(START, steps) && l < |Run(START, steps).log| && Run(START, steps).log[l].Finish?
    ensures Answers(Run(START, steps).log, l)
    ensures forall k :: 0 <= k < |Run(START, steps).log| && k != l && Run(START, steps).log[k].Finish? ==>
              Run(START, steps).log[k].job != Run(START, steps).log[l].job
  {
    RunOk(START, steps);
  }

  /** A stored result is one that an accepted report delivered for that very job. */
  lemma ResultsWereDelivered(steps: seq<Step>, j: nat)
    requires Legal(START, steps) && j < |Run(START, steps).db.jobs| && Run(START, steps).db.jobs[j].state.Succeeded?
    ensures Run(START, steps).db.jobs[j].result.Some?
    ensures exists l :: 0 <= l < |Run(START, steps).log| &&
              Delivers(Run(START, steps).log[l], j, Run(START, steps).db.jobs[j].result.value.value)
  {
    RunOk(START, steps);
    assert ResultOnRecord(Run(START, steps).log, j, Run(START, steps).db.jobs[j]);
  }
}
