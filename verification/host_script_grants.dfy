/** Grants of scripts over whole runs: one a caller and script, and only for what is published. */
module HostScriptGrants {
  import opened Wrappers
  import opened HostScripts
  import opened HostScriptProofs

  ghost predicate OneGrant(grants: seq<Grant>) {
    forall i, k :: 0 <= i < k < |grants| && grants[i].task == grants[k].task && grants[i].app == grants[k].app ==>
      grants[i].revoked || grants[k].revoked
  }

  /** The grant is revoked, or names the version of its script that is published. */
  ghost predicate NamesPublished(tasks: seq<Task>, g: Grant) {
    g.revoked || (g.task < |tasks| && tasks[g.task].digest == g.digest)
  }

  ghost predicate GrantsOk(t: Tables) {
    OneGrant(t.grants) && forall i :: 0 <= i < |t.grants| ==> NamesPublished(t.tasks, t.grants[i])
  }

  // ---------------------------------------------------------------- one step

  /** Grants are at most revoked, and a script is only published anew when its grants are. */
  ghost predicate Narrows(t: Tables, u: Tables) {
    && |u.grants| == |t.grants| && |t.tasks| <= |u.tasks|
    && (forall i :: 0 <= i < |t.grants| ==> NarrowsGrant(t, u, i))
  }

  ghost predicate NarrowsGrant(t: Tables, u: Tables, i: nat)
    requires i < |t.grants| == |u.grants| && |t.tasks| <= |u.tasks|
  {
    var g, h := t.grants[i], u.grants[i];
    && (h == g || h == g.(revoked := true))
    && (!h.revoked && g.task < |t.tasks| ==> u.tasks[g.task].digest == t.tasks[g.task].digest)
  }

  lemma NarrowsOk(t: Tables, u: Tables)
    requires GrantsOk(t) && Narrows(t, u)
    ensures GrantsOk(u)
  {
    forall i | 0 <= i < |u.grants| ensures NamesPublished(u.tasks, u.grants[i]) {
      assert NarrowsGrant(t, u, i) && NamesPublished(t.tasks, t.grants[i]);
    }
    forall i, k | 0 <= i < k < |u.grants| && u.grants[i].task == u.grants[k].task && u.grants[i].app == u.grants[k].app
      ensures u.grants[i].revoked || u.grants[k].revoked
    {
      assert NarrowsGrant(t, u, i) && NarrowsGrant(t, u, k);
    }
  }

  lemma PublishNarrows(t: Tables, env: Env, task: nat, version: nat, expected: Digest)
    ensures Narrows(t, PublishRoute(t, env, task, version, expected).db)
  {
  }

  lemma SaveNarrows(t: Tables, env: Env, task: nat, d: Definition, expectedLatest: Option<nat>)
    ensures Narrows(t, SaveRoute(t, env, task, d, expectedLatest).db)
  {
    SaveShape(t, env, task, d, expectedLatest);
  }

  lemma RequestNarrows(t: Tables, env: Env, caller: Option<nat>, task: nat, digest: Digest, pinned: Option<nat>,
                       parameters: string, key: string)
    ensures Narrows(t, RequestRoute(t, env, caller, task, digest, pinned, parameters, key).db)
  {
    AdmitShape(Clean(t, env), env, caller, task, digest, pinned, parameters, key);
  }

  /** A new grant replaces whatever its caller had for the script. */
  lemma AddGrantOk(t: Tables, env: Env, g: Grant)
    requires GrantsOk(t)
    ensures GrantsOk(AddGrantRoute(t, env, g).db)
  {
    var c := Clean(t, env);
    var d := Clean(c.(grants := RevokeGrantsWhere(c.grants, OfTaskAndApp(g.task, g.app))), env);
    AddGrantShape(t, env, g, d);
    assert Narrows(t, d);
    NarrowsOk(t, d);
    if AddGrantRoute(t, env, g).error.None? { ReplacedOk(d, g.(revoked := false)); }
  }

  lemma ReplacedOk(d: Tables, g: Grant)
    requires GrantsOk(d) && NamesPublished(d.tasks, g)
    requires forall i :: 0 <= i < |d.grants| && d.grants[i].task == g.task && d.grants[i].app == g.app ==>
               d.grants[i].revoked
    ensures GrantsOk(d.(grants := d.grants + [g]))
  {
    forall i | 0 <= i < |d.grants| + 1 ensures NamesPublished(d.tasks, (d.grants + [g])[i]) {
      if i < |d.grants| { assert NamesPublished(d.tasks, d.grants[i]); }
    }
  }

  lemma OtherNarrows(t: Tables, env: Env, op: Op)
    requires !op.Save? && !op.Publish? && !op.AddGrant? && !op.Request?
    ensures Narrows(t, Apply(t, env, op).db)
  {
  }

  lemma StepGrantsOk(t: Tables, env: Env, op: Op)
    requires GrantsOk(t)
    ensures GrantsOk(Apply(t, env, op).db)
  {
    if op.AddGrant? {
      AddGrantOk(t, env, op.grant);
    } else {
      if op.Publish? { PublishNarrows(t, env, op.chosen, op.version, op.expectedDigest); }
      else if op.Save? { SaveNarrows(t, env, op.task, op.draft, op.expectedLatest); }
      else if op.Request? {
        RequestNarrows(t, env, op.caller, op.wanted, op.digest, op.pinned, op.parameters, op.key);
      }
      else { OtherNarrows(t, env, op); }
      NarrowsOk(t, Apply(t, env, op).db);
    }
  }

  // ---------------------------------------------------------------- every run

  lemma {:induction false} RunGrantsOk(t: Tables, steps: seq<Step>)
    requires GrantsOk(t)
    ensures GrantsOk(Run(t, steps))
    decreases |steps|
  {
    if |steps| > 0 {
      StepGrantsOk(t, steps[0].env, steps[0].op);
      RunGrantsOk(Apply(t, steps[0].env, steps[0].op).db, steps[1..]);
    }
  }

  /** After any run a caller has at most one unrevoked grant of a script, and it names the published version. */
  lemma OnePublishedGrant(steps: seq<Step>)
    ensures GrantsOk(Run(START, steps))
  {
    RunGrantsOk(START, steps);
  }

  ghost predicate Unrevoked(g: Grant, task: nat, app: nat) { g.task == task && g.app == app && !g.revoked }

  /**
    A grant is added exactly if its version is published, its caller is there and it lasts at most a day, and is
    then the only unrevoked one of its caller for the script.
  */
  lemma NewGrantIsTheOnlyOne(t: Tables, env: Env, g: Grant)
    ensures var o := AddGrantRoute(t, env, g);
            && (o.error.None? <==>
                  TaskLive(t, g.task) && t.tasks[g.task].digest == g.digest && g.app in env.apps
                  && env.now < g.expiresAt <= env.now + GRANT_MS)
            && (o.error.None? ==>
                  && |o.db.grants| == |t.grants| + 1 && o.db.grants[|t.grants|] == g.(revoked := false)
                  && forall i :: 0 <= i < |o.db.grants| && Unrevoked(o.db.grants[i], g.task, g.app) ==> i == |t.grants|)
  {
  }
}
