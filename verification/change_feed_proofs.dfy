/** No commit is ever hidden: what a client replays, reloading when told to, is the exact state of the store. */
module ChangeFeedProofs {
  import opened Wrappers
  import opened DocumentStore
  import opened ChangeFeed

  /** What a client tracks of a document. */
  datatype Seen = Seen(version: nat, deleted: bool)

  type Mirror = map<nat, Seen>

  ghost function StoreMirror(s: Store): Mirror {
    map id | 0 <= id < |s.docs| :: Seen(s.docs[id].version, s.docs[id].deleted)
  }

  ghost function Replay(m: Mirror, changes: seq<Change>): Mirror {
    if |changes| == 0 then m
    else
      var c := changes[|changes| - 1];
      Replay(m, changes[..|changes| - 1])[c.id := Seen(c.version, c.deleted)]
  }

  lemma {:induction false} ReplayConcat(m: Mirror, a: seq<Change>, b: seq<Change>)
    ensures Replay(m, a + b) == Replay(Replay(m, a), b)
  {
    if |b| == 0 {
      assert a + b == a;
    } else {
      assert (a + b)[..|a + b| - 1] == a + b[..|b| - 1];
      ReplayConcat(m, a, b[..|b| - 1]);
    }
  }

  /** The changes carry the versions from `before` to `after`, one each. */
  ghost predicate Consecutive(before: nat, changes: seq<Change>, after: nat) {
    && after == before + |changes|
    && forall i :: 0 <= i < |changes| ==> changes[i].version == before + 1 + i
  }

  /** The changes lead from one store to the other. */
  ghost predicate Leads(s: Store, changes: seq<Change>, t: Store) {
    Consecutive(s.version, changes, t.version) && StoreMirror(t) == Replay(StoreMirror(s), changes)
  }

  lemma LeadsCompose(s: Store, a: seq<Change>, t: Store, b: seq<Change>, u: Store)
    requires Leads(s, a, t) && Leads(t, b, u)
    ensures Leads(s, a + b, u)
  {
    ReplayConcat(StoreMirror(s), a, b);
  }

  // ---------------------------------------------------------------- the store announces every commit

  lemma WriteLeads(s: Store, id: nat, d: Doc)
    requires id < |s.docs|
    ensures Leads(s, [Announce(Write(s, id, d), id)], Write(s, id, d))
  {
    var c := Announce(Write(s, id, d), id);
    assert [c][..0] == [];
    assert StoreMirror(Write(s, id, d)) == StoreMirror(s)[id := Seen(c.version, c.deleted)];
  }

  lemma InsertLeads(s: Store, kind: Kind, spec: Spec, labels: string, status: string)
    ensures Leads(s, Insert(s, kind, spec, labels, status).changes, Insert(s, kind, spec, labels, status).store)
  {
    var o := Insert(s, kind, spec, labels, status);
    assert o.changes[..0] == [];
    assert StoreMirror(o.store) == StoreMirror(s)[|s.docs| := Seen(s.version + 1, false)];
  }

  lemma UpdateLeads(s: Store, u: Update, ok: bool, now: nat)
    ensures Leads(s, UpdateDocument(s, u, ok, now).changes, UpdateDocument(s, u, ok, now).store)
  {
    var o := UpdateDocument(s, u, ok, now);
    if o.error.None? { WriteLeads(s, u.id, Rewritten(s.docs[u.id], UpdateCheck(s, u, now).value, u)); }
  }

  lemma {:induction false} BatchLeads(base: Store, s: Store, updates: seq<Update>, i: nat, changes: seq<Change>,
                                      now: nat)
    requires i <= |updates| && Leads(base, changes, s)
    ensures var o := BatchFrom(s, updates, i, changes, now);
            o.error.None? ==> Leads(base, o.changes, o.store)
    decreases |updates| - i
  {
    if i < |updates| {
      var o := UpdateDocument(s, updates[i], true, now);
      UpdateLeads(s, updates[i], true, now);
      LeadsCompose(base, changes, s, o.changes, o.store);
      if o.error.None? { BatchLeads(base, o.store, updates, i + 1, changes + o.changes, now); }
    }
  }

  /** Every call announces exactly the versions it consumed, and a refused call consumes none. */
  lemma ApplyLeads(s: Store, op: Op, now: nat)
    ensures var o := Apply(s, op, now);
            Leads(s, o.changes, o.store) && (o.error.Some? ==> o.store == s && o.changes == [])
  {
    var o := Apply(s, op, now);
    match op
    case Create(kind, spec, labels, status) =>
      if o.store != s { InsertLeads(s, kind, Checked(s, kind, spec, None, now, false).value, labels, status); }
    case UpdateOne(u, ok) => UpdateLeads(s, u, ok, now);
    case UpdateBatch(updates) => BatchLeads(s, s, updates, 0, [], now);
    case Delete(id, _) => if o.error.None? { WriteLeads(s, id, s.docs[id].(deleted := true)); }
    case Restore(id) => if o.error.None? { RestoreLeads(s, id, now); }
  }

  lemma RestoreLeads(s: Store, id: nat, now: nat)
    requires RestoreDocument(s, id, now).error.None?
    ensures Leads(s, RestoreDocument(s, id, now).changes, RestoreDocument(s, id, now).store)
  {
    var doc := s.docs[id];
    var checked := if doc.kind.Agent? || doc.kind.AgentMessage?
                   then Checked(s, doc.kind, doc.spec, Some(id), now, true) else Ok(doc.spec);
    WriteLeads(s, id, doc.(deleted := false, spec := checked.value));
  }

  // ---------------------------------------------------------------- the feed

  /** The feed opened on `base` has heard `log` and holds its newest entries. */
  ghost predicate FeedOk(base: nat, log: seq<Change>, f: Feed) {
    && Consecutive(base, log, f.version)
    && |f.history| == Min(|log|, HISTORY_LIMIT)
    && f.history == log[|log| - |f.history|..]
  }

  lemma HeardOk(base: nat, log: seq<Change>, f: Feed, changes: seq<Change>)
    requires FeedOk(base, log, f) && |changes| > 0 && Consecutive(f.version, changes, f.version + |changes|)
    ensures FeedOk(base, log + changes, Heard(f, changes))
  {
    var all := log + changes;
    var h := f.history + changes;
    assert h == all[|all| - |h|..];
    assert Heard(f, changes).history == all[|all| - Min(|all|, HISTORY_LIMIT)..];
  }

  lemma {:induction false} AfterConsecutive(h: seq<Change>, before: nat, since: nat)
    requires Consecutive(before, h, before + |h|) && before <= since <= before + |h|
    ensures After(h, since) == h[since - before..]
  {
    if |h| > 0 {
      var front := h[..|h| - 1];
      if since < before + |h| {
        AfterConsecutive(front, before, since);
        assert h[since - before..] == front[since - before..] + [h[|h| - 1]];
      } else {
        AfterNothing(h, since);
      }
    }
  }

  lemma {:induction false} AfterNothing(h: seq<Change>, since: nat)
    requires forall i :: 0 <= i < |h| ==> h[i].version <= since
    ensures After(h, since) == []
  {
    if |h| > 0 { AfterNothing(h[..|h| - 1], since); }
  }

  /**
    A reply that is not a reset lists every commit after `since`, in order, and nothing else; and the
    feed resets exactly when it cannot: no version given, one from the future, or a commit since then
    that it no longer holds.
  */
  lemma SnapshotHidesNothing(base: nat, log: seq<Change>, f: Feed, since: Option<nat>)
    requires FeedOk(base, log, f)
    ensures var r := Snapshot(f, since);
            && r.version == f.version == base + |log|
            && (r.reset <==> since.None? || since.value > f.version || since.value < f.version - |f.history|)
            && (!r.reset ==> base <= since.value && r.changes == log[since.value - base..])
  {
    if since.Some? && f.version - |f.history| <= since.value <= f.version {
      AfterConsecutive(f.history, f.version - |f.history|, since.value);
    }
  }

  // ---------------------------------------------------------------- store, feed and client together

  /** `reloading` is set when a reset was delivered and the reload it asks for has not been done yet. */
  datatype Client = Client(known: Option<nat>, mirror: Mirror, reloading: bool)

  datatype System = System(base: Store, store: Store, log: seq<Change>, feed: Feed, client: Client)

  datatype Event = Commit(op: Op, now: nat) | Poll | Reload

  ghost function Opened(s: Store): System {
    System(s, s, [], Feed(s.version, []), Client(None, map[], true))
  }

  ghost function Answered(w: System, r: Reply): System {
    w.(client := Client(Some(r.version), if r.reset then w.client.mirror else Replay(w.client.mirror, r.changes),
                        w.client.reloading || r.reset))
  }

  ghost function Next(w: System, e: Event): System {
    match e
    case Commit(op, now) =>
      var o := Apply(w.store, op, now);
      w.(store := o.store, log := w.log + o.changes,
         feed := if |o.changes| > 0 then Heard(w.feed, o.changes) else w.feed)
    case Poll =>
      Answered(w, Snapshot(w.feed, w.client.known))
    case Reload =>
      if w.client.reloading then w.(client := w.client.(mirror := StoreMirror(w.store), reloading := false)) else w
  }

  ghost function Run(w: System, events: seq<Event>): System
    decreases |events|
  {
    if |events| == 0 then w else Run(Next(w, events[0]), events[1..])
  }

  /** The mirror is the state after the first `m` commits, and the client has asked for no later ones. */
  ghost predicate MirrorAt(w: System, m: nat) {
    && m <= |w.log| && w.client.known.Some?
    && w.base.version <= w.client.known.value <= w.base.version + m
    && w.client.mirror == Replay(StoreMirror(w.base), w.log[..m])
  }

  ghost predicate SystemOk(w: System) {
    && FeedOk(w.base.version, w.log, w.feed) && Leads(w.base, w.log, w.store)
    && (w.client.known.Some? ==> w.base.version <= w.client.known.value <= w.store.version)
    && (w.client.known.None? ==> w.client.reloading)
    && (!w.client.reloading ==> exists m: nat :: MirrorAt(w, m))
  }

  lemma FeedCommitOk(w: System, o: Outcome)
    requires FeedOk(w.base.version, w.log, w.feed) && Leads(w.base, w.log, w.store)
             && Leads(w.store, o.changes, o.store)
    ensures Leads(w.base, w.log + o.changes, o.store)
    ensures FeedOk(w.base.version, w.log + o.changes, if |o.changes| > 0 then Heard(w.feed, o.changes) else w.feed)
  {
    LeadsCompose(w.base, w.log, w.store, o.changes, o.store);
    if |o.changes| > 0 {
      HeardOk(w.base.version, w.log, w.feed, o.changes);
    } else {
      assert w.log + o.changes == w.log;
    }
  }

  lemma MirrorKept(w: System, n: System, m: nat)
    requires MirrorAt(w, m) && n.client == w.client && n.base == w.base && |w.log| <= |n.log|
    requires n.log[..|w.log|] == w.log
    ensures MirrorAt(n, m)
  {
    assert n.log[..m] == w.log[..m];
  }

  lemma CommitOk(w: System, op: Op, now: nat)
    requires SystemOk(w)
    ensures SystemOk(Next(w, Commit(op, now)))
  {
    var o := Apply(w.store, op, now);
    var n := w.(store := o.store, log := w.log + o.changes,
                feed := if |o.changes| > 0 then Heard(w.feed, o.changes) else w.feed);
    assert n == Next(w, Commit(op, now));
    ApplyLeads(w.store, op, now);
    FeedCommitOk(w, o);
    if !w.client.reloading {
      var m: nat :| MirrorAt(w, m);
      MirrorKept(w, n, m);
    }
  }

  /** The last of the changes that touches a document. */
  ghost predicate Touches(changes: seq<Change>, id: nat) {
    exists i :: 0 <= i < |changes| && changes[i].id == id
  }

  /** Replaying from two mirrors gives the same where the changes reach. */
  lemma {:induction false} ReplayForgets(a: Mirror, b: Mirror, changes: seq<Change>, id: nat)
    ensures Touches(changes, id) ==>
              id in Replay(a, changes) && id in Replay(b, changes) && Replay(a, changes)[id] == Replay(b, changes)[id]
    ensures !Touches(changes, id) ==>
              (id in Replay(a, changes) <==> id in a) && (id in a ==> Replay(a, changes)[id] == a[id])
  {
    if |changes| > 0 {
      var front := changes[..|changes| - 1];
      ReplayForgets(a, b, front, id);
      assert Touches(changes, id) <==> Touches(front, id) || changes[|changes| - 1].id == id by {
        assert forall i :: 0 <= i < |front| ==> front[i] == changes[i];
      }
    }
  }

  lemma {:induction false} ReplayKeys(m: Mirror, changes: seq<Change>, id: nat)
    ensures id in Replay(m, changes) <==> id in m || Touches(changes, id)
  {
    if |changes| > 0 {
      var front := changes[..|changes| - 1];
      ReplayKeys(m, front, id);
      assert Touches(changes, id) <==> Touches(front, id) || changes[|changes| - 1].id == id by {
        assert forall i :: 0 <= i < |front| ==> front[i] == changes[i];
      }
    }
  }

  /** Replaying what is already in again, and then the rest, is replaying it all once. */
  lemma OverlapHarmless(m: Mirror, seen: seq<Change>, again: seq<Change>, rest: seq<Change>)
    ensures Replay(Replay(m, seen + again), again + rest) == Replay(m, seen + again + rest)
  {
    var a := Replay(Replay(m, seen + again), again);
    var b := Replay(m, seen + again);
    ReplayConcat(m, seen, again);
    forall id ensures (id in a <==> id in b) && (id in a ==> a[id] == b[id]) {
      ReplayForgets(b, Replay(m, seen), again, id);
      ReplayKeys(b, again, id);
      ReplayKeys(Replay(m, seen), again, id);
    }
    assert a == b;
    ReplayConcat(b, again, rest);
    ReplayConcat(m, seen + again, rest);
  }

  /** A mirror of the first m commits, given every commit from an earlier k on, mirrors them all. */
  lemma CatchUp(base: Mirror, log: seq<Change>, k: nat, m: nat)
    requires k <= m <= |log|
    ensures Replay(Replay(base, log[..m]), log[k..]) == Replay(base, log)
  {
    var seen, again, rest := log[..k], log[k..m], log[m..];
    assert seen + again == log[..m];
    assert again + rest == log[k..];
    assert seen + again + rest == log;
    OverlapHarmless(base, seen, again, rest);
  }

  lemma ReplayedExactly(w: System, changes: seq<Change>)
    requires SystemOk(w) && !w.client.reloading && w.client.known.Some?
    requires w.client.known.value - w.base.version <= |w.log|
    requires changes == w.log[w.client.known.value - w.base.version..]
    ensures Replay(w.client.mirror, changes) == StoreMirror(w.store) == Replay(StoreMirror(w.base), w.log[..|w.log|])
  {
    var m: nat :| MirrorAt(w, m);
    CatchUp(StoreMirror(w.base), w.log, w.client.known.value - w.base.version, m);
    assert w.log[..|w.log|] == w.log;
  }

  lemma PollOk(w: System)
    requires SystemOk(w)
    ensures var n := Next(w, Poll);
            SystemOk(n) && n.client.known == Some(n.store.version)
            && (!n.client.reloading ==> n.client.mirror == StoreMirror(n.store))
  {
    var r := Snapshot(w.feed, w.client.known);
    SnapshotHidesNothing(w.base.version, w.log, w.feed, w.client.known);
    PollAnswered(w, r);
  }

  lemma PollAnswered(w: System, r: Reply)
    requires SystemOk(w) && r.version == w.store.version
    requires !r.reset ==>
               && w.client.known.Some? && w.base.version <= w.client.known.value <= r.version
               && r.changes == w.log[w.client.known.value - w.base.version..]
    ensures SystemOk(Answered(w, r))
    ensures !Answered(w, r).client.reloading ==> Answered(w, r).client.mirror == StoreMirror(w.store)
  {
    if !w.client.reloading && !r.reset {
      ReplayedExactly(w, r.changes);
      assert MirrorAt(Answered(w, r), |w.log|);
    }
  }

  lemma ReloadOk(w: System)
    requires SystemOk(w)
    ensures SystemOk(Next(w, Reload)) || w.client.known.None?
  {
    var n := Next(w, Reload);
    if w.client.reloading && w.client.known.Some? {
      assert n.log[..|n.log|] == n.log;
      assert MirrorAt(n, |n.log|);
    }
  }

  /** A client reloads only in answer to a reset it was sent. */
  ghost predicate Sensible(w: System, events: seq<Event>)
    decreases |events|
  {
    |events| == 0 || ((events[0].Reload? ==> w.client.known.Some?) && Sensible(Next(w, events[0]), events[1..]))
  }

  lemma {:induction false} RunOk(w: System, events: seq<Event>)
    requires SystemOk(w) && Sensible(w, events)
    ensures SystemOk(Run(w, events))
    decreases |events|
  {
    if |events| > 0 {
      match events[0] {
        case Commit(op, now) => CommitOk(w, op, now);
        case Poll => PollOk(w);
        case Reload => ReloadOk(w);
      }
      RunOk(Next(w, events[0]), events[1..]);
    }
  }

  lemma OpenedOk(s: Store)
    ensures SystemOk(Opened(s))
  {
    var w := Opened(s);
    assert Leads(s, w.log, s);
    assert FeedOk(s.version, w.log, w.feed);
  }

  /**
    Whatever commits, polls and reloads interleave, a client with no reload outstanding that is up to
    date with the feed mirrors exactly which documents the store holds, at which version, deleted or not.
  */
  lemma ClientMirrorsStore(s: Store, events: seq<Event>)
    requires Sensible(Opened(s), events)
    ensures var w := Run(Opened(s), events);
            && w.feed.version == w.store.version
            && (!w.client.reloading && w.client.known == Some(w.store.version) ==>
                  w.client.mirror == StoreMirror(w.store))
  {
    OpenedOk(s);
    RunOk(Opened(s), events);
    var w := Run(Opened(s), events);
    if !w.client.reloading && w.client.known == Some(w.store.version) {
      var m: nat :| MirrorAt(w, m);
      assert w.log[..m] == w.log;
    }
  }

  /** Any poll brings the client there, unless it is told to reload. */
  lemma PollCatchesUp(s: Store, events: seq<Event>)
    requires Sensible(Opened(s), events)
    ensures var w := Next(Run(Opened(s), events), Poll);
            w.client.known == Some(w.store.version) && (!w.client.reloading ==> w.client.mirror == StoreMirror(w.store))
  {
    OpenedOk(s);
    RunOk(Opened(s), events);
    PollOk(Run(Opened(s), events));
  }
}
