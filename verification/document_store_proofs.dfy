/** Every stored live message stays valid, so revalidating it, restoring it or reminding of it never trips. */
module DocumentStoreProofs {
  import opened Wrappers
  import opened DocumentStore

  // ---------------------------------------------------------------- the invariant

  ghost predicate FieldsOk(m: Message, clock: nat) {
    && Parses(m) && m.agentName.Some? && DistinctRefs(m)
    && (m.category.Reminder? ==> m.dueAt.Some? && !Blank(m.action) && (m.attention ==> Due(m, clock)))
    && (!m.category.Reminder? ==> m.dueAt.None?)
    && (m.attention ==> m.status.Open? && !m.category.Completion? && !Blank(m.action))
    && (m.decision.Some? ==> m.category.Approval? && m.decision.value.decidedAt.Some?)
  }

  ghost predicate SenderOk(s: Store, m: Message) {
    LiveKind(s, m.agentId, Agent)
  }

  ghost predicate KeyFree(s: Store, id: nat, m: Message) {
    m.dedupeKey.Some? && !m.status.Resolved? ==> !KeyTaken(s, m.dedupeKey.value, Some(id))
  }

  ghost predicate RefsOk(s: Store, id: nat, m: Message) {
    SenderOk(s, m) && TopicsLive(s, m) && RelationsLive(s, m, Some(id)) && KeyFree(s, id, m)
  }

  ghost predicate KindOk(d: Doc) {
    && (d.kind.AgentMessage? ==>
          d.spec.MessageSpec? && d.spec.message.agentName.Some? && !Blank(d.spec.message.agentName.value))
    && (d.kind.Agent? ==> d.spec.AgentSpec? && !Blank(d.spec.name))
  }

  ghost predicate DocOk(s: Store, id: nat, clock: nat)
    requires id < |s.docs|
  {
    var d := s.docs[id];
    && KindOk(d) && d.version <= s.version
    && (d.kind.AgentMessage? ==> SenderOk(s, d.spec.message))
    && (d.kind.AgentMessage? && !d.deleted ==> FieldsOk(d.spec.message, clock) && RefsOk(s, id, d.spec.message))
  }

  ghost predicate StoreOk(s: Store, clock: nat) {
    forall id :: 0 <= id < |s.docs| ==> DocOk(s, id, clock)
  }

  lemma LaterClock(s: Store, clock: nat, later: nat)
    requires StoreOk(s, clock) && clock <= later
    ensures StoreOk(s, later)
  {
    forall id | 0 <= id < |s.docs| ensures DocOk(s, id, later) { assert DocOk(s, id, clock); }
  }

  // ---------------------------------------------------------------- validation

  function Refreshed(m: Message, now: nat): Message {
    m.(attention := if m.category.Reminder? then Due(m, now) else m.attention)
  }

  /** Revalidating a stored live message succeeds and changes at most the attention of a reminder. */
  lemma Revalidates(s: Store, id: nat, now: nat, allowLegacy: bool)
    requires StoreOk(s, now) && Live(s, id) && IsMessage(s, id)
    ensures Validate(s, s.docs[id].spec.message, Some(id), now, allowLegacy)
            == Ok(Refreshed(s.docs[id].spec.message, now))
  {
    assert DocOk(s, id, now);
    var m := s.docs[id].spec.message;
    assert DocOk(s, m.agentId, now);
    assert Settled(m, m.agentName.value, Some(m), now) == Refreshed(m, now);
  }

  /** What validation lets through. */
  lemma ValidatedOk(s: Store, m: Message, self: Option<nat>, now: nat, allowLegacy: bool)
    requires StoreOk(s, now) && Validate(s, m, self, now, allowLegacy).Ok?
    ensures var v := Validate(s, m, self, now, allowLegacy).value;
            && FieldsOk(v, now) && SenderOk(s, v) && TopicsLive(s, v) && RelationsLive(s, v, self)
            && v.dedupeKey == m.dedupeKey && v.status == m.status
            && (self.Some? ==> KeyFree(s, self.value, v))
  {
    assert DocOk(s, m.agentId, now);
    if self.Some? && IsMessage(s, self.value) { assert DocOk(s, self.value, now); }
  }

  // ---------------------------------------------------------------- rewriting one row

  /** What a rewritten row must bring along. */
  ghost predicate Welcome(s: Store, id: nat, d: Doc, clock: nat)
    requires id < |s.docs|
  {
    && d.kind == s.docs[id].kind && KindOk(d)
    && (d.kind.AgentMessage? ==> SenderOk(s, d.spec.message))
    && (d.kind.AgentMessage? && !d.deleted ==> FieldsOk(d.spec.message, clock) && RefsOk(s, id, d.spec.message))
    && (d.deleted && !s.docs[id].deleted ==> !Referenced(s, id))
  }

  lemma OtherRefsKept(s: Store, id: nat, d: Doc, k: nat, clock: nat)
    requires StoreOk(s, clock) && id < |s.docs| && Welcome(s, id, d, clock)
    requires k != id && IsMessage(s, k)
    ensures SenderOk(Write(s, id, d), s.docs[k].spec.message)
    ensures !s.docs[k].deleted ==>
              TopicsLive(Write(s, id, d), s.docs[k].spec.message)
                && RelationsLive(Write(s, id, d), s.docs[k].spec.message, Some(k))
  {
    var m := s.docs[k].spec.message;
    assert DocOk(s, k, clock);
    if d.deleted && !s.docs[id].deleted { assert !Blocks(s, k, id); }
    if !s.docs[k].deleted {
      forall i | 0 <= i < |m.topics| ensures LiveKind(Write(s, id, d), m.topics[i], Topic) {
        assert LiveKind(s, m.topics[i], Topic);
      }
      forall i | 0 <= i < |m.relations|
        ensures LiveKind(Write(s, id, d), m.relations[i].id, Canonical(m.relations[i].kind))
      {
        assert LiveKind(s, m.relations[i].id, Canonical(m.relations[i].kind));
      }
    }
  }

  lemma OtherKeyKept(s: Store, id: nat, d: Doc, k: nat, clock: nat)
    requires StoreOk(s, clock) && id < |s.docs| && Welcome(s, id, d, clock)
    requires k != id && Live(s, k) && IsMessage(s, k)
    ensures KeyFree(Write(s, id, d), k, s.docs[k].spec.message)
  {
    var m := s.docs[k].spec.message;
    var t := Write(s, id, d);
    assert DocOk(s, k, clock);
    if m.dedupeKey.Some? && !m.status.Resolved? {
      forall j | 0 <= j < |t.docs| ensures !Holds(t, j, m.dedupeKey.value, Some(k)) {
        if j == id {
          if Holds(t, j, m.dedupeKey.value, Some(k)) { assert Holds(s, k, m.dedupeKey.value, Some(id)); }
        } else {
          assert !Holds(s, j, m.dedupeKey.value, Some(k));
        }
      }
    }
  }

  lemma OwnRefsKept(s: Store, id: nat, d: Doc, clock: nat)
    requires StoreOk(s, clock) && id < |s.docs| && Welcome(s, id, d, clock) && d.kind.AgentMessage?
    ensures SenderOk(Write(s, id, d), d.spec.message)
    ensures !d.deleted ==> RefsOk(Write(s, id, d), id, d.spec.message)
  {
    var t := Write(s, id, d);
    var m := d.spec.message;
    if !d.deleted {
      forall i | 0 <= i < |m.topics| ensures LiveKind(t, m.topics[i], Topic) { assert LiveKind(s, m.topics[i], Topic); }
      forall i | 0 <= i < |m.relations|
        ensures LiveKind(t, m.relations[i].id, Canonical(m.relations[i].kind)) && Some(m.relations[i].id) != Some(id)
      {
        assert LiveKind(s, m.relations[i].id, Canonical(m.relations[i].kind));
      }
      if m.dedupeKey.Some? && !m.status.Resolved? {
        forall j | 0 <= j < |t.docs| ensures !Holds(t, j, m.dedupeKey.value, Some(id)) {
          assert !Holds(s, j, m.dedupeKey.value, Some(id));
        }
      }
    }
  }

  lemma WriteOk(s: Store, id: nat, d: Doc, clock: nat)
    requires StoreOk(s, clock) && id < |s.docs| && Welcome(s, id, d, clock)
    ensures StoreOk(Write(s, id, d), clock)
  {
    var t := Write(s, id, d);
    forall k | 0 <= k < |t.docs| ensures DocOk(t, k, clock) {
      if k == id {
        if d.kind.AgentMessage? { OwnRefsKept(s, id, d, clock); }
      } else {
        assert DocOk(s, k, clock);
        if IsMessage(s, k) {
          OtherRefsKept(s, id, d, k, clock);
          if !s.docs[k].deleted { OtherKeyKept(s, id, d, k, clock); }
        }
      }
    }
  }

  lemma CheckedOk(s: Store, id: nat, spec: Spec, clock: nat, allowLegacy: bool)
    requires StoreOk(s, clock) && id < |s.docs|
    requires Checked(s, s.docs[id].kind, spec, Some(id), clock, allowLegacy).Ok?
    ensures var d := s.docs[id].(spec := Checked(s, s.docs[id].kind, spec, Some(id), clock, allowLegacy).value);
            forall labels, status :: Welcome(s, id, d.(labels := labels, status := status, deleted := false), clock)
  {
    assert DocOk(s, id, clock);
    if s.docs[id].kind.AgentMessage? { ValidatedOk(s, spec.message, Some(id), clock, allowLegacy); }
  }

  // ---------------------------------------------------------------- the calls

  lemma UpdateOk(s: Store, u: Update, preconditionsOk: bool, now: nat)
    requires StoreOk(s, now)
    ensures StoreOk(UpdateDocument(s, u, preconditionsOk, now).store, now)
  {
    var o := UpdateDocument(s, u, preconditionsOk, now);
    if o.error.None? {
      var spec := UpdateCheck(s, u, now).value;
      CheckedOk(s, u.id, u.spec, now, false);
      var d := Rewritten(s.docs[u.id], spec, u);
      assert d == s.docs[u.id].(spec := spec).(labels := d.labels, status := d.status, deleted := false);
      WriteOk(s, u.id, d, now);
    }
  }

  lemma {:induction false} BatchOk(s: Store, updates: seq<Update>, i: nat, changes: seq<Change>, now: nat)
    requires StoreOk(s, now) && i <= |updates|
    ensures BatchFrom(s, updates, i, changes, now).error.None? ==>
            StoreOk(BatchFrom(s, updates, i, changes, now).store, now)
    decreases |updates| - i
  {
    if i < |updates| {
      var o := UpdateDocument(s, updates[i], true, now);
      UpdateOk(s, updates[i], true, now);
      if o.error.None? { BatchOk(o.store, updates, i + 1, changes + o.changes, now); }
    }
  }

  lemma DeleteOk(s: Store, id: nat, expected: Option<nat>, now: nat)
    requires StoreOk(s, now)
    ensures StoreOk(DeleteDocument(s, id, expected, now).store, now)
  {
    if DeleteDocument(s, id, expected, now).error.None? {
      assert DocOk(s, id, now);
      WriteOk(s, id, s.docs[id].(deleted := true), now);
    }
  }

  lemma RestoreOk(s: Store, id: nat, now: nat)
    requires StoreOk(s, now)
    ensures StoreOk(RestoreDocument(s, id, now).store, now)
  {
    var o := RestoreDocument(s, id, now);
    if o.error.None? {
      assert DocOk(s, id, now);
      var d := s.docs[id];
      CheckedOk(s, id, d.spec, now, true);
      var spec := Checked(s, d.kind, d.spec, Some(id), now, true).value;
      var restored := d.(spec := spec).(labels := d.labels, status := d.status, deleted := false);
      WriteOk(s, id, restored, now);
    }
  }

  lemma CreateOk(s: Store, kind: Kind, spec: Spec, labels: string, status: string, now: nat)
    requires StoreOk(s, now)
    ensures StoreOk(CreateDocument(s, kind, spec, labels, status, now).store, now)
  {
    var o := CreateDocument(s, kind, spec, labels, status, now);
    if o.store != s {
      var checked := Checked(s, kind, spec, None, now, false).value;
      if kind.AgentMessage? { ValidatedOk(s, spec.message, None, now, false); }
      InsertOk(s, Doc(kind, checked, labels, status, false, s.version + 1), now);
    }
  }

  /** A new row refers to older rows only, and claims no key in use. */
  lemma InsertOk(s: Store, d: Doc, clock: nat)
    requires StoreOk(s, clock) && KindOk(d) && d.version == s.version + 1 && !d.deleted
    requires d.kind.AgentMessage? ==>
               && FieldsOk(d.spec.message, clock) && SenderOk(s, d.spec.message)
               && TopicsLive(s, d.spec.message) && RelationsLive(s, d.spec.message, None) && !KeyActive(s, d.spec)
    ensures StoreOk(Store(s.docs + [d], s.version + 1), clock)
  {
    var t := Store(s.docs + [d], s.version + 1);
    var n := |s.docs|;
    forall k | 0 <= k < |t.docs| ensures DocOk(t, k, clock) {
      if k < n {
        assert DocOk(s, k, clock);
        if IsMessage(s, k) && !s.docs[k].deleted {
          OldKeyKept(s, d, k, clock);
          OldRefsKept(s, d, s.docs[k].spec.message, Some(k));
        }
      } else if d.kind.AgentMessage? {
        var m := d.spec.message;
        OldRefsKept(s, d, m, Some(n));
        if m.dedupeKey.Some? && !m.status.Resolved? {
          forall j | 0 <= j < |t.docs| ensures !Holds(t, j, m.dedupeKey.value, Some(n)) {
            if j < n { assert !Holds(s, j, m.dedupeKey.value, None); }
          }
        }
      }
    }
  }

  lemma OldRefsKept(s: Store, d: Doc, m: Message, self: Option<nat>)
    requires TopicsLive(s, m) && SenderOk(s, m)
    requires RelationsLive(s, m, self) || (RelationsLive(s, m, None) && self == Some(|s.docs|))
    ensures var t := Store(s.docs + [d], s.version + 1); TopicsLive(t, m) && SenderOk(t, m) && RelationsLive(t, m, self)
  {
    var t := Store(s.docs + [d], s.version + 1);
    forall i | 0 <= i < |m.topics| ensures LiveKind(t, m.topics[i], Topic) { assert LiveKind(s, m.topics[i], Topic); }
    forall i | 0 <= i < |m.relations|
      ensures LiveKind(t, m.relations[i].id, Canonical(m.relations[i].kind)) && Some(m.relations[i].id) != self
    {
      assert LiveKind(s, m.relations[i].id, Canonical(m.relations[i].kind));
    }
  }

  lemma OldKeyKept(s: Store, d: Doc, k: nat, clock: nat)
    requires StoreOk(s, clock) && Live(s, k) && IsMessage(s, k)
    requires d.kind.AgentMessage? ==> d.spec.MessageSpec? && !KeyActive(s, d.spec)
    ensures KeyFree(Store(s.docs + [d], s.version + 1), k, s.docs[k].spec.message)
  {
    var t := Store(s.docs + [d], s.version + 1);
    var m := s.docs[k].spec.message;
    assert DocOk(s, k, clock);
    if m.dedupeKey.Some? && !m.status.Resolved? {
      forall j | 0 <= j < |t.docs| ensures !Holds(t, j, m.dedupeKey.value, Some(k)) {
        if j < |s.docs| {
          assert !Holds(s, j, m.dedupeKey.value, Some(k));
        } else if Holds(t, j, m.dedupeKey.value, Some(k)) {
          assert Holds(s, k, m.dedupeKey.value, None);
        }
      }
    }
  }

  /** Every call, accepted or refused, leaves every live message valid. */
  lemma ApplyOk(s: Store, op: Op, clock: nat, now: nat)
    requires StoreOk(s, clock) && clock <= now
    ensures StoreOk(Apply(s, op, now).store, now)
  {
    LaterClock(s, clock, now);
    match op
    case Create(kind, spec, labels, status) => CreateOk(s, kind, spec, labels, status, now);
    case UpdateOne(u, ok) => UpdateOk(s, u, ok, now);
    case UpdateBatch(updates) => BatchOk(s, updates, 0, [], now);
    case Delete(id, expected) => DeleteOk(s, id, expected, now);
    case Restore(id) => RestoreOk(s, id, now);
  }

  // ---------------------------------------------------------------- compare and swap

  /** A refused call changes and announces nothing, also when it was refused half way through a batch. */
  lemma RefusedChangesNothing(s: Store, op: Op, now: nat)
    requires Apply(s, op, now).error.Some?
    ensures Apply(s, op, now).store == s && Apply(s, op, now).changes == []
  {
    if op.UpdateBatch? && DistinctUpdates(op.updates) { }
  }

  /** What is authored of a message; sender name, reminder attention and decision time are the server's. */
  ghost predicate Authors(given: Message, stored: Message) {
    && stored.agentId == given.agentId && stored.text == given.text && stored.category == given.category
    && stored.dueAt == given.dueAt && stored.status == given.status && stored.action == given.action
    && stored.topics == given.topics && stored.relations == given.relations && stored.dedupeKey == given.dedupeKey
    && stored.legacySource == given.legacySource
    && (!given.category.Reminder? ==> stored.attention == given.attention)
    && (stored.decision.Some? <==> given.decision.Some?)
    && (given.decision.Some? ==> stored.decision.value.authored == given.decision.value.authored)
  }

  /** The row holds what the update gave: its content, and its labels and status where it gave any. */
  ghost predicate Rewrote(before: Doc, after: Doc, u: Update) {
    && after.kind == before.kind && after.deleted == before.deleted
    && after.labels == (if u.labels.Some? then u.labels.value else before.labels)
    && after.status == (if u.status.Some? then u.status.value else before.status)
    && if before.kind.AgentMessage?
       then u.spec.MessageSpec? && after.spec.MessageSpec? && Authors(u.spec.message, after.spec.message)
       else after.spec == u.spec
  }

  /**
    An update succeeds only on the live version it expects, stores what it gave, and takes the next global version on
    that document alone.
  */
  lemma UpdateSwaps(s: Store, u: Update, preconditionsOk: bool, now: nat)
    requires UpdateDocument(s, u, preconditionsOk, now).error.None?
    ensures var o := UpdateDocument(s, u, preconditionsOk, now);
            && Live(s, u.id) && s.docs[u.id].version == u.expected && preconditionsOk
            && o.store.version == s.version + 1 && |o.store.docs| == |s.docs|
            && o.store.docs[u.id].version == s.version + 1 && Live(o.store, u.id)
            && Rewrote(s.docs[u.id], o.store.docs[u.id], u)
            && (forall id :: 0 <= id < |s.docs| && id != u.id ==> o.store.docs[id] == s.docs[id])
            && o.changes == [Change(u.id, s.docs[u.id].kind, s.version + 1, false)]
  {
  }

  ghost predicate BatchStep(start: Store, s: Store, updates: seq<Update>, i: nat, changes: seq<Change>) {
    && i <= |updates| && |s.docs| == |start.docs| && s.version == start.version + i && |changes| == i
    && (forall k :: 0 <= k < i ==> BatchDid(start, s, updates[k], k, changes[k]))
    && (forall id :: 0 <= id < |s.docs| && (forall k :: 0 <= k < i ==> updates[k].id != id) ==>
          s.docs[id] == start.docs[id])
  }

  /** Update `k` met the version it expected, was stored, and took the version numbered by its place. */
  ghost predicate BatchDid(start: Store, s: Store, u: Update, k: nat, change: Change) {
    && Live(start, u.id) && start.docs[u.id].version == u.expected && u.id < |s.docs|
    && s.docs[u.id].version == start.version + k + 1 && Rewrote(start.docs[u.id], s.docs[u.id], u)
    && change == Change(u.id, start.docs[u.id].kind, start.version + k + 1, false)
  }

  lemma {:induction false} BatchSteps(start: Store, s: Store, updates: seq<Update>, i: nat, changes: seq<Change>,
                                      now: nat)
    requires DistinctUpdates(updates) && BatchStep(start, s, updates, i, changes)
    requires BatchFrom(s, updates, i, changes, now).error.None?
    ensures var o := BatchFrom(s, updates, i, changes, now); BatchStep(start, o.store, updates, |updates|, o.changes)
    decreases |updates| - i
  {
    if i < |updates| {
      var o := UpdateDocument(s, updates[i], true, now);
      UpdateSwaps(s, updates[i], true, now);
      BatchStepNext(start, s, o.store, updates, i, changes, o.changes[0]);
      BatchSteps(start, o.store, updates, i + 1, changes + o.changes, now);
    }
  }

  lemma BatchStepNext(start: Store, s: Store, t: Store, updates: seq<Update>, i: nat, changes: seq<Change>,
                      change: Change)
    requires DistinctUpdates(updates) && BatchStep(start, s, updates, i, changes) && i < |updates|
    requires var u := updates[i];
             && Live(s, u.id) && s.docs[u.id].version == u.expected && t.version == s.version + 1
             && |t.docs| == |s.docs|
             && t.docs[u.id].version == s.version + 1 && change == Change(u.id, s.docs[u.id].kind, s.version + 1, false)
             && Rewrote(s.docs[u.id], t.docs[u.id], u)
             && forall id :: 0 <= id < |s.docs| && id != u.id ==> t.docs[id] == s.docs[id]
    ensures BatchStep(start, t, updates, i + 1, changes + [change])
  {
    forall k | 0 <= k < i + 1 ensures BatchDid(start, t, updates[k], k, (changes + [change])[k]) {
      if k < i { assert BatchDid(start, s, updates[k], k, changes[k]); }
    }
  }

  /** An accepted batch applies every update to the version it expected, each at a version of its own, in order. */
  lemma BatchSwapsEach(s: Store, updates: seq<Update>, now: nat)
    requires UpdateDocuments(s, updates, now).error.None?
    ensures var o := UpdateDocuments(s, updates, now);
            DistinctUpdates(updates) && BatchStep(s, o.store, updates, |updates|, o.changes)
  {
    BatchSteps(s, s, updates, 0, [], now);
  }

  // ---------------------------------------------------------------- reminders

  /** An activated row differs from the original in attention and version only. */
  ghost predicate ActivatedTo(start: Store, s: Store, n: nat, now: nat) {
    && |s.docs| == |start.docs| && n <= |s.docs|
    && (forall id :: n <= id < |s.docs| ==> s.docs[id] == start.docs[id])
    && (forall id :: 0 <= id < n ==>
          s.docs[id].(version := 0)
          == (if Overdue(start, id, now)
              then start.docs[id].(spec := MessageSpec(Refreshed(start.docs[id].spec.message, now)))
              else start.docs[id]).(version := 0))
  }

  /** Rewriting a live message with its own spec succeeds and refreshes its attention. */
  lemma SelfUpdate(s: Store, id: nat, now: nat)
    requires StoreOk(s, now) && Live(s, id) && IsMessage(s, id)
    ensures var o := UpdateDocument(s, Update(id, s.docs[id].version, s.docs[id].spec, None, None), true, now);
            && o.error.None?
            && o.store == Write(s, id, s.docs[id].(spec := MessageSpec(Refreshed(s.docs[id].spec.message, now))))
  {
    Revalidates(s, id, now, false);
  }

  /** So far the sweep has not thrown and has activated what was overdue. */
  ghost predicate Activating(start: Store, o: Outcome, n: nat, now: nat)
    requires n <= |start.docs|
  {
    o.error.None? && StoreOk(o.store, now) && ActivatedTo(start, o.store, n, now)
  }

  lemma {:induction false} ActivateOk(start: Store, n: nat, now: nat)
    requires StoreOk(start, now) && n <= |start.docs|
    ensures Activating(start, Activate(start, n, now), n, now)
  {
    if n > 0 {
      ActivateOk(start, n - 1, now);
      ActivateNext(start, n - 1, now);
    } else {
      NoneActivated(start, now);
    }
  }

  lemma NoneActivated(start: Store, now: nat)
    requires StoreOk(start, now)
    ensures Activating(start, Outcome(start, [], None), 0, now)
  {
  }

  lemma ActivateNext(start: Store, n: nat, now: nat)
    requires n < |start.docs| && Activating(start, Activate(start, n, now), n, now)
    ensures Activating(start, Activate(start, n + 1, now), n + 1, now)
  {
    var s := Activate(start, n, now).store;
    if Overdue(start, n, now) {
      SelfUpdate(s, n, now);
      UpdateOk(s, Update(n, s.docs[n].version, s.docs[n].spec, None, None), true, now);
    }
  }

  /** The sweep of a valid store never throws, and leaves attention on exactly the open reminders that are due. */
  lemma SweepExact(s: Store, now: nat, id: nat)
    requires StoreOk(s, now) && id < |s.docs|
    ensures var o := Activate(s, |s.docs|, now);
            o.error.None? && |o.store.docs| == |s.docs| && AttentionIsDue(o.store, id, now)
  {
    ActivateOk(s, |s.docs|, now);
    var t := Activate(s, |s.docs|, now).store;
    assert DocOk(s, id, now);
    assert t.docs[id].spec == t.docs[id].(version := 0).spec && t.docs[id].deleted == t.docs[id].(version := 0).deleted;
    assert t.docs[id].kind == t.docs[id].(version := 0).kind;
  }

  ghost predicate AttentionIsDue(s: Store, id: nat, now: nat) {
    Live(s, id) && IsMessage(s, id) && s.docs[id].spec.message.category.Reminder? ==>
      (s.docs[id].spec.message.attention <==> Due(s.docs[id].spec.message, now))
  }

  // ---------------------------------------------------------------- runs of calls and reminder sweeps

  datatype Event = Call(op: Op, now: nat) | Remind(now: nat)

  const EMPTY: Store := Store([], 0)

  function Happens(s: Store, e: Event): Outcome {
    match e
    case Call(op, now) => Apply(s, op, now)
    case Remind(now) => Activate(s, |s.docs|, now)
  }

  ghost predicate Clocked(clock: nat, events: seq<Event>)
    decreases |events|
  {
    |events| == 0 || (clock <= events[0].now && Clocked(events[0].now, events[1..]))
  }

  ghost function Run(s: Store, events: seq<Event>): Store
    decreases |events|
  {
    if |events| == 0 then s else Run(Happens(s, events[0]).store, events[1..])
  }

  ghost function LastNow(clock: nat, events: seq<Event>): nat {
    if |events| == 0 then clock else events[|events| - 1].now
  }

  lemma HappensOk(s: Store, clock: nat, e: Event)
    requires StoreOk(s, clock) && clock <= e.now
    ensures StoreOk(Happens(s, e).store, e.now) && Grown(s, Happens(s, e).store)
    ensures Happens(s, e).error.Some? ==> Happens(s, e).store == s
  {
    LaterClock(s, clock, e.now);
    match e
    case Call(op, now) =>
      ApplyOk(s, op, clock, now);
      ApplyGrows(s, op, now);
      if Apply(s, op, now).error.Some? { RefusedChangesNothing(s, op, now); }
    case Remind(now) =>
      ActivateOk(s, |s.docs|, now);
      ActivateGrows(s, |s.docs|, now);
  }

  lemma {:induction false} RunOk(s: Store, clock: nat, events: seq<Event>)
    requires StoreOk(s, clock) && Clocked(clock, events)
    ensures StoreOk(Run(s, events), LastNow(clock, events)) && Grown(s, Run(s, events))
    decreases |events|
  {
    if |events| > 0 {
      var t := Happens(s, events[0]).store;
      HappensOk(s, clock, events[0]);
      RunOk(t, events[0].now, events[1..]);
      assert LastNow(events[0].now, events[1..]) == LastNow(clock, events);
      GrownTransitive(s, t, Run(s, events));
    }
  }

  /** After any run from an empty store, revalidating any live message as stored succeeds. */
  lemma StoredMessagesStayValid(events: seq<Event>, id: nat, now: nat)
    requires Clocked(0, events) && now >= LastNow(0, events)
    requires Live(Run(EMPTY, events), id) && IsMessage(Run(EMPTY, events), id)
    ensures var s := Run(EMPTY, events);
            Validate(s, s.docs[id].spec.message, Some(id), now, false) == Ok(Refreshed(s.docs[id].spec.message, now))
  {
    RunOk(EMPTY, 0, events);
    LaterClock(Run(EMPTY, events), LastNow(0, events), now);
    Revalidates(Run(EMPTY, events), id, now, false);
  }

  /** After any run from an empty store a sweep never throws, and attention is then on exactly the due reminders. */
  lemma RemindersExact(events: seq<Event>, now: nat, id: nat)
    requires Clocked(0, events) && now >= LastNow(0, events) && id < |Run(EMPTY, events).docs|
    ensures var s := Run(EMPTY, events);
            var o := Happens(s, Remind(now));
            o.error.None? && |o.store.docs| == |s.docs| && AttentionIsDue(o.store, id, now)
  {
    RunOk(EMPTY, 0, events);
    LaterClock(Run(EMPTY, events), LastNow(0, events), now);
    SweepExact(Run(EMPTY, events), now, id);
  }

  /** The events of a run that were not refused. */
  ghost function Unrefused(s: Store, events: seq<Event>): seq<Event>
    decreases |events|
  {
    if |events| == 0 then []
    else
      var o := Happens(s, events[0]);
      (if o.error.None? then [events[0]] else []) + Unrefused(o.store, events[1..])
  }

  /** Leaving the refused calls out of a run, half-done batches too, leads to the same store. */
  lemma {:induction false} RefusedCallsVanish(s: Store, clock: nat, events: seq<Event>)
    requires StoreOk(s, clock) && Clocked(clock, events)
    ensures Run(s, Unrefused(s, events)) == Run(s, events)
    decreases |events|
  {
    if |events| > 0 {
      var o := Happens(s, events[0]);
      HappensOk(s, clock, events[0]);
      RefusedCallsVanish(o.store, events[0].now, events[1..]);
      var rest := Unrefused(o.store, events[1..]);
      if o.error.None? { assert ([events[0]] + rest)[1..] == rest; } else { assert [] + rest == rest; }
    }
  }

  // ---------------------------------------------------------------- versions only grow

  /** No row is dropped, and a row that was written since carries a version the store had not reached. */
  ghost predicate Grown(s: Store, t: Store) {
    && |s.docs| <= |t.docs| && s.version <= t.version
    && forall id :: 0 <= id < |s.docs| ==> t.docs[id] == s.docs[id] || t.docs[id].version > s.version
  }

  lemma GrownTransitive(s: Store, t: Store, u: Store)
    requires Grown(s, t) && Grown(t, u)
    ensures Grown(s, u)
  {
  }

  lemma ApplyGrows(s: Store, op: Op, now: nat)
    ensures Grown(s, Apply(s, op, now).store)
  {
    if op.UpdateBatch? && UpdateDocuments(s, op.updates, now).error.None? {
      BatchSwapsEach(s, op.updates, now);
      BatchGrows(s, UpdateDocuments(s, op.updates, now), op.updates);
    }
  }

  lemma BatchGrows(s: Store, o: Outcome, updates: seq<Update>)
    requires BatchStep(s, o.store, updates, |updates|, o.changes)
    ensures Grown(s, o.store)
  {
    forall id | 0 <= id < |s.docs| && o.store.docs[id] != s.docs[id] ensures o.store.docs[id].version > s.version {
      var k :| 0 <= k < |updates| && updates[k].id == id;
      assert BatchDid(s, o.store, updates[k], k, o.changes[k]);
    }
  }

  lemma {:induction false} ActivateGrows(start: Store, n: nat, now: nat)
    requires n <= |start.docs|
    ensures Grown(start, Activate(start, n, now).store)
  {
    if n > 0 {
      var s := Activate(start, n - 1, now).store;
      ActivateGrows(start, n - 1, now);
      assert Grown(s, Reactivate(s, n - 1, now).store);
      GrownTransitive(start, s, Reactivate(s, n - 1, now).store);
    }
  }

  /**
    No update is lost: once an update of a version has succeeded, no later one of the same version does, alone or in
    a batch, whatever happened in between.
  */
  lemma OneUpdateAVersion(before: seq<Event>, u: Update, ok: bool, now: nat, after: seq<Event>, again: Update,
                          okToo: bool, later: nat)
    requires Clocked(0, before) && LastNow(0, before) <= now && Clocked(now, after)
    requires UpdateDocument(Run(EMPTY, before), u, ok, now).error.None?
    requires again.id == u.id && again.expected == u.expected
    ensures var t := Run(UpdateDocument(Run(EMPTY, before), u, ok, now).store, after);
            && UpdateDocument(t, again, okToo, later).error.Some?
            && forall updates :: again in updates ==> UpdateDocuments(t, updates, later).error.Some?
  {
    var s := Run(EMPTY, before);
    RunOk(EMPTY, 0, before);
    UpdateSwaps(s, u, ok, now);
    assert DocOk(s, u.id, LastNow(0, before));
    var t := UpdateDocument(s, u, ok, now).store;
    ApplyOk(s, UpdateOne(u, ok), LastNow(0, before), now);
    RunOk(t, now, after);
    StaleUpdateRefused(Run(t, after), again, okToo, later);
  }

  lemma StaleUpdateRefused(t: Store, u: Update, ok: bool, now: nat)
    requires u.id < |t.docs| && t.docs[u.id].version != u.expected
    ensures UpdateDocument(t, u, ok, now).error.Some?
    ensures forall updates :: u in updates ==> UpdateDocuments(t, updates, now).error.Some?
  {
    forall updates | u in updates ensures UpdateDocuments(t, updates, now).error.Some? {
      var k :| 0 <= k < |updates| && updates[k] == u;
      BatchMeets(t, updates, k, now);
    }
  }

  lemma BatchMeets(s: Store, updates: seq<Update>, k: nat, now: nat)
    requires k < |updates|
    ensures UpdateDocuments(s, updates, now).error.None? ==>
              Live(s, updates[k].id) && s.docs[updates[k].id].version == updates[k].expected
  {
    if UpdateDocuments(s, updates, now).error.None? {
      BatchSwapsEach(s, updates, now);
      var o := UpdateDocuments(s, updates, now);
      assert BatchDid(s, o.store, updates[k], k, o.changes[k]);
    }
  }
}
