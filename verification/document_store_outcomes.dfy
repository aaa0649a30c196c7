/** When each call of the document store succeeds, exactly, and what it stores. */
module DocumentStoreOutcomes {
  import opened Wrappers
  import opened DocumentStore
  import opened DocumentStoreProofs

  // ---------------------------------------------------------------- messages

  function Before(s: Store, self: Option<nat>): Option<Message> {
    if self.Some? && IsMessage(s, self.value) then Some(s.docs[self.value].spec.message) else None
  }

  /** Attention is the author's to ask for, except that a due reminder asks by itself. */
  ghost predicate AttentionOk(m: Message) {
    if m.category.Reminder? then m.dueAt.Some? && !Blank(m.action)
    else m.dueAt.None? && (m.attention ==> m.status.Open? && !m.category.Completion? && !Blank(m.action))
  }

  /** Only approvals are decided, and the time of a decision may at most be repeated. */
  ghost predicate DecisionOk(m: Message, before: Option<Message>) {
    m.decision.Some? ==>
      m.category.Approval?
      && (m.decision.value.decidedAt.Some? ==>
            before.Some? && before.value.decision.Some?
            && before.value.decision.value.decidedAt == m.decision.value.decidedAt)
  }

  /** The name the message goes by: the one it was sent under, or its sender's. */
  function NameOf(s: Store, m: Message, before: Option<Message>): string
    requires LiveKind(s, m.agentId, Agent) && s.docs[m.agentId].spec.AgentSpec?
  {
    if before.Some? && before.value.agentName.Some? then before.value.agentName.value else s.docs[m.agentId].spec.name
  }

  ghost predicate SenderMaySend(s: Store, m: Message, before: Option<Message>) {
    && LiveKind(s, m.agentId, Agent) && s.docs[m.agentId].spec.AgentSpec?
    && (before.Some? ==> m.agentId == before.value.agentId)
    && (m.agentName.Some? ==> m.agentName.value == NameOf(s, m, before))
  }

  /** Everything a message must satisfy to be stored. */
  ghost predicate WellAuthored(s: Store, m: Message, self: Option<nat>, allowLegacy: bool) {
    var before := Before(s, self);
    && Parses(m) && SenderMaySend(s, m, before) && AttentionOk(m) && DecisionOk(m, before) && DistinctRefs(m)
    && TopicsLive(s, m) && RelationsLive(s, m, self)
    && (before.Some? ==> m.legacySource == before.value.legacySource)
    && (self.None? && m.legacySource.Some? ==> allowLegacy)
    && (self.Some? && m.dedupeKey.Some? && !m.status.Resolved? ==>
          forall id :: 0 <= id < |s.docs| ==> !Holds(s, id, m.dedupeKey.value, self))
  }

  /** When a decision was made: as recorded before, if it is the same decision, and otherwise now. */
  function DecidedAt(m: Message, before: Option<Message>, now: nat): nat
    requires m.decision.Some?
  {
    if before.Some? && before.value.decision.Some? && before.value.decision.value.decidedAt.Some?
       && before.value.decision.value.authored == m.decision.value.authored
    then before.value.decision.value.decidedAt.value else now
  }

  /** What is stored of a message. */
  ghost predicate StoredAs(s: Store, m: Message, self: Option<nat>, now: nat, v: Message) {
    && Authors(m, v) && SenderMaySend(s, m, Before(s, self)) && v.agentName == Some(NameOf(s, m, Before(s, self)))
    && (m.category.Reminder? ==> (v.attention <==> m.status.Open? && m.dueAt.Some? && m.dueAt.value <= now))
    && (m.decision.Some? ==> v.decision.value.decidedAt == Some(DecidedAt(m, Before(s, self), now)))
  }

  lemma ValidatesIff(s: Store, m: Message, self: Option<nat>, now: nat, allowLegacy: bool)
    ensures var v := Validate(s, m, self, now, allowLegacy);
            && (v.Ok? <==> WellAuthored(s, m, self, allowLegacy))
            && (v.Ok? ==> StoredAs(s, m, self, now, v.value))
  {
    var before := Before(s, self);
    if SenderMaySend(s, m, before) { FieldsIff(m, NameOf(s, m, before), before, now); }
  }

  lemma FieldsIff(m: Message, name: string, before: Option<Message>, now: nat)
    ensures FieldError(m, Settled(m, name, before, now), before).None?
            <==> AttentionOk(m) && DecisionOk(m, before) && DistinctRefs(m)
  {
  }

  // ---------------------------------------------------------------- any document

  ghost predicate MayStore(s: Store, kind: Kind, spec: Spec, self: Option<nat>, allowLegacy: bool) {
    match kind
    case Agent => spec.AgentSpec? && !Blank(spec.name)
    case AgentMessage => spec.MessageSpec? && WellAuthored(s, spec.message, self, allowLegacy)
    case _ => true
  }

  ghost predicate Holding(s: Store, kind: Kind, spec: Spec, self: Option<nat>, now: nat, stored: Spec) {
    if kind.AgentMessage?
    then spec.MessageSpec? && stored.MessageSpec? && StoredAs(s, spec.message, self, now, stored.message)
    else stored == spec
  }

  lemma CheckedIff(s: Store, kind: Kind, spec: Spec, self: Option<nat>, now: nat, allowLegacy: bool)
    ensures var checked := Checked(s, kind, spec, self, now, allowLegacy);
            && (checked.Ok? <==> MayStore(s, kind, spec, self, allowLegacy))
            && (checked.Ok? ==> Holding(s, kind, spec, self, now, checked.value))
  {
    if kind.AgentMessage? && spec.MessageSpec? { ValidatesIff(s, spec.message, self, now, allowLegacy); }
  }

  /** `t` is `s` with this row, at the next version, and that announced. */
  ghost predicate Wrote(s: Store, o: Outcome, id: nat, d: Doc) {
    && o.store.version == s.version + 1 && id < |s.docs| && d.version == s.version + 1
    && o.store.docs == s.docs[id := d] && o.changes == [Change(id, d.kind, d.version, d.deleted)]
  }

  /** An update is accepted exactly on the live version it expects, with content that may be stored, and stores it. */
  lemma UpdateStoresIff(s: Store, u: Update, preconditionsOk: bool, now: nat)
    ensures var o := UpdateDocument(s, u, preconditionsOk, now);
            && (o.error.None? <==>
                  && preconditionsOk && Live(s, u.id) && s.docs[u.id].version == u.expected
                  && MayStore(s, s.docs[u.id].kind, u.spec, Some(u.id), false)
                  && (s.docs[u.id].kind.AgentMessage? ==> u.status.None? || u.status.value == ""))
            && (o.error.None? ==>
                  && u.id < |o.store.docs| && Wrote(s, o, u.id, o.store.docs[u.id])
                  && Rewrote(s.docs[u.id], o.store.docs[u.id], u)
                  && Holding(s, s.docs[u.id].kind, u.spec, Some(u.id), now, o.store.docs[u.id].spec))
            && (o.error.Some? ==> o.store == s && o.changes == [])
  {
    if Live(s, u.id) {
      CheckedIff(s, s.docs[u.id].kind, u.spec, Some(u.id), now, false);
      if UpdateDocument(s, u, preconditionsOk, now).error.None? { UpdateSwaps(s, u, preconditionsOk, now); }
    }
  }

  /** Each update of a batch is accepted on the rows that the ones before it left. */
  ghost predicate EachAccepted(s: Store, updates: seq<Update>, i: nat, now: nat)
    requires i <= |updates|
    decreases |updates| - i
  {
    i == |updates| || (var o := UpdateDocument(s, updates[i], true, now);
                       o.error.None? && EachAccepted(o.store, updates, i + 1, now))
  }

  lemma {:induction false} BatchFromIff(s: Store, updates: seq<Update>, i: nat, changes: seq<Change>, now: nat)
    requires i <= |updates|
    ensures BatchFrom(s, updates, i, changes, now).error.None? <==> EachAccepted(s, updates, i, now)
    decreases |updates| - i
  {
    if i < |updates| {
      var o := UpdateDocument(s, updates[i], true, now);
      BatchFromIff(o.store, updates, i + 1, changes + o.changes, now);
    }
  }

  /** A batch is accepted exactly if it names each document once and each of its updates is accepted in turn. */
  lemma BatchAcceptedIff(s: Store, updates: seq<Update>, now: nat)
    ensures UpdateDocuments(s, updates, now).error.None?
            <==> DistinctUpdates(updates) && EachAccepted(s, updates, 0, now)
  {
    BatchFromIff(s, updates, 0, [], now);
  }

  // ---------------------------------------------------------------- creating

  /** The same authored content, whatever became of the message since. */
  ghost predicate SameAuthored(a: Message, b: Message) {
    && a.agentId == b.agentId && a.text == b.text && a.category == b.category && a.dueAt == b.dueAt
    && a.action == b.action && a.topics == b.topics && a.relations == b.relations && a.dedupeKey == b.dedupeKey
    && (a.decision.Some? <==> b.decision.Some?)
    && (a.decision.Some? ==> a.decision.value.authored == b.decision.value.authored)
  }

  lemma AuthoredIff(a: Message, b: Message)
    ensures Authored(a) == Authored(b) <==> SameAuthored(a, b)
  {
  }

  /** An unresolved message whose key a live unresolved message holds already. */
  ghost predicate KeyHeld(s: Store, kind: Kind, spec: Spec) {
    && kind.AgentMessage? && spec.MessageSpec? && spec.message.dedupeKey.Some? && !spec.message.status.Resolved?
    && exists id :: 0 <= id < |s.docs| && Holds(s, id, spec.message.dedupeKey.value, None)
  }

  ghost predicate HolderSaysSame(s: Store, m: Message, labels: string)
    requires m.dedupeKey.Some?
  {
    exists id :: 0 <= id < |s.docs| && Holds(s, id, m.dedupeKey.value, None)
                 && SameAuthored(s.docs[id].spec.message, m) && labels == s.docs[id].labels
  }

  lemma OneHolder(s: Store, key: string, clock: nat)
    requires StoreOk(s, clock) && exists i :: 0 <= i < |s.docs| && Holds(s, i, key, None)
    ensures forall i :: 0 <= i < |s.docs| && Holds(s, i, key, None) ==> i == FirstHolder(s, key, |s.docs|)
  {
    forall i: nat | i < |s.docs| && Holds(s, i, key, None) ensures i == FirstHolder(s, key, |s.docs|) {
      HoldersAgree(s, i, FirstHolder(s, key, |s.docs|), key, clock);
    }
  }

  lemma HoldersAgree(s: Store, i: nat, k: nat, key: string, clock: nat)
    requires StoreOk(s, clock) && Holds(s, i, key, None) && Holds(s, k, key, None)
    ensures i == k
  {
    assert DocOk(s, i, clock);
    assert Holds(s, k, key, Some(i)) || k == i;
  }

  /**
    A document is created exactly if it may be stored, as it was given.  A message whose key is held is not stored
    again: it is taken for a retry exactly if it says the same as the holder.
  */
  lemma CreateStoresIff(s: Store, kind: Kind, spec: Spec, labels: string, status: string, now: nat)
    requires StoreOk(s, now)
    ensures var o := CreateDocument(s, kind, spec, labels, status, now);
            && (o.error.None? <==>
                  && (kind.AgentMessage? ==> status == "") && MayStore(s, kind, spec, None, false)
                  && (KeyHeld(s, kind, spec) ==> HolderSaysSame(s, spec.message, labels)))
            && (o.error.Some? || KeyHeld(s, kind, spec) ==> o.store == s && o.changes == [])
            && (o.error.None? && !KeyHeld(s, kind, spec) ==> Created(s, o, kind, spec, labels, status, now))
  {
    CheckedIff(s, kind, spec, None, now, false);
    var checked := Checked(s, kind, spec, None, now, false);
    if checked.Ok? && kind.AgentMessage? && KeyActive(s, checked.value) {
      var m := checked.value.message;
      OneHolder(s, m.dedupeKey.value, now);
      var first := FirstHolder(s, m.dedupeKey.value, |s.docs|);
      AuthoredIff(s.docs[first].spec.message, m);
    }
  }

  ghost predicate Created(s: Store, o: Outcome, kind: Kind, spec: Spec, labels: string, status: string, now: nat) {
    && o.store.version == s.version + 1 && |o.store.docs| == |s.docs| + 1 && o.store.docs[..|s.docs|] == s.docs
    && var d := o.store.docs[|s.docs|];
    && d.kind == kind && d.labels == labels && d.status == status && !d.deleted && d.version == s.version + 1
    && Holding(s, kind, spec, None, now, d.spec) && o.changes == [Change(|s.docs|, kind, s.version + 1, false)]
  }

  // ---------------------------------------------------------------- deleting and restoring

  /** A message that names the document: as its sender, in a relation or, for a topic, among its topics. */
  ghost predicate Names(s: Store, k: nat, id: nat)
    requires id < |s.docs|
  {
    && IsMessage(s, k) && (!s.docs[k].deleted || s.docs[id].kind.Agent?)
    && var m := s.docs[k].spec.message;
       || m.agentId == id || (exists i :: 0 <= i < |m.relations| && m.relations[i].id == id)
       || (s.docs[id].kind.Topic? && id in m.topics)
  }

  /** A document is deleted exactly if it is live, at the version expected, and no message names it. */
  lemma DeletedIff(s: Store, id: nat, expected: Option<nat>, now: nat)
    requires StoreOk(s, now)
    ensures var o := DeleteDocument(s, id, expected, now);
            && (o.error.None? <==>
                  && Live(s, id) && (expected.Some? ==> s.docs[id].version == expected.value)
                  && forall k :: 0 <= k < |s.docs| ==> !Names(s, k, id))
            && (o.error.None? ==> Wrote(s, o, id, s.docs[id].(deleted := true, version := s.version + 1)))
            && (o.error.Some? ==> o.store == s && o.changes == [])
  {
    if Live(s, id) {
      assert DocOk(s, id, now);
      if s.docs[id].kind.AgentMessage? { Revalidates(s, id, now, false); }
      forall k | 0 <= k < |s.docs| ensures Blocks(s, k, id) <==> Names(s, k, id) {}
    }
  }

  /** A deleted document is restored exactly if it may be stored as it was, and is stored so. */
  lemma RestoredIff(s: Store, id: nat, now: nat)
    ensures var o := RestoreDocument(s, id, now);
            && (o.error.None? <==>
                  id < |s.docs| && s.docs[id].deleted && MayStore(s, s.docs[id].kind, s.docs[id].spec, Some(id), true))
            && (o.error.None? ==>
                  && id < |o.store.docs| && Wrote(s, o, id, o.store.docs[id])
                  && Holding(s, s.docs[id].kind, s.docs[id].spec, Some(id), now, o.store.docs[id].spec)
                  && o.store.docs[id] == s.docs[id].(deleted := false, version := s.version + 1,
                                                     spec := o.store.docs[id].spec))
            && (o.error.Some? ==> o.store == s && o.changes == [])
  {
    if id < |s.docs| { CheckedIff(s, s.docs[id].kind, s.docs[id].spec, Some(id), now, true); }
  }

  // ---------------------------------------------------------------- the sweep

  /** A sweep writes nothing but the attention of reminders that are due, each at a version of its own. */
  lemma SweepWritesAttention(s: Store, now: nat, id: nat)
    requires StoreOk(s, now) && id < |s.docs|
    ensures var t := Activate(s, |s.docs|, now).store;
            && |t.docs| == |s.docs|
            && (if Overdue(s, id, now)
                then IsMessage(s, id) && IsMessage(t, id)
                     && t.docs[id] == s.docs[id].(version := t.docs[id].version,
                                                  spec := MessageSpec(s.docs[id].spec.message.(attention := true)))
                else t.docs[id] == s.docs[id].(version := t.docs[id].version))
  {
    ActivateOk(s, |s.docs|, now);
    var t := Activate(s, |s.docs|, now).store;
    assert t.docs[id] == t.docs[id].(version := 0).(version := t.docs[id].version);
  }
}
