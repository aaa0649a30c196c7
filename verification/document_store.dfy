/**
  The versioned document store (control-plane/src/store.ts): one global version counter, compare-and-swap
  writes, atomic batches, and the references an agent message keeps.

  A document's id is its position: documents are never removed, only marked deleted.
*/
module DocumentStore {
  import opened Wrappers

  /** What a document is stored as; nothing is ever stored as an Alert. */
  datatype Kind = Agent | AgentMessage | Topic | Plain(name: string)

  /** What a reference may name: the historical Alert reads as an AgentMessage. */
  datatype RefKind = Alert | Of(kind: Kind)

  datatype Category = Request | Approval | Failure | Completion | Reminder

  datatype MessageStatus = Open | Acknowledged | Resolved

  datatype Ref = Ref(kind: RefKind, id: nat)

  /** Who decided what, and when the server recorded it. */
  datatype Decision = Decision(authored: string, decidedAt: Option<nat>)

  /** `text` stands for title, description, severity, provenance and the other authored prose. */
  datatype Message = Message(agentId: nat, agentName: Option<string>, text: string, category: Category,
                             dueAt: Option<nat>, status: MessageStatus, attention: bool, action: string,
                             topics: seq<nat>, relations: seq<Ref>, dedupeKey: Option<string>,
                             decision: Option<Decision>, legacySource: Option<string>)

  datatype Spec = AgentSpec(name: string) | MessageSpec(message: Message) | FreeSpec(content: string)

  datatype Doc = Doc(kind: Kind, spec: Spec, labels: string, status: string, deleted: bool, version: nat)

  datatype Store = Store(docs: seq<Doc>, version: nat)

  datatype Change = Change(id: nat, kind: Kind, version: nat, deleted: bool)

  datatype Update = Update(id: nat, expected: nat, spec: Spec, labels: Option<string>, status: Option<string>)

  datatype Op =
    | Create(kind: Kind, spec: Spec, labels: string, status: string)
    | UpdateOne(update: Update, preconditionsOk: bool)
    | UpdateBatch(updates: seq<Update>)
    | Delete(target: nat, expectedVersion: Option<nat>)
    | Restore(lost: nat)

  /** The store after a call, the changes it announces, and the error it threw if it threw. */
  datatype Outcome = Outcome(store: Store, changes: seq<Change>, error: Option<string>)

  // ---------------------------------------------------------------- reading

  predicate Live(s: Store, id: nat) { id < |s.docs| && !s.docs[id].deleted }

  predicate LiveKind(s: Store, id: nat, kind: Kind) { Live(s, id) && s.docs[id].kind == kind }

  function Canonical(named: RefKind): Kind { if named.Alert? then AgentMessage else named.kind }

  predicate IsMessage(s: Store, id: nat) {
    id < |s.docs| && s.docs[id].kind.AgentMessage? && s.docs[id].spec.MessageSpec?
  }

  predicate Blank(text: string) {
    forall i :: 0 <= i < |text| ==> text[i] in " \t\n\r"
  }

  // ---------------------------------------------------------------- validating a message

  /** What the message schema accepts.  Parsing changes none of the modelled fields. */
  predicate Parses(m: Message) {
    && !Blank(m.text)
    && (m.agentName.Some? ==> !Blank(m.agentName.value))
    && (m.dueAt.Some? ==> 0 < m.dueAt.value <= 8640000000000)
    && (m.dedupeKey.Some? ==> |m.dedupeKey.value| > 0)
  }

  function Due(m: Message, now: nat): bool { m.status.Open? && m.dueAt.Some? && m.dueAt.value <= now }

  predicate DistinctRefs(m: Message) {
    && (forall i, k :: 0 <= i < k < |m.topics| ==> m.topics[i] != m.topics[k])
    && (forall i, k :: 0 <= i < k < |m.relations| ==> m.relations[i] != m.relations[k])
  }

  predicate TopicsLive(s: Store, m: Message) {
    forall i :: 0 <= i < |m.topics| ==> LiveKind(s, m.topics[i], Topic)
  }

  predicate RelationsLive(s: Store, m: Message, self: Option<nat>) {
    forall i :: 0 <= i < |m.relations| ==>
      LiveKind(s, m.relations[i].id, Canonical(m.relations[i].kind)) && Some(m.relations[i].id) != self
  }

  /** A live, unresolved message other than `self` that holds the key. */
  predicate Holds(s: Store, id: nat, key: string, self: Option<nat>) {
    && Live(s, id) && IsMessage(s, id) && Some(id) != self
    && !s.docs[id].spec.message.status.Resolved?
    && s.docs[id].spec.message.dedupeKey == Some(key)
  }

  predicate KeyTaken(s: Store, key: string, self: Option<nat>) {
    exists id :: 0 <= id < |s.docs| && Holds(s, id, key, self)
  }

  function Recorded(d: Decision, earlier: Option<Decision>, now: nat): Decision {
    if earlier.Some? && earlier.value.authored == d.authored && earlier.value.decidedAt.Some? then earlier.value
    else Decision(d.authored, Some(now))
  }

  /** The message as it would be stored: sender name, reminder attention and decision time are the server's. */
  function Settled(m: Message, senderName: string, previous: Option<Message>, now: nat): Message {
    var earlier := if previous.Some? then previous.value.decision else None;
    m.(agentName := Some(senderName),
       attention := if m.category.Reminder? then Due(m, now) else m.attention,
       decision := if m.decision.Some? then Some(Recorded(m.decision.value, earlier, now)) else None)
  }

  function FieldError(m: Message, settled: Message, previous: Option<Message>): Option<string> {
    if m.category.Reminder? && m.dueAt.None? then Some("due_at required")
    else if m.category.Reminder? && Blank(m.action) then Some("recommended_action required")
    else if !m.category.Reminder? && m.dueAt.Some? then Some("only reminders may be due")
    else if !settled.status.Open? && settled.attention then Some("only open messages may require attention")
    else if settled.attention && (settled.category.Completion? || Blank(settled.action))
      then Some("attention needs an action")
    else if m.decision.Some? && !m.category.Approval? then Some("only approvals are decided")
    else if m.decision.Some? && m.decision.value.decidedAt.Some?
            && (previous.None? || previous.value.decision.None?
                || previous.value.decision.value.decidedAt != m.decision.value.decidedAt)
    then Some("decided_at is server-owned")
    else if !DistinctRefs(m) then Some("duplicate reference")
    else None
  }

  function Validate(s: Store, m: Message, self: Option<nat>, now: nat, allowLegacy: bool): Result<Message, string> {
    var previous := if self.Some? && IsMessage(s, self.value) then Some(s.docs[self.value].spec.message) else None;
    if !Parses(m) then Err("schema")
    else if !LiveKind(s, m.agentId, Agent) || !s.docs[m.agentId].spec.AgentSpec? then Err("unknown sender")
    else if previous.Some? && m.agentId != previous.value.agentId then Err("sender is immutable")
    else
      var senderName := if previous.Some? && previous.value.agentName.Some? then previous.value.agentName.value
                        else s.docs[m.agentId].spec.name;
      if m.agentName.Some? && m.agentName.value != senderName then Err("agent_name is server-owned")
      else
        var settled := Settled(m, senderName, previous, now);
        var fields := FieldError(m, settled, previous);
        if fields.Some? then Err(fields.value)
        else if !TopicsLive(s, m) then Err("topic not live")
        else if !RelationsLive(s, m, self) then Err("relation not live")
        else if previous.Some? && previous.value.legacySource != m.legacySource then Err("legacy_source is immutable")
        else if self.Some? && m.dedupeKey.Some? && !m.status.Resolved? && KeyTaken(s, m.dedupeKey.value, self)
        then Err("dedupe_key active")
        else if self.None? && m.legacySource.Some? && !allowLegacy then Err("legacy_source reserved")
        else Ok(settled)
  }

  /** The spec to store for a document of this kind, or why it is refused. */
  function Checked(s: Store, kind: Kind, spec: Spec, self: Option<nat>, now: nat, allowLegacy: bool): Result<Spec,
                   string> {
    match kind
    case Agent => if spec.AgentSpec? && !Blank(spec.name) then Ok(spec) else Err("schema")
    case AgentMessage =>
      if !spec.MessageSpec? then Err("schema")
      else
        var v := Validate(s, spec.message, self, now, allowLegacy);
        if v.Err? then Err(v.error) else Ok(MessageSpec(v.value))
    case _ => Ok(spec)
  }

  // ---------------------------------------------------------------- writing

  function Announce(s: Store, id: nat): Change
    requires id < |s.docs|
  {
    Change(id, s.docs[id].kind, s.docs[id].version, s.docs[id].deleted)
  }

  /** Replaces one row at the next version. */
  function Write(s: Store, id: nat, doc: Doc): Store
    requires id < |s.docs|
  {
    Store(s.docs[id := doc.(version := s.version + 1)], s.version + 1)
  }

  function Committed(s: Store, id: nat): Outcome
    requires id < |s.docs|
  {
    Outcome(s, [Announce(s, id)], None)
  }

  function Refused(s: Store, error: string): Outcome { Outcome(s, [], Some(error)) }

  /** The authored content that a retry of the same message must repeat. */
  function Authored(m: Message): Message {
    m.(agentName := None, status := Open, attention := false, legacySource := None,
       decision := if m.decision.Some? then Some(Decision(m.decision.value.authored, None)) else None)
  }

  function FirstHolder(s: Store, key: string, n: nat): (id: nat)
    requires n <= |s.docs| && exists i :: 0 <= i < n && Holds(s, i, key, None)
    ensures id < n && Holds(s, id, key, None)
  {
    if Holds(s, n - 1, key, None) then n - 1 else FirstHolder(s, key, n - 1)
  }

  function Insert(s: Store, kind: Kind, spec: Spec, labels: string, status: string): Outcome {
    var t := Store(s.docs + [Doc(kind, spec, labels, status, false, s.version + 1)], s.version + 1);
    Committed(t, |s.docs|)
  }

  function CreateDocument(s: Store, kind: Kind, spec: Spec, labels: string, status: string, now: nat): Outcome {
    if kind.AgentMessage? && |status| > 0 then Refused(s, "envelope status must be empty")
    else
      var checked := Checked(s, kind, spec, None, now, false);
      if checked.Err? then Refused(s, checked.error)
      else if kind.AgentMessage? && KeyActive(s, checked.value) then
        var key := checked.value.message.dedupeKey.value;
        var holder := s.docs[FirstHolder(s, key, |s.docs|)];
        if Authored(holder.spec.message) != Authored(checked.value.message) || labels != holder.labels
        then Refused(s, "dedupe_key conflicts")
        else Outcome(s, [], None)
      else Insert(s, kind, checked.value, labels, status)
  }

  predicate KeyActive(s: Store, spec: Spec) {
    && spec.MessageSpec? && spec.message.dedupeKey.Some? && !spec.message.status.Resolved?
    && KeyTaken(s, spec.message.dedupeKey.value, None)
  }

  /** The refusal of an update's spec, checked before its version is. */
  function UpdateCheck(s: Store, u: Update, now: nat): Result<Spec, string> {
    if !Live(s, u.id) then Ok(u.spec)
    else
      var checked := Checked(s, s.docs[u.id].kind, u.spec, Some(u.id), now, false);
      if checked.Ok? && s.docs[u.id].kind.AgentMessage? && u.status.Some? && |u.status.value| > 0
      then Err("envelope status must be empty") else checked
  }

  function Rewritten(doc: Doc, spec: Spec, u: Update): Doc {
    doc.(spec := spec,
         labels := if u.labels.Some? then u.labels.value else doc.labels,
         status := if u.status.Some? then u.status.value else doc.status)
  }

  function UpdateDocument(s: Store, u: Update, preconditionsOk: bool, now: nat): Outcome {
    var checked := UpdateCheck(s, u, now);
    if checked.Err? then Refused(s, checked.error)
    else if !preconditionsOk then Refused(s, "precondition")
    else if !Live(s, u.id) then Refused(s, "not found")
    else if s.docs[u.id].version != u.expected then Refused(s, "conflict")
    else Committed(Write(s, u.id, Rewritten(s.docs[u.id], checked.value, u)), u.id)
  }

  predicate DistinctUpdates(updates: seq<Update>) {
    forall i, k :: 0 <= i < k < |updates| ==> updates[i].id != updates[k].id
  }

  /** Applies the updates from position i on to the working rows of one transaction. */
  function BatchFrom(s: Store, updates: seq<Update>, i: nat, changes: seq<Change>, now: nat): Outcome
    requires i <= |updates|
    decreases |updates| - i
  {
    if i == |updates| then Outcome(s, changes, None)
    else
      var o := UpdateDocument(s, updates[i], true, now);
      if o.error.Some? then o else BatchFrom(o.store, updates, i + 1, changes + o.changes, now)
  }

  function UpdateDocuments(s: Store, updates: seq<Update>, now: nat): Outcome {
    if !DistinctUpdates(updates) then Refused(s, "duplicate ids")
    else
      var o := BatchFrom(s, updates, 0, [], now);
      if o.error.Some? then Refused(s, o.error.value) else o
  }

  /** A message, live or, when the target is an agent, deleted too, that keeps the target from deletion. */
  predicate Blocks(s: Store, id: nat, target: nat) {
    && IsMessage(s, id)
    && (!s.docs[id].deleted || LiveKind(s, target, Agent))
    && var m := s.docs[id].spec.message;
       || m.agentId == target
       || (exists i :: 0 <= i < |m.relations| && m.relations[i].id == target)
       || (LiveKind(s, target, Topic) && target in m.topics)
  }

  predicate Referenced(s: Store, target: nat) {
    Live(s, target) && exists id :: 0 <= id < |s.docs| && Blocks(s, id, target)
  }

  function DeleteDocument(s: Store, id: nat, expected: Option<nat>, now: nat): Outcome {
    var checked := if Live(s, id) && s.docs[id].kind.AgentMessage?
                   then Checked(s, AgentMessage, s.docs[id].spec, Some(id), now, false) else Ok(FreeSpec(""));
    if checked.Err? then Refused(s, checked.error)
    else if Referenced(s, id) then Refused(s, "referenced by a message")
    else if !Live(s, id) then Refused(s, "not found")
    else if expected.Some? && s.docs[id].version != expected.value then Refused(s, "conflict")
    else Committed(Write(s, id, s.docs[id].(deleted := true)), id)
  }

  function RestoreDocument(s: Store, id: nat, now: nat): Outcome {
    if id >= |s.docs| then Refused(s, "not found")
    else
      var doc := s.docs[id];
      var checked := if doc.kind.Agent? || doc.kind.AgentMessage?
                     then Checked(s, doc.kind, doc.spec, Some(id), now, true) else Ok(doc.spec);
      if checked.Err? then Refused(s, checked.error)
      else if !doc.deleted then Refused(s, "not found")
      else Committed(Write(s, id, doc.(deleted := false, spec := checked.value)), id)
  }

  function Apply(s: Store, op: Op, now: nat): Outcome {
    match op
    case Create(kind, spec, labels, status) => CreateDocument(s, kind, spec, labels, status, now)
    case UpdateOne(u, ok) => UpdateDocument(s, u, ok, now)
    case UpdateBatch(updates) => UpdateDocuments(s, updates, now)
    case Delete(id, expected) => DeleteDocument(s, id, expected, now)
    case Restore(id) => RestoreDocument(s, id, now)
  }

  // ---------------------------------------------------------------- the reminder sweep

  predicate Overdue(s: Store, id: nat, now: nat) {
    && Live(s, id) && IsMessage(s, id)
    && s.docs[id].spec.message.category.Reminder?
    && Due(s.docs[id].spec.message, now)
    && !s.docs[id].spec.message.attention
  }

  /** Rewrites a due reminder with its own spec at its own version. */
  function Reactivate(s: Store, id: nat, now: nat): Outcome {
    if !Live(s, id) then Refused(s, "due reminder disappeared")
    else UpdateDocument(s, Update(id, s.docs[id].version, s.docs[id].spec, None, None), true, now)
  }

  /** Rewrites, with their own specs, those of the first n documents that were overdue to begin with. */
  function Activate(start: Store, n: nat, now: nat): Outcome
    requires n <= |start.docs|
  {
    if n == 0 then Outcome(start, [], None)
    else
      var o := Activate(start, n - 1, now);
      if o.error.Some? || !Overdue(start, n - 1, now) then o
      else
        var u := Reactivate(o.store, n - 1, now);
        Outcome(u.store, o.changes + u.changes, u.error)
  }
}
