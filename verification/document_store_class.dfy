/** The store as it runs: rows and the version counter change in place; a batch that fails is rolled back. */
module LiveDocumentStore {
  import opened Wrappers
  import opened DocumentStore

  class LiveStore {
    var docs: seq<Doc>
    var version: nat

    ghost function View(): Store
      reads this
    {
      Store(docs, version)
    }

    constructor ()
      ensures View() == Store([], 0)
    {
      docs, version := [], 0;
    }

    method Bump() returns (next: nat)
      modifies this`version
      ensures version == next == old(version) + 1
    {
      version := version + 1;
      next := version;
    }

    /** Rewrites a row at the next version and announces it. */
    method WriteRow(id: nat, doc: Doc) returns (change: Change)
      requires id < |docs|
      modifies this
      ensures View() == Write(old(View()), id, doc) && change == Announce(View(), id)
    {
      var next := Bump();
      docs := docs[id := doc.(version := next)];
      change := Change(id, docs[id].kind, docs[id].version, docs[id].deleted);
    }

    method CreateRow(kind: Kind, spec: Spec, labels: string, status: string, now: nat)
      returns (changes: seq<Change>, error: Option<string>)
      modifies this
      ensures Outcome(View(), changes, error) == CreateDocument(old(View()), kind, spec, labels, status, now)
    {
      if kind.AgentMessage? && |status| > 0 { return [], Some("envelope status must be empty"); }
      var s := Store(docs, version);
      var checked := Checked(s, kind, spec, None, now, false);
      if checked.Err? { return [], Some(checked.error); }
      if kind.AgentMessage? && KeyActive(s, checked.value) {
        var holder := docs[FirstHolder(s, checked.value.message.dedupeKey.value, |docs|)];
        if Authored(holder.spec.message) != Authored(checked.value.message) || labels != holder.labels {
          return [], Some("dedupe_key conflicts");
        }
        return [], None;
      }
      var next := Bump();
      docs := docs + [Doc(kind, checked.value, labels, status, false, next)];
      return [Change(|docs| - 1, kind, next, false)], None;
    }

    method UpdateRow(u: Update, preconditionsOk: bool, now: nat) returns (changes: seq<Change>, error: Option<string>)
      modifies this
      ensures Outcome(View(), changes, error) == UpdateDocument(old(View()), u, preconditionsOk, now)
    {
      var checked := UpdateCheck(Store(docs, version), u, now);
      if checked.Err? { return [], Some(checked.error); }
      if !preconditionsOk { return [], Some("precondition"); }
      if u.id >= |docs| || docs[u.id].deleted { return [], Some("not found"); }
      if docs[u.id].version != u.expected { return [], Some("conflict"); }
      var change := WriteRow(u.id, Rewritten(docs[u.id], checked.value, u));
      return [change], None;
    }

    /** All updates or none: the first failure restores the rows and the counter. */
    method UpdateRows(updates: seq<Update>, now: nat) returns (changes: seq<Change>, error: Option<string>)
      modifies this
      ensures Outcome(View(), changes, error) == UpdateDocuments(old(View()), updates, now)
    {
      if !DistinctUpdates(updates) { return [], Some("duplicate ids"); }
      var savedDocs, savedVersion := docs, version;
      ghost var start := View();
      changes := [];
      for i := 0 to |updates|
        invariant BatchFrom(View(), updates, i, changes, now) == BatchFrom(start, updates, 0, [], now)
      {
        var more, failure := UpdateRow(updates[i], true, now);
        if failure.Some? {
          docs, version := savedDocs, savedVersion;
          return [], failure;
        }
        changes := changes + more;
      }
      error := None;
    }

    method DeleteRow(id: nat, expected: Option<nat>, now: nat) returns (changes: seq<Change>, error: Option<string>)
      modifies this
      ensures Outcome(View(), changes, error) == DeleteDocument(old(View()), id, expected, now)
    {
      var s := Store(docs, version);
      if Live(s, id) && docs[id].kind.AgentMessage? {
        var checked := Checked(s, AgentMessage, docs[id].spec, Some(id), now, false);
        if checked.Err? { return [], Some(checked.error); }
      }
      if Referenced(s, id) { return [], Some("referenced by a message"); }
      if !Live(s, id) { return [], Some("not found"); }
      if expected.Some? && docs[id].version != expected.value { return [], Some("conflict"); }
      var change := WriteRow(id, docs[id].(deleted := true));
      return [change], None;
    }

    method RestoreRow(id: nat, now: nat) returns (changes: seq<Change>, error: Option<string>)
      modifies this
      ensures Outcome(View(), changes, error) == RestoreDocument(old(View()), id, now)
    {
      if id >= |docs| { return [], Some("not found"); }
      var doc := docs[id];
      var spec := doc.spec;
      if doc.kind.Agent? || doc.kind.AgentMessage? {
        var checked := Checked(Store(docs, version), doc.kind, doc.spec, Some(id), now, true);
        if checked.Err? { return [], Some(checked.error); }
        spec := checked.value;
      }
      if !doc.deleted { return [], Some("not found"); }
      var change := WriteRow(id, doc.(deleted := false, spec := spec));
      return [change], None;
    }

    method ReactivateRow(id: nat, now: nat) returns (changes: seq<Change>, error: Option<string>)
      modifies this
      ensures Outcome(View(), changes, error) == Reactivate(old(View()), id, now)
    {
      if id >= |docs| || docs[id].deleted { return [], Some("due reminder disappeared"); }
      changes, error := UpdateRow(Update(id, docs[id].version, docs[id].spec, None, None), true, now);
    }

    /** Activates the reminders that are due, one update at a time. */
    method ActivateDueReminders(now: nat) returns (changes: seq<Change>, error: Option<string>)
      modifies this
      ensures Outcome(View(), changes, error) == Activate(old(View()), |old(docs)|, now)
    {
      var start := Store(docs, version);
      changes, error := [], None;
      for id := 0 to |start.docs|
        invariant error.None? && Outcome(View(), changes, error) == Activate(start, id, now)
      {
        if Overdue(start, id, now) {
          var more, failure := ReactivateRow(id, now);
          changes, error := changes + more, failure;
          if failure.Some? {
            ActivateStops(start, id + 1, |start.docs|, now);
            return;
          }
        }
      }
    }

    static lemma {:induction false} ActivateStops(start: Store, n: nat, m: nat, now: nat)
      requires n <= m <= |start.docs| && Activate(start, n, now).error.Some?
      ensures Activate(start, m, now) == Activate(start, n, now)
    {
      if n < m {
        ActivateStops(start, n, m - 1, now);
        assert Activate(start, m - 1, now).error.Some?;
      }
    }
  }
}
