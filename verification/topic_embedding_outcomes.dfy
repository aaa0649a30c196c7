/** What the embedder is handed, which answers are stored and what each write does to the index. */
module TopicEmbeddingOutcomes {
  import opened TopicEmbeddings
  import opened TopicEmbeddingProofs
  import opened Wrappers

  /** The text that counts: at most 32000 characters of it. */
  ghost predicate IsIndexedText(text: string, body: string) {
    |body| <= 32000 && body <= text && (|body| < 32000 ==> body == text)
  }

  lemma BodyIsIndexed(d: Doc)
    ensures IsIndexedText(d.text, Body(d)) && forall b :: IsIndexedText(d.text, b) ==> b == Body(d)
  {
    forall b | IsIndexedText(d.text, b) ensures b == Body(d) { }
  }

  /** The hash of the title, a newline and the indexed text. */
  ghost predicate HashedFrom(d: Doc, hash: string) {
    exists body :: IsIndexedText(d.text, body) && hash == d.title + "\n" + body
  }

  /** One passage each 500 characters: the first 120 characters of the title, a newline and 600 characters of text. */
  ghost predicate CutInto(d: Doc, passages: seq<string>) {
    var text := EmbeddedText(d.title, Body(d));
    && 500 * (|passages| - 1) < |text| <= 500 * |passages|
    && forall i :: 0 <= i < |passages| ==> PassageIs(passages[i], d.title, text, 500 * i)
  }

  lemma PassagesCut(d: Doc)
    ensures CutInto(d, PassagesOf(d))
  {
    PassagesAt(d.title, EmbeddedText(d.title, Body(d)), 0);
  }

  // ---------------------------------------------------------------- work

  ghost predicate Describes(work: Work, id: string, d: Doc) {
    && work.id == id && work.sourceVersion == d.version && HashedFrom(d, work.hash)
    && (work.limited <==> |d.text| > 32000) && CutInto(d, work.passages)
  }

  /** The earliest pending document of the query that no stored vectors fit. */
  ghost predicate Foremost(t: State, order: seq<string>, i: nat) {
    && i < |order| && Pending(t, order[i]) && forall k :: 0 <= k < i ==> !Pending(t, order[k])
  }

  lemma {:induction false} FirstIsForemost(s: State, order: seq<string>) returns (i: nat)
    requires FirstPending(s, order).Some?
    ensures Foremost(s, order, i) && FirstPending(s, order) == Some(order[i])
  {
    if Pending(s, order[0]) {
      i := 0;
    } else {
      var k := FirstIsForemost(s, order[1..]);
      i := k + 1;
      forall j | 0 <= j < i ensures !Pending(s, order[j]) { assert j > 0 ==> order[j] == order[1..][j - 1]; }
    }
  }

  lemma {:induction false} WorkIsFirst(s: State, order: seq<string>, attempts: nat)
    requires NextFrom(s, order, attempts).1.Some?
    ensures var (t, work) := NextFrom(s, order, attempts);
      FirstPending(t, order) == Some(work.value.id) && work.value == WorkFor(t, work.value.id)
    decreases attempts
  {
    var first := FirstPending(s, order).value;
    if Reusable(s, first) { WorkIsFirst(Refresh(s, first), order, attempts - 1); }
  }

  /** What is handed out is the first pending document of the query, as it is: version, hash and passages. */
  lemma WorkDescribesTheFirst(s: State, order: seq<string>) returns (i: nat)
    requires NextWork(s, order).1.Some?
    ensures var (t, work) := NextWork(s, order);
      Foremost(t, order, i) && Describes(work.value, order[i], t.docs[order[i]])
  {
    var (t, work) := NextWork(s, order);
    WorkIsFirst(DropDeleted(s), order, REFRESHES);
    i := FirstIsForemost(t, order);
    BodyIsIndexed(t.docs[order[i]]);
    PassagesCut(t.docs[order[i]]);
  }

  /** A refresh takes place only where the content is the one the vectors were made for. */
  ghost predicate RefreshedRow(t: State, id: string, before: Row, after: Row) {
    && IsLive(t, id) && before.model == t.model && HashedFrom(t.docs[id], before.hash)
    && after == before.(sourceVersion := t.docs[id].version, limited := |t.docs[id].text| > 32000)
  }

  ghost predicate KeptOrRefreshed(s: State, t: State, id: string) {
    && (id in t.index <==> id in s.index)
    && (id in t.index ==> t.index[id] == s.index[id] || RefreshedRow(t, id, s.index[id], t.index[id]))
  }

  lemma {:induction false} LookingOnlyRefreshes(s: State, order: seq<string>, attempts: nat, id: string)
    ensures var t := NextFrom(s, order, attempts).0; t == s.(index := t.index) && KeptOrRefreshed(s, t, id)
    decreases attempts
  {
    if attempts > 0 {
      var first := FirstPending(s, order);
      if first.Some? && Reusable(s, first.value) {
        BodyIsIndexed(s.docs[first.value]);
        LookingOnlyRefreshes(Refresh(s, first.value), order, attempts - 1, id);
      }
    }
  }

  /** Asking for work changes no document; it drops rows of deleted ones and refreshes rows whose vectors still fit. */
  lemma AskingOnlyRefreshes(s: State, order: seq<string>, id: string)
    ensures var t := NextWork(s, order).0;
      && t == s.(index := t.index)
      && (id in t.index <==> id in s.index && !(id in s.docs && s.docs[id].deleted))
      && (id in t.index ==> t.index[id] == s.index[id] || RefreshedRow(t, id, s.index[id], t.index[id]))
  {
    LookingOnlyRefreshes(DropDeleted(s), order, REFRESHES, id);
  }

  // ---------------------------------------------------------------- answers

  /** The answer is for the content and version the document has, one vector a passage, at most eighty. */
  ghost predicate Fits(d: Doc, model: string, input: Submission) {
    && input.model == model && !d.deleted && input.sourceVersion == d.version && HashedFrom(d, input.hash)
    && 1 <= |input.vectors| <= 80 && |input.vectors| == |PassagesOf(d)| && input.usable
  }

  /** An answer is stored exactly if it fits, beside nothing else; an answer for another version is stale. */
  lemma StoredIff(s: State, input: Submission)
    ensures var t := Submit(s, input);
      var wellFormed := input.model == s.model && 1 <= |input.vectors| <= 80;
      && (Check(s, input).Accepted? <==> input.id in s.docs && Fits(s.docs[input.id], s.model, input))
      && (Check(s, input).Stale? <==>
            wellFormed && !(IsLive(s, input.id) && s.docs[input.id].version == input.sourceVersion))
      && (!Check(s, input).Accepted? ==> t == s)
      && (Check(s, input).Accepted? ==>
            && t == s.(index := t.index) && t.index.Keys == s.index.Keys + {input.id}
            && (forall id :: id in s.index && id != input.id ==> t.index[id] == s.index[id])
            && var row := t.index[input.id];
            && row.model == s.model && row.sourceVersion == s.docs[input.id].version && row.hash == input.hash
            && row.vectors == input.vectors && |row.passages| == |row.vectors|
            && CutInto(s.docs[input.id], row.passages)
            && (row.limited <==> |s.docs[input.id].text| > 32000))
  {
    if input.id in s.docs {
      BodyIsIndexed(s.docs[input.id]);
      PassagesCut(s.docs[input.id]);
    }
  }

  // ---------------------------------------------------------------- writers

  /** The document is written at the next version; a deleted one loses its row, and no other row changes. */
  ghost predicate Wrote(s: State, t: State, id: string, title: string, text: string, deleted: bool) {
    && t.version == s.version + 1 && t.model == s.model
    && t.docs == s.docs[id := Doc(s.version + 1, deleted, title, text)]
    && (forall x :: x != id || !deleted ==> (x in t.index <==> x in s.index))
    && (deleted ==> id !in t.index)
    && forall x :: x in t.index ==> x in s.index && t.index[x] == s.index[x]
  }

  /** Creating, editing, deleting and restoring write one document, and erasing takes it and its row away. */
  lemma WritesLand(s: State, id: string, title: string, text: string)
    ensures var t := Step(s, Create(id, title, text));
      if id in s.docs then t == s else Wrote(s, t, id, title, text, false)
    ensures var t := Step(s, Edit(id, title, text));
      if id in s.docs && !s.docs[id].deleted then Wrote(s, t, id, title, text, false) else t == s
    ensures var t := Step(s, Delete(id));
      if id in s.docs && !s.docs[id].deleted then Wrote(s, t, id, s.docs[id].title, s.docs[id].text, true) else t == s
    ensures var t := Step(s, Restore(id));
      if id in s.docs && s.docs[id].deleted then Wrote(s, t, id, s.docs[id].title, s.docs[id].text, false) else t == s
    ensures var t := Step(s, Erase(id));
      && t.version == s.version && t.model == s.model && id !in t.docs && id !in t.index
      && (forall x :: x != id ==> (x in t.docs <==> x in s.docs) && (x in t.index <==> x in s.index))
      && (forall x :: x in t.docs ==> t.docs[x] == s.docs[x]) && forall x :: x in t.index ==> t.index[x] == s.index[x]
  {
  }
}
