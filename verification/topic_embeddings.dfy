/**
  The embedding index (control-plane/src/topicEmbeddings.ts): which documents still need vectors, the work handed
  to the embedder, and what a late or wrong answer may change.

  `docs` holds the resources of the indexed kinds with the title and text of their search projection.  A SHA-256
  digest is the text it digests, a vector an opaque token.
*/
module TopicEmbeddings {
  import opened Wrappers

  const EMBEDDING_TEXT_LIMIT: nat := 32000
  const PASSAGE_STEP: nat := 500
  const PASSAGE_WIDTH: nat := 600
  const TITLE_WIDTH: nat := 120
  const REFRESHES: nat := 20
  const VECTOR_LIMIT: nat := 80

  datatype Vector = Vector(token: int)

  datatype Doc = Doc(version: nat, deleted: bool, title: string, text: string)

  datatype Row = Row(model: string, sourceVersion: nat, hash: string, passages: seq<string>, vectors: seq<Vector>,
                     limited: bool)

  datatype State = State(docs: map<string, Doc>, index: map<string, Row>, model: string, version: nat)

  datatype Work = Work(id: string, sourceVersion: nat, hash: string, limited: bool, passages: seq<string>)

  /** `usable` says whether the centroid of the vectors has a direction. */
  datatype Submission = Submission(id: string, sourceVersion: nat, hash: string, model: string, vectors: seq<Vector>,
                                   usable: bool)

  datatype Answer = Accepted | Stale | Rejected(message: string)

  // ---------------------------------------------------------------- passages

  predicate IsSpace(c: char) {
    || c in "\t\n\r \U{b}\U{c}\U{a0}\U{1680}\U{2028}\U{2029}\U{202f}\U{205f}\U{3000}\U{feff}"
    || '\U{2000}' <= c <= '\U{200a}'
  }

  function TrimStart(s: string): string { if |s| > 0 && IsSpace(s[0]) then TrimStart(s[1..]) else s }

  function TrimEnd(s: string): string { if |s| > 0 && IsSpace(s[|s| - 1]) then TrimEnd(s[..|s| - 1]) else s }

  function Trim(s: string): string { TrimEnd(TrimStart(s)) }

  function EmbeddedText(title: string, body: string): string { if Trim(body) != "" then Trim(body) else title }

  function Heading(title: string): string { title[..Min(TITLE_WIDTH, |title|)] + "\n" }

  function Window(text: string, offset: nat): string
    requires offset <= |text|
  {
    text[offset..Min(offset + PASSAGE_WIDTH, |text|)]
  }

  /** The passages from `offset` on. */
  function PassagesFrom(title: string, text: string, offset: nat): seq<string>
    decreases |text| - offset
  {
    if offset >= |text| then []
    else [Heading(title) + Window(text, offset)] + PassagesFrom(title, text, offset + PASSAGE_STEP)
  }

  function EmbeddingPassages(title: string, body: string): seq<string> {
    PassagesFrom(title, EmbeddedText(title, body), 0)
  }

  method BuildPassages(title: string, body: string) returns (passages: seq<string>)
    ensures passages == EmbeddingPassages(title, body)
  {
    passages := [];
    var text := Trim(body);
    if text == "" { text := title; }
    var offset := 0;
    while offset < |text|
      invariant passages + PassagesFrom(title, text, offset) == PassagesFrom(title, text, 0)
      decreases |text| - offset
    {
      var passage := Heading(title) + Window(text, offset);
      ghost var rest := PassagesFrom(title, text, offset + PASSAGE_STEP);
      assert PassagesFrom(title, text, offset) == [passage] + rest;
      assert passages + ([passage] + rest) == (passages + [passage]) + rest;
      passages := passages + [passage];
      offset := offset + PASSAGE_STEP;
    }
    assert passages + PassagesFrom(title, text, offset) == passages;
  }

  // ---------------------------------------------------------------- the index

  function Hash(title: string, body: string): string { title + "\n" + body }

  /** The part of the text that is embedded and hashed. */
  function Body(d: Doc): string { d.text[..Min(EMBEDDING_TEXT_LIMIT, |d.text|)] }

  function HashOf(d: Doc): string { Hash(d.title, Body(d)) }

  function PassagesOf(d: Doc): seq<string> { EmbeddingPassages(d.title, Body(d)) }

  predicate Limited(d: Doc) { |d.text| > EMBEDDING_TEXT_LIMIT }

  predicate IsLive(s: State, id: string) { id in s.docs && !s.docs[id].deleted }

  predicate Indexed(s: State, id: string) {
    IsLive(s, id) && id in s.index && s.index[id].model == s.model && s.index[id].sourceVersion == s.docs[id].version
  }

  predicate Pending(s: State, id: string) { IsLive(s, id) && !Indexed(s, id) }

  function PendingIds(s: State): set<string> { set id | id in s.docs && Pending(s, id) }

  /** `order` is the order of the query: newest first, then by id. */
  function FirstPending(s: State, order: seq<string>): (id: Option<string>)
    ensures id.Some? ==> id.value in order && Pending(s, id.value)
    ensures id.None? ==> forall x :: x in order ==> !Pending(s, x)
  {
    if |order| == 0 then None else if Pending(s, order[0]) then Some(order[0]) else FirstPending(s, order[1..])
  }

  /** The stored vectors still fit: same model and same content. */
  predicate Reusable(s: State, id: string)
    requires IsLive(s, id)
  {
    id in s.index && s.index[id].model == s.model && s.index[id].hash == HashOf(s.docs[id])
  }

  function Refresh(s: State, id: string): State
    requires IsLive(s, id) && id in s.index
  {
    var d := s.docs[id];
    s.(index := s.index[id := s.index[id].(sourceVersion := d.version, model := s.model, limited := Limited(d))])
  }

  function WorkFor(s: State, id: string): Work
    requires IsLive(s, id)
  {
    var d := s.docs[id];
    Work(id, d.version, HashOf(d), Limited(d), PassagesOf(d))
  }

  function DropDeleted(s: State): State {
    s.(index := map id | id in s.index && (id in s.docs ==> !s.docs[id].deleted) :: s.index[id])
  }

  function NextFrom(s: State, order: seq<string>, attempts: nat): (State, Option<Work>)
    decreases attempts
  {
    if attempts == 0 then (s, None)
    else match FirstPending(s, order)
      case None => (s, None)
      case Some(id) =>
        if Reusable(s, id) then NextFrom(Refresh(s, id), order, attempts - 1) else (s, Some(WorkFor(s, id)))
  }

  function NextWork(s: State, order: seq<string>): (State, Option<Work>) { NextFrom(DropDeleted(s), order, REFRESHES) }

  function Check(s: State, input: Submission): Answer {
    if input.model != s.model || !(1 <= |input.vectors| <= VECTOR_LIMIT) then Rejected("schema")
    else if !IsLive(s, input.id) then Stale
    else
      var d := s.docs[input.id];
      if d.version != input.sourceVersion then Stale
      else if HashOf(d) != input.hash then Rejected("content hash")
      else if |PassagesOf(d)| != |input.vectors| then Rejected("embedding count")
      else if !input.usable then Rejected("centroid")
      else Accepted
  }

  function Store(s: State, input: Submission): State
    requires IsLive(s, input.id)
  {
    var d := s.docs[input.id];
    s.(index := s.index[input.id := Row(input.model, input.sourceVersion, input.hash, PassagesOf(d), input.vectors,
                                        Limited(d))])
  }

  function Submit(s: State, input: Submission): State {
    if Check(s, input).Accepted? then Store(s, input) else s
  }

  // ---------------------------------------------------------------- writers

  datatype Op =
    | Create(newId: string, newTitle: string, newText: string)
    | Edit(edited: string, title: string, text: string)
    | Delete(deleted: string)
    | Restore(restored: string)
    | Erase(erased: string)
    | Next(order: seq<string>)
    | Answer(input: Submission)
    | ChangeModel(model: string)

  function Write(s: State, id: string, d: Doc): State {
    s.(docs := s.docs[id := d.(version := s.version + 1)], version := s.version + 1,
       index := if d.deleted then s.index - {id} else s.index)
  }

  function Step(s: State, op: Op): State {
    match op
    case Create(id, title, text) => if id in s.docs then s else Write(s, id, Doc(0, false, title, text))
    case Edit(id, title, text) => if IsLive(s, id) then Write(s, id, s.docs[id].(title := title, text := text)) else s
    case Delete(id) => if IsLive(s, id) then Write(s, id, s.docs[id].(deleted := true)) else s
    case Restore(id) => if id in s.docs && s.docs[id].deleted then Write(s, id, s.docs[id].(deleted := false)) else s
    case Erase(id) => s.(docs := s.docs - {id}, index := s.index - {id})
    case Next(order) => NextWork(s, order).0
    case Answer(input) => Submit(s, input)
    case ChangeModel(model) => s.(model := model)
  }

  // ---------------------------------------------------------------- as the index runs it

  class EmbeddingIndex {
    var docs: map<string, Doc>
    var index: map<string, Row>
    var model: string
    var version: nat

    function View(): State
      reads this
    {
      State(docs, index, model, version)
    }

    constructor (docs: map<string, Doc>, model: string, version: nat)
      ensures View() == State(docs, map[], model, version)
    {
      this.docs, this.index, this.model, this.version := docs, map[], model, version;
    }

    method NextEmbeddingWork(order: seq<string>) returns (work: Option<Work>)
      modifies this`index
      ensures (View(), work) == NextWork(old(View()), order)
    {
      index := map id | id in index && (id in docs ==> !docs[id].deleted) :: index[id];
      ghost var start := View();
      work := None;
      for attempt := 0 to REFRESHES
        invariant NextFrom(View(), order, REFRESHES - attempt) == NextFrom(start, order, REFRESHES)
        invariant work == None
        invariant docs == start.docs && model == start.model && version == start.version
      {
        var first := FirstPending(View(), order);
        if first.None? { return None; }
        var id := first.value;
        var d := docs[id];
        var hash := Hash(d.title, Body(d));
        if id in index && index[id].model == model && index[id].hash == hash {
          index := index[id := index[id].(sourceVersion := d.version, model := model, limited := Limited(d))];
          continue;
        }
        var passages := BuildPassages(d.title, Body(d));
        return Some(Work(id, d.version, hash, Limited(d), passages));
      }
    }

    method SubmitEmbeddings(input: Submission) returns (answer: Answer)
      modifies this`index
      ensures answer == Check(old(View()), input)
      ensures View() == Submit(old(View()), input)
    {
      if input.model != model || |input.vectors| < 1 || |input.vectors| > VECTOR_LIMIT { return Rejected("schema"); }
      if input.id !in docs || docs[input.id].deleted { return Stale; }
      var d := docs[input.id];
      if d.version != input.sourceVersion { return Stale; }
      if Hash(d.title, Body(d)) != input.hash { return Rejected("content hash"); }
      var passages := BuildPassages(d.title, Body(d));
      if |passages| != |input.vectors| { return Rejected("embedding count"); }
      if !input.usable { return Rejected("centroid"); }
      index := index[input.id := Row(input.model, input.sourceVersion, input.hash, passages, input.vectors,
                                     Limited(d))];
      answer := Accepted;
    }
  }
}
