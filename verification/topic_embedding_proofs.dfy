/** A row counted as indexed was made from the live content, passages cover the text, and indexing comes to an end. */
module TopicEmbeddingProofs {
  import opened Wrappers
  import opened TopicEmbeddings

  // ---------------------------------------------------------------- passages cover the text

  function Count(length: nat): nat { (length + PASSAGE_STEP - 1) / PASSAGE_STEP }

  predicate PassageIs(passage: string, title: string, text: string, at: nat) {
    at < |text| && passage == Heading(title) + Window(text, at)
  }

  /** Passage `i` is the heading and the window at 500 i, and there are as many as it takes. */
  lemma {:induction false} PassagesAt(title: string, text: string, offset: nat)
    requires offset % PASSAGE_STEP == 0
    ensures var p := PassagesFrom(title, text, offset);
      && offset / PASSAGE_STEP + |p| == Max(offset / PASSAGE_STEP, Count(|text|))
      && forall i :: 0 <= i < |p| ==> PassageIs(p[i], title, text, offset + PASSAGE_STEP * i)
    decreases |text| - offset
  {
    if offset < |text| {
      PassagesAt(title, text, offset + PASSAGE_STEP);
      var rest := PassagesFrom(title, text, offset + PASSAGE_STEP);
      var p := PassagesFrom(title, text, offset);
      assert p == [Heading(title) + Window(text, offset)] + rest;
      forall i | 0 <= i < |p|
        ensures PassageIs(p[i], title, text, offset + PASSAGE_STEP * i)
      {
        if i > 0 { assert p[i] == rest[i - 1]; }
      }
    }
  }

  predicate HoldsAt(passage: string, piece: string, at: nat) {
    at + |piece| <= |passage| && passage[at..at + |piece|] == piece
  }

  ghost predicate Contains(passage: string, piece: string) { exists at :: HoldsAt(passage, piece, at) }

  lemma SliceWithin(text: string, from: nat, to: nat, start: nat, length: nat)
    requires from <= to <= |text| && from + start + length <= to
    ensures text[from..to][start..start + length] == text[from + start..from + start + length]
  {
    var a, b := text[from..to][start..start + length], text[from + start..from + start + length];
    assert |a| == |b|;
    forall i | 0 <= i < |a| ensures a[i] == b[i] { assert a[i] == text[from..to][start + i]; }
  }

  lemma SliceAfter(heading: string, window: string, start: nat, length: nat)
    requires start + length <= |window|
    ensures (heading + window)[|heading| + start..|heading| + start + length] == window[start..start + length]
  {
  }

  /** Any stretch of the text of at most 101 characters lies whole inside one passage. */
  lemma NoStretchIsCut(title: string, body: string, start: nat, length: nat)
    requires 0 < length <= PASSAGE_WIDTH - PASSAGE_STEP + 1
    requires start + length <= |EmbeddedText(title, body)|
    ensures exists p ::
              p in EmbeddingPassages(title, body) && Contains(p, EmbeddedText(title, body)[start..start + length])
  {
    var text := EmbeddedText(title, body);
    PassagesAt(title, text, 0);
    var i := start / PASSAGE_STEP;
    assert i < |EmbeddingPassages(title, body)|;
    WindowHolds(title, text, PASSAGE_STEP * i, start, length);
    var p := EmbeddingPassages(title, body)[i];
    assert p in EmbeddingPassages(title, body) && Contains(p, text[start..start + length]);
  }

  lemma WindowHolds(title: string, text: string, offset: nat, start: nat, length: nat)
    requires offset <= start && start + length <= |text| && start + length <= offset + PASSAGE_WIDTH
    ensures Contains(Heading(title) + Window(text, offset), text[start..start + length])
  {
    var window := Window(text, offset);
    SliceWithin(text, offset, offset + |window|, start - offset, length);
    SliceAfter(Heading(title), window, start - offset, length);
    assert HoldsAt(Heading(title) + window, text[start..start + length], |Heading(title)| + (start - offset));
  }

  predicate Answerable(d: Doc) { 1 <= |EmbeddedText(d.title, Body(d))| <= PASSAGE_STEP * VECTOR_LIMIT }

  /** The embedder's limits admit exactly the documents with 1 to 40000 characters to embed. */
  lemma AnswerableIffPassagesFit(d: Doc)
    ensures Answerable(d) <==> 1 <= |PassagesOf(d)| <= VECTOR_LIMIT
    ensures forall p :: p in PassagesOf(d) ==> 1 < |p| <= TITLE_WIDTH + 1 + PASSAGE_WIDTH
  {
    var text := EmbeddedText(d.title, Body(d));
    PassagesAt(d.title, text, 0);
    assert |PassagesOf(d)| == Count(|text|);
    forall p | p in PassagesOf(d) ensures 1 < |p| <= TITLE_WIDTH + 1 + PASSAGE_WIDTH {
      var i: nat :| i < |PassagesOf(d)| && PassagesOf(d)[i] == p;
      assert p == Heading(d.title) + Window(text, PASSAGE_STEP * i);
    }
  }

  lemma {:induction false} TrimStartShortens(s: string)
    ensures |TrimStart(s)| <= |s|
  {
    if |s| > 0 && IsSpace(s[0]) { TrimStartShortens(s[1..]); }
  }

  lemma {:induction false} TrimEndShortens(s: string)
    ensures |TrimEnd(s)| <= |s|
  {
    if |s| > 0 && IsSpace(s[|s| - 1]) { TrimEndShortens(s[..|s| - 1]); }
  }

  /** Only a document whose text is blank and whose title is empty or very long is outside the limits. */
  lemma AnswerableIffTextOrTitleFits(d: Doc)
    ensures Answerable(d) <==> Trim(Body(d)) != "" || 1 <= |d.title| <= PASSAGE_STEP * VECTOR_LIMIT
  {
    TrimStartShortens(Body(d));
    TrimEndShortens(TrimStart(Body(d)));
  }

  // ---------------------------------------------------------------- what a hash determines

  predicate OneLine(title: string) { '\n' !in title }

  lemma FirstNewlineAfterTitle(t: string, b: string)
    requires OneLine(t)
    ensures Hash(t, b)[|t|] == '\n' && forall k :: 0 <= k < |t| ==> Hash(t, b)[k] != '\n'
  {
    forall k | 0 <= k < |t| ensures Hash(t, b)[k] != '\n' { assert Hash(t, b)[k] == t[k]; }
  }

  lemma OneLineTitlesDetermine(t: string, b: string, u: string, c: string)
    requires OneLine(t) && OneLine(u) && Hash(t, b) == Hash(u, c)
    ensures t == u && b == c
  {
    var h := Hash(t, b);
    FirstNewlineAfterTitle(t, b);
    FirstNewlineAfterTitle(u, c);
    assert |t| == |u|;
    assert t == h[..|t|] == u;
    assert b == h[|t| + 1..] == c;
  }

  ghost predicate CollidesWith(t: string, b: string, u: string, c: string) {
    OneLine(u) && (u, c) != (t, b) && Hash(u, c) == Hash(t, b)
  }

  /** A content shares its hash with another one-line title's content exactly when its own title holds a newline. */
  lemma CollidesIffNewline(t: string, b: string)
    ensures (exists u, c :: CollidesWith(t, b, u, c)) <==> '\n' in t
  {
    if OneLine(t) {
      forall u, c | CollidesWith(t, b, u, c) ensures false {
        OneLineTitlesDetermine(t, b, u, c);
        assert false;
      }
    } else {
      var at := FirstNewline(t);
      var u, c := t[..at], t[at + 1..] + "\n" + b;
      assert t == u + "\n" + t[at + 1..];
      assert Hash(u, c) == Hash(t, b);
      assert |u| < |t|;
      assert CollidesWith(t, b, u, c);
    }
  }

  lemma {:induction false} FirstNewline(t: string) returns (at: nat)
    requires '\n' in t
    ensures at < |t| && t[at] == '\n' && OneLine(t[..at])
  {
    if t[0] == '\n' { at := 0; }
    else {
      var rest := FirstNewline(t[1..]);
      at := rest + 1;
      assert t[..at] == [t[0]] + t[1..][..rest];
    }
  }

  // ---------------------------------------------------------------- the invariant

  ghost predicate MadeFrom(row: Row, title: string, body: string) {
    row.hash == Hash(title, body) && row.passages == EmbeddingPassages(title, body) && |row.vectors| == |row.passages|
  }

  ghost predicate RowOk(s: State, id: string)
    requires id in s.index
  {
    && IsLive(s, id) && s.index[id].sourceVersion <= s.docs[id].version
    && (s.index[id].sourceVersion == s.docs[id].version ==> s.index[id].hash == HashOf(s.docs[id]))
    && exists title, body :: MadeFrom(s.index[id], title, body)
  }

  ghost predicate Inv(s: State) {
    && (forall id :: id in s.docs ==> s.docs[id].version <= s.version)
    && (forall id :: id in s.index ==> RowOk(s, id))
  }

  /** Every title in sight is one line, also those the stored passages were made from. */
  ghost predicate OneLiners(s: State) {
    && (forall id :: id in s.docs ==> OneLine(s.docs[id].title))
    && (forall id :: id in s.index ==> exists title, body :: OneLine(title) && MadeFrom(s.index[id], title, body))
  }

  predicate WritesOneLine(op: Op) {
    match op
    case Create(_, title, _) => OneLine(title)
    case Edit(_, title, _) => OneLine(title)
    case _ => true
  }

  lemma WriteOk(s: State, id: string, d: Doc)
    requires Inv(s) && (id in s.index ==> id in s.docs)
    ensures Inv(Write(s, id, d))
    ensures OneLiners(s) && OneLine(d.title) ==> OneLiners(Write(s, id, d))
  {
    var t := Write(s, id, d);
    forall x | x in t.index ensures RowOk(t, x) { assert RowOk(s, x); }
  }

  lemma RefreshOk(s: State, id: string)
    requires Inv(s) && IsLive(s, id) && Reusable(s, id)
    ensures Inv(Refresh(s, id))
  {
    var t := Refresh(s, id);
    assert RowOk(s, id);
    RefreshKeepsSource(s.index[id], t.index[id]);
    forall x | x in t.index ensures RowOk(t, x) {
      if x != id { assert RowOk(s, x); }
    }
  }

  lemma RefreshOneLiners(s: State, id: string)
    requires OneLiners(s) && IsLive(s, id) && Reusable(s, id)
    ensures OneLiners(Refresh(s, id))
  {
    var t := Refresh(s, id);
    var title, body :| OneLine(title) && MadeFrom(s.index[id], title, body);
    assert MadeFrom(t.index[id], title, body);
  }

  lemma RefreshKeepsSource(before: Row, after: Row)
    requires (exists title, body :: MadeFrom(before, title, body))
    requires after.hash == before.hash && after.passages == before.passages && after.vectors == before.vectors
    ensures exists title, body :: MadeFrom(after, title, body)
  {
    var title, body :| MadeFrom(before, title, body);
    assert MadeFrom(after, title, body);
  }

  lemma DropDeletedOk(s: State)
    requires Inv(s)
    ensures DropDeleted(s) == s
  {
    forall id | id in s.index ensures IsLive(s, id) { assert RowOk(s, id); }
    assert DropDeleted(s).index == s.index;
  }

  predicate Refreshable(s: State, id: string) { Pending(s, id) && Reusable(s, id) }

  /** Refreshes the rows of `ids` one after the other, as long as each is pending with unchanged content. */
  function RefreshAll(s: State, ids: seq<string>): State
    decreases |ids|
  {
    if |ids| == 0 || !Refreshable(s, ids[0]) then s else RefreshAll(Refresh(s, ids[0]), ids[1..])
  }

  lemma {:induction false} RefreshAllOk(s: State, ids: seq<string>)
    requires Inv(s)
    ensures Inv(RefreshAll(s, ids))
    decreases |ids|
  {
    if |ids| > 0 && Refreshable(s, ids[0]) {
      RefreshOk(s, ids[0]);
      RefreshAllOk(Refresh(s, ids[0]), ids[1..]);
    }
  }

  lemma {:induction false} RefreshAllOneLiners(s: State, ids: seq<string>)
    requires OneLiners(s)
    ensures OneLiners(RefreshAll(s, ids))
    decreases |ids|
  {
    if |ids| > 0 && Refreshable(s, ids[0]) {
      RefreshOneLiners(s, ids[0]);
      RefreshAllOneLiners(Refresh(s, ids[0]), ids[1..]);
    }
  }

  lemma RefreshClears(s: State, id: string)
    requires IsLive(s, id) && Reusable(s, id) && Pending(s, id)
    ensures PendingIds(Refresh(s, id)) == PendingIds(s) - {id} && id in PendingIds(s)
  {
    var t := Refresh(s, id);
    assert Indexed(t, id);
    forall x | x != id ensures Pending(t, x) <==> Pending(s, x) { }
  }

  /**
    The loop refreshes some rows; no work means that nothing listed is pending, or that every attempt was a
    refresh.
  */
  lemma {:induction false} NextFromRefreshes(s: State, order: seq<string>, attempts: nat) returns (ids: seq<string>)
    ensures var (t, work) := NextFrom(s, order, attempts);
      && |ids| <= attempts && t == RefreshAll(s, ids) && t == s.(index := t.index)
      && PendingIds(t) <= PendingIds(s) && |PendingIds(t)| + |ids| == |PendingIds(s)|
      && (work.Some? ==>
            Pending(t, work.value.id) && !Reusable(t, work.value.id) && work.value == WorkFor(t, work.value.id))
      && (work.None? ==> |ids| == attempts || forall x :: x in order ==> !Pending(t, x))
    decreases attempts
  {
    ids := [];
    if attempts > 0 {
      var first := FirstPending(s, order);
      if first.Some? && Reusable(s, first.value) {
        RefreshClears(s, first.value);
        var rest := NextFromRefreshes(Refresh(s, first.value), order, attempts - 1);
        ids := [first.value] + rest;
        assert ids[1..] == rest;
      }
    }
  }

  lemma NextWorkOk(s: State, order: seq<string>)
    requires Inv(s)
    ensures var (t, work) := NextWork(s, order);
      && Inv(t) && (OneLiners(s) ==> OneLiners(t)) && t == s.(index := t.index)
      && PendingIds(t) <= PendingIds(s) && |PendingIds(t)| <= |PendingIds(s)|
      && (work.Some? ==>
            Pending(t, work.value.id) && !Reusable(t, work.value.id) && work.value == WorkFor(t, work.value.id))
      && (work.None? ==> |PendingIds(t)| + REFRESHES == |PendingIds(s)| || forall x :: x in order ==> !Pending(t, x))
  {
    DropDeletedOk(s);
    var ids := NextFromRefreshes(s, order, REFRESHES);
    RefreshAllOk(s, ids);
    if OneLiners(s) { RefreshAllOneLiners(s, ids); }
  }

  lemma SubmitOk(s: State, input: Submission)
    requires Inv(s)
    ensures Inv(Submit(s, input)) && (OneLiners(s) ==> OneLiners(Submit(s, input)))
    ensures Check(s, input).Accepted? ==> PendingIds(Submit(s, input)) == PendingIds(s) - {input.id}
  {
    if Check(s, input).Accepted? {
      var t := Submit(s, input);
      var d := s.docs[input.id];
      assert MadeFrom(t.index[input.id], d.title, Body(d));
      forall x | x in t.index ensures RowOk(t, x) {
        if x != input.id { assert RowOk(s, x); }
      }
    }
  }

  lemma StepOk(s: State, op: Op)
    requires Inv(s)
    ensures Inv(Step(s, op))
    ensures OneLiners(s) && WritesOneLine(op) ==> OneLiners(Step(s, op))
  {
    assert forall id :: id in s.index ==> RowOk(s, id);
    match op
    case Create(id, title, text) => WriteOk(s, id, Doc(0, false, title, text));
    case Edit(id, title, text) => if IsLive(s, id) { WriteOk(s, id, s.docs[id].(title := title, text := text)); }
    case Delete(id) => if IsLive(s, id) { WriteOk(s, id, s.docs[id].(deleted := true)); }
    case Restore(id) => if id in s.docs { WriteOk(s, id, s.docs[id].(deleted := false)); }
    case Erase(id) => EraseOk(s, id);
    case Next(order) => NextWorkOk(s, order);
    case Answer(input) => SubmitOk(s, input);
    case ChangeModel(model) => ChangeModelOk(s, model);
  }

  lemma EraseOk(s: State, id: string)
    requires Inv(s)
    ensures var t := Step(s, Erase(id)); Inv(t) && (OneLiners(s) ==> OneLiners(t))
  {
    var t := Step(s, Erase(id));
    forall x | x in t.index ensures RowOk(t, x) { assert RowOk(s, x); }
  }

  lemma ChangeModelOk(s: State, model: string)
    requires Inv(s)
    ensures var t := Step(s, ChangeModel(model)); Inv(t) && (OneLiners(s) ==> OneLiners(t))
  {
    var t := Step(s, ChangeModel(model));
    forall x | x in t.index ensures RowOk(t, x) { assert RowOk(s, x); }
  }

  function Run(s: State, ops: seq<Op>): State {
    if |ops| == 0 then s else Step(Run(s, ops[..|ops| - 1]), ops[|ops| - 1])
  }

  lemma {:induction false} RunOk(s: State, ops: seq<Op>)
    requires Inv(s)
    ensures Inv(Run(s, ops))
    ensures OneLiners(s) && (forall i :: 0 <= i < |ops| ==> WritesOneLine(ops[i])) ==> OneLiners(Run(s, ops))
  {
    if |ops| > 0 {
      RunOk(s, ops[..|ops| - 1]);
      StepOk(Run(s, ops[..|ops| - 1]), ops[|ops| - 1]);
    }
  }

  // ---------------------------------------------------------------- the promises

  /** Whatever was written, asked for or answered late: a row counted as indexed was hashed from the live content. */
  lemma IndexedRowsAreFresh(s: State, ops: seq<Op>, id: string)
    requires Inv(s) && Indexed(Run(s, ops), id)
    ensures Run(s, ops).index[id].hash == HashOf(Run(s, ops).docs[id])
  {
    RunOk(s, ops);
    assert RowOk(Run(s, ops), id);
  }

  /** With one-line titles it also holds exactly the live content's passages, one vector each. */
  lemma IndexedPassagesAreExact(s: State, ops: seq<Op>, id: string)
    requires Inv(s) && OneLiners(s) && (forall i :: 0 <= i < |ops| ==> WritesOneLine(ops[i]))
    requires Indexed(Run(s, ops), id)
    ensures var t := Run(s, ops);
      t.index[id].passages == PassagesOf(t.docs[id]) && |t.index[id].vectors| == |t.index[id].passages|
  {
    var t := Run(s, ops);
    RunOk(s, ops);
    IndexedRowsAreFresh(s, ops, id);
    var title, body :| OneLine(title) && MadeFrom(t.index[id], title, body);
    OneLineTitlesDetermine(title, body, t.docs[id].title, Body(t.docs[id]));
  }

  /** Rows are dropped with their document, so a restored document waits for new vectors. */
  lemma RestoredIsPending(s: State, ops: seq<Op>, id: string)
    requires Inv(s) && id in Run(s, ops).docs && Run(s, ops).docs[id].deleted
    ensures Pending(Step(Run(s, ops), Restore(id)), id)
  {
    RunOk(s, ops);
    var t := Run(s, ops);
    forall x | x in t.index ensures IsLive(t, x) { assert RowOk(t, x); }
  }

  // ---------------------------------------------------------------- when old passages stay

  lemma {:induction false} TrimStartIsSuffix(s: string)
    ensures |TrimStart(s)| <= |s| && TrimStart(s) == s[|s| - |TrimStart(s)|..]
  {
    if |s| > 0 && IsSpace(s[0]) { TrimStartIsSuffix(s[1..]); }
  }

  lemma TrimDropsLastNewline(s: string)
    ensures |Trim(s + "\n")| <= |s|
  {
    var text := s + "\n";
    TrimStartIsSuffix(text);
    if TrimStart(text) != "" {
      var front := TrimStart(text)[..|TrimStart(text)| - 1];
      assert TrimStart(text)[|TrimStart(text)| - 1] == '\n';
      TrimEndShortens(front);
    }
  }

  /** The last passage of a shorter text under a heading that is no longer is shorter. */
  lemma ShorterTextDiffers(t: string, text: string, u: string, shorter: string)
    requires |shorter| < |text| && |u| <= |t|
    ensures PassagesFrom(u, shorter, 0) != PassagesFrom(t, text, 0)
  {
    PassagesAt(t, text, 0);
    PassagesAt(u, shorter, 0);
    var p, q := PassagesFrom(t, text, 0), PassagesFrom(u, shorter, 0);
    if |p| == |q| {
      var last := |p| - 1;
      assert PassageIs(p[last], t, text, PASSAGE_STEP * last) && PassageIs(q[last], u, shorter, PASSAGE_STEP * last);
      assert |q[last]| < |p[last]|;
    }
  }

  /** The lines of a title after the first, moved to an otherwise empty body. */
  function Moved(t: string, at: nat): string
    requires at < |t|
  {
    t[at + 1..] + "\n"
  }

  lemma MovedLinesDiffer(t: string, at: nat)
    requires at < |t| && t[at] == '\n'
    ensures Hash(t[..at], Moved(t, at)) == Hash(t, "")
    ensures EmbeddingPassages(t[..at], Moved(t, at)) != EmbeddingPassages(t, "")
  {
    assert t == t[..at] + "\n" + t[at + 1..];
    TrimDropsLastNewline(t[at + 1..]);
    ShorterTextDiffers(t, EmbeddedText(t, ""), t[..at], EmbeddedText(t[..at], Moved(t, at)));
  }

  /** Whoever shares a hash with this title has its passages too. */
  ghost predicate HashFixesPassages(t: string) {
    forall b, u, c :: OneLine(u) && Hash(u, c) == Hash(t, b) ==> EmbeddingPassages(u, c) == EmbeddingPassages(t, b)
  }

  /** Next to contents with one-line titles, the hash fixes a title's passages exactly if it is one line too. */
  lemma HashFixesPassagesIffOneLine(t: string)
    ensures HashFixesPassages(t) <==> OneLine(t)
  {
    if OneLine(t) {
      forall b, u, c | OneLine(u) && Hash(u, c) == Hash(t, b)
        ensures EmbeddingPassages(u, c) == EmbeddingPassages(t, b)
      {
        OneLineTitlesDetermine(u, c, t, b);
      }
    } else {
      var at := FirstNewline(t);
      MovedLinesDiffer(t, at);
      assert OneLine(t[..at]) && Hash(t[..at], Moved(t, at)) == Hash(t, "");
    }
  }

  function Sole(d: Doc, index: map<string, Row>): State { State(map["d" := d], index, "m", d.version) }

  /** One usable vector a passage. */
  function FullAnswer(d: Doc): Submission {
    Submission("d", d.version, HashOf(d), "m", seq(|PassagesOf(d)|, i => Vector(i)), true)
  }

  function RowFor(d: Doc): Row {
    Row("m", d.version, HashOf(d), PassagesOf(d), FullAnswer(d).vectors, Limited(d))
  }

  /** A document is indexed, its title and text are edited, and work is asked for. */
  function EditedRun(d: Doc, title: string, text: string): State {
    Run(Sole(d, map[]), [Answer(FullAnswer(d)), Edit("d", title, text), Next(["d"])])
  }

  /**
    After an edit the document counts as indexed without new vectors exactly if it could be indexed before and
    the hash did not change; its passages are then those of the old content.
  */
  lemma EditKeepsRowIffSameHash(d: Doc, title: string, text: string)
    requires !d.deleted
    ensures var s, e := EditedRun(d, title, text), Doc(d.version + 1, false, title, text);
      && s.docs == map["d" := e]
      && (Indexed(s, "d") <==> Answerable(d) && HashOf(e) == HashOf(d))
      && (Indexed(s, "d") ==> s.index["d"].passages == PassagesOf(d))
  {
    var e := Doc(d.version + 1, false, title, text);
    EditedRunIs(d, title, text);
    AskedAfterEdit(e, FirstIndex(d));
  }

  function FirstIndex(d: Doc): map<string, Row> { if Answerable(d) then map["d" := RowFor(d)] else map[] }

  lemma EditedRunIs(d: Doc, title: string, text: string)
    requires !d.deleted
    ensures EditedRun(d, title, text) == NextWork(Sole(Doc(d.version + 1, false, title, text), FirstIndex(d)), ["d"]).0
  {
    ThreeSteps(Sole(d, map[]), Answer(FullAnswer(d)), Edit("d", title, text), Next(["d"]));
    FirstIndexed(d);
    EditIs(d, FirstIndex(d), title, text);
  }

  lemma EditIs(d: Doc, index: map<string, Row>, title: string, text: string)
    requires !d.deleted
    ensures Step(Sole(d, index), Edit("d", title, text)) == Sole(Doc(d.version + 1, false, title, text), index)
  {
  }

  lemma ThreeSteps(s: State, a: Op, b: Op, c: Op)
    ensures Run(s, [a, b, c]) == Step(Step(Step(s, a), b), c)
  {
    assert [a, b, c][..2] == [a, b] && [a, b][..1] == [a] && [a][..0] == [];
    assert Run(s, [a]) == Step(s, a);
    assert Run(s, [a, b]) == Step(Run(s, [a]), b);
  }

  lemma FirstIndexed(d: Doc)
    requires !d.deleted
    ensures Submit(Sole(d, map[]), FullAnswer(d)) == Sole(d, FirstIndex(d))
  {
    AnswerableIffPassagesFit(d);
  }

  /** The edited document is pending; asking for work refreshes its row if the hash is the old one. */
  lemma AskedAfterEdit(e: Doc, index: map<string, Row>)
    requires !e.deleted && index.Keys <= {"d"}
    requires "d" in index ==> index["d"].model == "m" && index["d"].sourceVersion < e.version
    ensures var t := NextWork(Sole(e, index), ["d"]).0;
      && t.docs == map["d" := e]
      && (Indexed(t, "d") <==> "d" in index && index["d"].hash == HashOf(e))
      && (Indexed(t, "d") ==> t.index["d"].passages == index["d"].passages)
  {
    var s := Sole(e, index);
    assert DropDeleted(s) == s;
    assert FirstPending(s, ["d"]) == Some("d");
    if Reusable(s, "d") {
      var t := Refresh(s, "d");
      assert FirstPending(t, ["d"][1..]) == None && FirstPending(t, ["d"]) == None;
      assert NextFrom(t, ["d"], REFRESHES - 1) == (t, None);
    }
  }

  /** The titles that a Topic may have. */
  predicate TopicTitle(t: string) { 1 <= |t| <= 120 }

  /** A Topic with this one-line title and body is indexed, edited to that title and body, and keeps old passages. */
  ghost predicate KeepsOld(u: string, c: string, t: string, b: string) {
    var s := EditedRun(Doc(1, false, u, c), t, b);
    TopicTitle(u) && OneLine(u) && Indexed(s, "d") && s.index["d"].passages != PassagesOf(Doc(2, false, t, b))
  }

  /** The body made of the title's further lines, given up for those lines, does it. */
  lemma NewlineTitleKeepsOldPassages(t: string, at: nat)
    requires TopicTitle(t) && 0 < at < |t| && t[at] == '\n' && OneLine(t[..at])
    ensures KeepsOld(t[..at], Moved(t, at), t, "")
  {
    var d, e := Doc(1, false, t[..at], Moved(t, at)), Doc(2, false, t, "");
    assert Body(d) == Moved(t, at) && Body(e) == "";
    MovedLinesDiffer(t, at);
    AnswerableIffTextOrTitleFits(d);
    EditKeepsRowIffSameHash(d, t, "");
  }

  /** A Topic can come from a one-line title to this one with old passages exactly if it holds a newline, not first. */
  lemma OldPassagesIffNewlineInside(t: string)
    requires TopicTitle(t)
    ensures (exists u, c, b :: KeepsOld(u, c, t, b)) <==> '\n' in t && t[0] != '\n'
  {
    forall u, c, b | KeepsOld(u, c, t, b) ensures '\n' in t && t[0] != '\n' {
      var d, e := Doc(1, false, u, c), Doc(2, false, t, b);
      EditKeepsRowIffSameHash(d, t, b);
      assert Hash(u, Body(d))[0] == u[0] && Hash(t, Body(e))[0] == t[0];
      if OneLine(t) { OneLineTitlesDetermine(u, Body(d), t, Body(e)); }
    }
    if '\n' in t && t[0] != '\n' {
      var at := FirstNewline(t);
      NewlineTitleKeepsOldPassages(t, at);
    }
  }

  // ---------------------------------------------------------------- indexing comes to an end

  predicate Lists(order: seq<string>, s: State) { forall id :: id in s.docs ==> id in order }

  /** The answer to a piece of work, with one usable vector a passage. */
  function AnswerTo(s: State, work: Work, vectors: seq<Vector>): Submission {
    Submission(work.id, work.sourceVersion, work.hash, s.model, vectors, true)
  }

  /** A piece of work handed out can be answered exactly when the document is within the embedder's limits. */
  lemma WorkIsAcceptedIffAnswerable(s: State, order: seq<string>, vectors: seq<Vector>)
    requires Inv(s) && NextWork(s, order).1.Some?
    requires |vectors| == |NextWork(s, order).1.value.passages|
    ensures var (t, work) := NextWork(s, order);
      && IsLive(t, work.value.id)
      && (Check(t, AnswerTo(t, work.value, vectors)).Accepted? <==> Answerable(t.docs[work.value.id]))
  {
    NextWorkOk(s, order);
    var (t, work) := NextWork(s, order);
    AnswerableIffPassagesFit(t.docs[work.value.id]);
  }

  /** One round: ask for work and, if there is some, answer it. */
  ghost predicate Round(s: State, t: State) {
    exists order, vectors :: Lists(order, s) && RoundWith(s, order, vectors, t)
  }

  ghost predicate RoundWith(s: State, order: seq<string>, vectors: seq<Vector>, t: State) {
    var (next, work) := NextWork(s, order);
    if work.None? then t == next
    else |vectors| == |work.value.passages| && t == Submit(next, AnswerTo(next, work.value, vectors))
  }

  /** Waiting for vectors that the embedder cannot give. */
  predicate Stuck(s: State, id: string) { Pending(s, id) && !Reusable(s, id) && !Answerable(s.docs[id]) }

  ghost predicate NoneStuck(s: State) { forall id :: id in s.docs ==> !Stuck(s, id) }

  lemma {:induction false} RefreshesKeepStuck(s: State, ids: seq<string>)
    ensures forall x :: Stuck(RefreshAll(s, ids), x) <==> Stuck(s, x)
    decreases |ids|
  {
    if |ids| > 0 && Refreshable(s, ids[0]) { RefreshesKeepStuck(Refresh(s, ids[0]), ids[1..]); }
  }

  lemma NextKeepsStuck(s: State, order: seq<string>)
    requires Inv(s)
    ensures forall x :: Stuck(NextWork(s, order).0, x) <==> Stuck(s, x)
  {
    DropDeletedOk(s);
    var ids := NextFromRefreshes(s, order, REFRESHES);
    RefreshesKeepStuck(s, ids);
  }

  lemma SubmitKeepsStuck(s: State, input: Submission)
    ensures forall x :: Stuck(Submit(s, input), x) <==> Stuck(s, x)
  {
    if Check(s, input).Accepted? { AnswerableIffPassagesFit(s.docs[input.id]); }
  }

  /** A round makes no document stuck and frees none. */
  lemma RoundKeepsStuck(s: State, t: State)
    requires Inv(s) && Round(s, t)
    ensures Inv(t) && t.docs == s.docs && forall x :: Stuck(t, x) <==> Stuck(s, x)
  {
    var order, vectors :| Lists(order, s) && RoundWith(s, order, vectors, t);
    NextWorkOk(s, order);
    NextKeepsStuck(s, order);
    var (next, work) := NextWork(s, order);
    if work.Some? {
      SubmitOk(next, AnswerTo(next, work.value, vectors));
      SubmitKeepsStuck(next, AnswerTo(next, work.value, vectors));
    }
  }

  /** While nothing is stuck, a round lowers the number of pending documents or leaves none. */
  lemma RoundLowersPending(s: State, t: State)
    requires Inv(s) && NoneStuck(s) && Round(s, t)
    ensures PendingIds(t) == {} || |PendingIds(t)| < |PendingIds(s)|
  {
    var order, vectors :| Lists(order, s) && RoundWith(s, order, vectors, t);
    NextWorkOk(s, order);
    var (next, work) := NextWork(s, order);
    if work.Some? {
      NextKeepsStuck(s, order);
      assert !Stuck(s, work.value.id);
      WorkIsAcceptedIffAnswerable(s, order, vectors);
      SubmitOk(next, AnswerTo(next, work.value, vectors));
      SmallerSet(PendingIds(t), PendingIds(next), PendingIds(s), work.value.id);
    } else if forall x :: x in order ==> !Pending(next, x) {
      assert PendingIds(t) == {};
    }
  }

  lemma SmallerSet(a: set<string>, b: set<string>, c: set<string>, x: string)
    requires a == b - {x} && x in b && b <= c
    ensures |a| < |c|
  {
    assert c == b + (c - b);
  }

  ghost predicate Rounds(states: seq<State>) {
    |states| > 0 && Inv(states[0]) && forall i :: 0 <= i < |states| - 1 ==> Round(states[i], states[i + 1])
  }

  lemma RoundsTail(states: seq<State>)
    requires Rounds(states) && |states| > 1
    ensures Rounds(states[1..]) && Inv(states[1]) && forall x :: Stuck(states[1], x) <==> Stuck(states[0], x)
    ensures states[1].docs == states[0].docs
  {
    assert Round(states[0], states[1]);
    RoundKeepsStuck(states[0], states[1]);
    var rest := states[1..];
    forall i | 0 <= i < |rest| - 1 ensures Round(rest[i], rest[i + 1]) { assert Round(states[i + 1], states[i + 2]); }
  }

  lemma {:induction false} StuckStays(states: seq<State>, id: string)
    requires Rounds(states) && Stuck(states[0], id)
    ensures Stuck(states[|states| - 1], id)
    decreases |states|
  {
    if |states| > 1 {
      RoundsTail(states);
      StuckStays(states[1..], id);
    }
  }

  lemma {:induction false} NoneStuckFinishes(states: seq<State>)
    requires Rounds(states) && NoneStuck(states[0]) && |states| > |PendingIds(states[0])|
    ensures PendingIds(states[|states| - 1]) == {}
    decreases |states|
  {
    if |states| > 1 {
      RoundsTail(states);
      assert Round(states[0], states[1]);
      RoundLowersPending(states[0], states[1]);
      assert |PendingIds(states[1])| == 0 || |PendingIds(states[1])| < |PendingIds(states[0])|;
      NoneStuckFinishes(states[1..]);
    }
  }

  /** Without edits, as many rounds as there are pending documents leave none, exactly if none was stuck. */
  lemma RoundsFinishIffNoneStuck(states: seq<State>)
    requires Rounds(states) && |states| > |PendingIds(states[0])|
    ensures PendingIds(states[|states| - 1]) == {} <==> NoneStuck(states[0])
  {
    if NoneStuck(states[0]) {
      NoneStuckFinishes(states);
    } else {
      var id :| id in states[0].docs && Stuck(states[0], id);
      StuckStays(states, id);
      assert id in PendingIds(states[|states| - 1]);
    }
  }

  // ---------------------------------------------------------------- what a stuck document holds up

  /** Rounds that all ask in the same order, as they do while nothing is edited. */
  ghost predicate RoundsIn(states: seq<State>, order: seq<string>) {
    && |states| > 0 && Inv(states[0])
    && forall i :: 0 <= i < |states| - 1 ==> RoundIn(states[i], order, states[i + 1])
  }

  ghost predicate RoundIn(s: State, order: seq<string>, t: State) {
    exists vectors :: RoundWith(s, order, vectors, t)
  }

  /** A stuck document that comes first is handed out again and again, and nothing else is. */
  lemma UnanswerableBlocks(s: State, order: seq<string>, input: Submission)
    requires Inv(s) && FirstPending(s, order).Some? && Stuck(s, FirstPending(s, order).value)
    requires input.id == FirstPending(s, order).value
    ensures NextWork(s, order) == (s, Some(WorkFor(s, FirstPending(s, order).value)))
    ensures Submit(s, input) == s
  {
    DropDeletedOk(s);
    AnswerableIffPassagesFit(s.docs[input.id]);
  }

  lemma {:induction false} FirstPendingBefore(s: State, order: seq<string>, i: nat)
    requires i < |order| && Pending(s, order[i])
    ensures FirstPending(s, order).Some?
    ensures FirstPending(s, order).value in order[..i] || FirstPending(s, order).value == order[i]
  {
    if !Pending(s, order[0]) {
      FirstPendingBefore(s, order[1..], i - 1);
      assert order[1..][..i - 1] == order[1..i];
      assert order[..i] == [order[0]] + order[1..i];
    }
  }

  /** Neither work nor a refresh reaches what comes after a stuck document. */
  lemma {:induction false} NextStopsAtStuck(s: State, order: seq<string>, i: nat, id: string, attempts: nat)
    requires i < |order| && Stuck(s, order[i]) && Pending(s, id) && id !in order[..i]
    ensures var (t, work) := NextFrom(s, order, attempts);
      && t.docs == s.docs && Pending(t, id)
      && (work.Some? ==> work.value.id in order[..i] || work.value.id == order[i])
    decreases attempts
  {
    if attempts > 0 {
      FirstPendingBefore(s, order, i);
      var first := FirstPending(s, order).value;
      if Reusable(s, first) { NextStopsAtStuck(Refresh(s, first), order, i, id, attempts - 1); }
    }
  }

  lemma RoundStopsAtStuck(s: State, t: State, order: seq<string>, i: nat, id: string)
    requires Inv(s) && RoundIn(s, order, t)
    requires i < |order| && Stuck(s, order[i]) && Pending(s, id) && id !in order[..i]
    ensures Inv(t) && Stuck(t, order[i]) && Pending(t, id)
  {
    var vectors :| RoundWith(s, order, vectors, t);
    DropDeletedOk(s);
    NextWorkOk(s, order);
    NextKeepsStuck(s, order);
    NextStopsAtStuck(s, order, i, id, REFRESHES);
    var (next, work) := NextWork(s, order);
    if work.Some? {
      var input := AnswerTo(next, work.value, vectors);
      SubmitOk(next, input);
      SubmitKeepsStuck(next, input);
      AnswerableIffPassagesFit(next.docs[work.value.id]);
      assert Stuck(next, order[i]);
    }
  }

  /** However many rounds there are, whatever is pending after a stuck document stays pending. */
  lemma {:induction false} BehindStuckWaits(states: seq<State>, order: seq<string>, i: nat, id: string)
    requires RoundsIn(states, order) && i < |order| && Stuck(states[0], order[i])
    requires Pending(states[0], id) && id !in order[..i]
    ensures Pending(states[|states| - 1], id)
    decreases |states|
  {
    if |states| > 1 {
      assert RoundIn(states[0], order, states[1]);
      RoundStopsAtStuck(states[0], states[1], order, i, id);
      var rest := states[1..];
      forall k | 0 <= k < |rest| - 1 ensures RoundIn(rest[k], order, rest[k + 1]) {
        assert RoundIn(states[k + 1], order, states[k + 2]);
      }
      BehindStuckWaits(rest, order, i, id);
    }
  }

  function Blanks(n: nat): string { seq(n, i => ' ') }

  lemma {:induction false} BlanksTrimAway(n: nat)
    ensures TrimStart(Blanks(n)) == ""
  {
    if n > 0 {
      assert Blanks(n)[1..] == Blanks(n - 1);
      BlanksTrimAway(n - 1);
    }
  }

  /**
    A topic type with this label, which its schema admits; the projected text repeats the label before the
    description.
  */
  function BlankTopicType(description: string): Doc {
    Doc(1, false, Blanks(40001), Blanks(40001) + "\n" + description)
  }

  lemma BlankTopicTypeIsUnanswerable(description: string)
    ensures !Answerable(BlankTopicType(description))
  {
    var d := BlankTopicType(description);
    assert Body(d) == Blanks(EMBEDDING_TEXT_LIMIT);
    BlanksTrimAway(EMBEDDING_TEXT_LIMIT);
    AnswerableIffTextOrTitleFits(d);
  }

  /** Such a topic type, written last, keeps any other document waiting through any number of rounds. */
  lemma BlankTopicTypeBlocks(description: string, other: Doc, model: string, states: seq<State>)
    requires other.version == 0 && !other.deleted && RoundsIn(states, ["type", "other"])
    requires states[0] == State(map["type" := BlankTopicType(description), "other" := other], map[], model, 1)
    ensures Pending(states[|states| - 1], "other")
  {
    BlankTopicTypeIsUnanswerable(description);
    BehindStuckWaits(states, ["type", "other"], 0, "other");
  }
}
