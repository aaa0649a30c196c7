/** Every clean row is indexed as its live resource, whoever wrote it, and paging neither skips nor repeats. */
module DocumentSearchProofs {
  import opened DocumentSearch
  import opened Permutations
  import opened Sorting
  import opened Wrappers

  // ---------------------------------------------------------------- the index agrees with the table

  /** Every row outside the dirty set has the entry its live resource projects to. */
  ghost predicate Agrees(registry: Registry, s: State) {
    forall row :: 0 <= row < |s.resources| && row < |s.dirty| && row < |s.index| && !s.dirty[row] ==>
      s.index[row] == Project(registry, s.resources[row])
  }

  ghost predicate Inv(registry: Registry, s: State) {
    Shaped(s) && (s.searchVersion >= SEARCH_VERSION ==> Agrees(registry, s))
  }

  lemma StepOk(registry: Registry, s: State, op: Op)
    requires Inv(registry, s)
    ensures Inv(registry, Step(registry, s, op))
  {
    if Fits(s, op) && op.Move? { MoveOk(registry, s, op); }
  }

  lemma MoveOk(registry: Registry, s: State, op: Op)
    requires Inv(registry, s) && op.Move? && Fits(s, op)
    ensures Inv(registry, Step(registry, s, op))
  {
    var moved := Put(s, op.from, None).(resources := s.resources[op.from := None][op.to := Some(op.resource)]);
    var once := Touch(registry, moved, op.from, op.writer);
    assert Step(registry, s, op) == Touch(registry, once, op.to, op.writer);
    assert Shaped(once) && once.resources == moved.resources;
  }

  ghost function Run(registry: Registry, s: State, ops: seq<Op>): (t: State)
    requires Shaped(s)
    ensures Shaped(t)
  {
    if |ops| == 0 then s
    else
      var before := Run(registry, s, ops[..|ops| - 1]);
      StepShape(registry, before, ops[|ops| - 1]);
      Step(registry, before, ops[|ops| - 1])
  }

  lemma StepShape(registry: Registry, s: State, op: Op)
    requires Shaped(s)
    ensures Shaped(Step(registry, s, op))
  {
  }

  lemma {:induction false} RunOk(registry: Registry, s: State, ops: seq<Op>)
    requires Inv(registry, s)
    ensures Inv(registry, Run(registry, s, ops))
  {
    if |ops| > 0 {
      RunOk(registry, s, ops[..|ops| - 1]);
      StepOk(registry, Run(registry, s, ops[..|ops| - 1]), ops[|ops| - 1]);
    }
  }

  /** Once the index has its version, any mix of upgraded and legacy writers leaves every clean row exact. */
  lemma CleanRowsAreExact(registry: Registry, s: State, ops: seq<Op>, row: nat)
    requires Inv(registry, s) && Run(registry, s, ops).searchVersion >= SEARCH_VERSION
    requires var t := Run(registry, s, ops); row < |t.resources| && !t.dirty[row]
    ensures var t := Run(registry, s, ops); t.index[row] == Project(registry, t.resources[row])
  {
    RunOk(registry, s, ops);
  }

  /** A query works on the projection of the whole table, even from an index of an older version. */
  lemma QuerySeesProjection(registry: Registry, s: State)
    requires Inv(registry, s)
    ensures var t := Step(registry, s, Query);
      && t.resources == s.resources && t.counter == s.counter && t.searchVersion >= SEARCH_VERSION
      && t.index == ProjectAll(registry, s.resources) && t.dirty == seq(|s.resources|, i => false)
  {
    var ensured := Ensure(registry, s);
    assert |ensured.index| == |s.resources|;
    assert forall row :: 0 <= row < |s.resources| ==> ensured.index[row] == Project(registry, s.resources[row]);
  }

  // ---------------------------------------------------------------- writers are indistinguishable

  predicate SameButWriter(a: Op, b: Op) {
    match a
    case Insert(row, r, _) => b.Insert? && b.row == row && b.resource == r
    case Update(row, r, _) => b.Update? && b.row == row && b.resource == r
    case Move(from, to, r, _) => b.Move? && b.from == from && b.to == to && b.resource == r
    case Remove(row, _) => b.Remove? && b.row == row
    case _ => b == a
  }

  lemma {:induction false} SameTable(registry: Registry, s: State, a: seq<Op>, b: seq<Op>)
    requires Shaped(s) && |a| == |b| && forall i :: 0 <= i < |a| ==> SameButWriter(a[i], b[i])
    ensures Run(registry, s, a).resources == Run(registry, s, b).resources
    ensures Run(registry, s, a).counter == Run(registry, s, b).counter
  {
    if |a| > 0 {
      var n := |a| - 1;
      SameTable(registry, s, a[..n], b[..n]);
      StepSameTable(registry, Run(registry, s, a[..n]), Run(registry, s, b[..n]), a[n], b[n]);
    }
  }

  lemma StepSameTable(registry: Registry, s: State, t: State, a: Op, b: Op)
    requires Shaped(s) && Shaped(t) && s.resources == t.resources && s.counter == t.counter && SameButWriter(a, b)
    ensures Step(registry, s, a).resources == Step(registry, t, b).resources
    ensures Step(registry, s, a).counter == Step(registry, t, b).counter
  {
  }

  /** No query can tell whether upgraded or legacy writers made the changes. */
  lemma WritersIndistinguishable(registry: Registry, s: State, a: seq<Op>, b: seq<Op>, o: Options,
                                 readable: set<string>)
    requires Inv(registry, s) && |a| == |b| && forall i :: 0 <= i < |a| ==> SameButWriter(a[i], b[i])
    ensures var x, y := Step(registry, Run(registry, s, a), Query), Step(registry, Run(registry, s, b), Query);
      x.index == y.index && PageOf(x, o, readable) == PageOf(y, o, readable)
  {
    RunOk(registry, s, a);
    RunOk(registry, s, b);
    SameTable(registry, s, a, b);
    QuerySeesProjection(registry, Run(registry, s, a));
    QuerySeesProjection(registry, Run(registry, s, b));
    SamePage(Step(registry, Run(registry, s, a), Query), Step(registry, Run(registry, s, b), Query), o, readable);
  }

  /** A page depends on the table, the index and the version only. */
  lemma SamePage(x: State, y: State, o: Options, readable: set<string>)
    requires x.resources == y.resources && x.index == y.index && x.counter == y.counter && |x.index| == |x.resources|
    ensures PageOf(x, o, readable) == PageOf(y, o, readable)
  {
    assert Found(x, o, readable) == Found(y, o, readable);
  }

  // ---------------------------------------------------------------- what a query finds

  predicate Says(r: Resource, name: string, value: string) { name in r.fields && r.fields[name] == value }

  /** The filter read off the live resource, without the index: workstream, parent and type are a Topic's only. */
  ghost predicate Finds(registry: Registry, o: Options, readable: set<string>, r: Resource) {
    && !r.deleted && r.kind in QUERY_KINDS && r.kind in readable
    && (o.id.Some? ==> o.id.value == r.id) && (o.kind.Some? ==> o.kind.value == r.kind)
    && (o.workstream.Some? ==> r.kind == "Topic" && o.workstream.value in r.workstreams)
    && (o.parent.Some? ==> r.kind == "Topic" && o.parent.value in r.parents)
    && (o.topicType.Some? ==> r.kind == "Topic" && Says(r, "topicType", o.topicType.value))
    && (o.status.Some? ==> Says(r, "status", o.status.value))
    && (o.updatedAfter.Some? ==> o.updatedAfter.value <= r.updatedAt)
    && (o.updatedBefore.Some? ==> r.updatedAt <= o.updatedBefore.value)
    && (o.query.Some? ==> Within(Lower(SearchText(registry, r) + "\n" + Title(r)), Lower(o.query.value)))
  }

  ghost predicate Within(text: string, piece: string) { exists a: string, b: string :: text == a + piece + b }

  lemma WithinIff(text: string, piece: string)
    ensures Contains(text, piece) <==> Within(text, piece)
  {
    if Contains(text, piece) {
      var at: nat :| at <= |text| && HoldsAt(text, piece, at);
      assert text == text[..at] + piece + text[at + |piece|..];
    }
    if a: string, b: string :| text == a + piece + b { assert HoldsAt(text, piece, |a|); }
  }

  lemma FindsIffSelected(registry: Registry, o: Options, readable: set<string>, row: Option<Resource>)
    requires row.Some?
    ensures Finds(registry, o, readable, row.value) <==>
            Selects(o, readable, row.value) && Mentions(Project(registry, row), o.query)
  {
    if o.query.Some? {
      WithinIff(Lower(SearchText(registry, row.value) + "\n" + Title(row.value)), Lower(o.query.value));
    }
  }

  function LiveHit(registry: Registry, r: Resource): Hit {
    Hit(r.id, r.kind, Title(r), SearchText(registry, r), r.updatedAt)
  }

  /** Row `i` holds a live resource that passes the filter, and `h` shows it. */
  ghost predicate HitAt(registry: Registry, o: Options, readable: set<string>, rows: seq<Option<Resource>>, i: nat,
                        h: Hit)
    requires i < |rows|
  {
    rows[i].Some? && Finds(registry, o, readable, rows[i].value) && h == LiveHit(registry, rows[i].value)
  }

  lemma {:induction false} MatchingIff(registry: Registry, o: Options, readable: set<string>,
                                       rows: seq<Option<Resource>>, h: Hit)
    ensures h in Matching(o, readable, rows, ProjectAll(registry, rows)) <==>
      exists i :: 0 <= i < |rows| && HitAt(registry, o, readable, rows, i, h)
  {
    if |rows| > 0 {
      var n := |rows| - 1;
      assert ProjectAll(registry, rows)[..n] == ProjectAll(registry, rows[..n]);
      MatchingIff(registry, o, readable, rows[..n], h);
      var front := Matching(o, readable, rows[..n], ProjectAll(registry, rows[..n]));
      if h in front {
        var i: nat :| i < n && HitAt(registry, o, readable, rows[..n], i, h);
        assert HitAt(registry, o, readable, rows, i, h);
      }
      if i: nat :| i < |rows| && HitAt(registry, o, readable, rows, i, h) {
        if i < n { assert HitAt(registry, o, readable, rows[..n], i, h); }
      }
      if rows[n].Some? { FindsIffSelected(registry, o, readable, rows[n]); }
      assert HitAt(registry, o, readable, rows, n, h) <==>
        rows[n].Some? && Finds(registry, o, readable, rows[n].value) && h == LiveHit(registry, rows[n].value);
    }
  }

  lemma {:induction false} TextOrder(a: string, b: string, c: string)
    ensures TextBefore(a, b) ==> !TextBefore(b, a)
    ensures TextBefore(a, c) ==> TextBefore(a, b) || TextBefore(b, c)
    ensures TextBefore(a, b) || TextBefore(b, a) || a == b
  {
    if |a| > 0 && |b| > 0 && |c| > 0 { TextOrder(a[1..], b[1..], c[1..]); }
    else if |a| > 0 && |b| > 0 { TextOrder(a[1..], b[1..], ""); }
    if |a| > 0 && |b| > 0 { assert a == [a[0]] + a[1..] && b == [b[0]] + b[1..]; }
  }

  lemma HitOrder(order: Ordering)
    ensures Order((a: Hit, b: Hit) => HitBefore(order, a, b))
  {
    forall a: Hit, b: Hit | HitBefore(order, a, b) ensures !HitBefore(order, b, a) {
      TextOrder(a.id, b.id, a.id);
      TextOrder(Lower(a.title), Lower(b.title), "");
    }
    forall a: Hit, b: Hit, c: Hit | HitBefore(order, a, c) ensures HitBefore(order, a, b) || HitBefore(order, b, c) {
      HitOrderStep(order, a, b, c);
    }
  }

  lemma HitOrderStep(order: Ordering, a: Hit, b: Hit, c: Hit)
    requires HitBefore(order, a, c)
    ensures HitBefore(order, a, b) || HitBefore(order, b, c)
  {
    TextOrder(a.id, b.id, c.id);
    TextOrder(Lower(a.title), Lower(b.title), Lower(c.title));
    TextOrder(Lower(b.title), Lower(c.title), Lower(a.title));
  }

  /** A query finds exactly the live resources that pass the filter, in order. */
  lemma QueryFindsExactlyTheMatches(registry: Registry, s: State, ops: seq<Op>, o: Options, readable: set<string>,
                                    h: Hit)
    requires Inv(registry, s)
    ensures var t := Step(registry, Run(registry, s, ops), Query);
      && Sorted((a: Hit, b: Hit) => HitBefore(o.order, a, b), Found(t, o, readable))
      && (h in Found(t, o, readable) <==>
          exists i :: 0 <= i < |t.resources| && HitAt(registry, o, readable, t.resources, i, h))
  {
    RunOk(registry, s, ops);
    QuerySeesProjection(registry, Run(registry, s, ops));
    var t := Step(registry, Run(registry, s, ops), Query);
    var all := Matching(o, readable, t.resources, t.index);
    HitOrder(o.order);
    SortSorts((a: Hit, b: Hit) => HitBefore(o.order, a, b), all);
    assert h in all <==> h in multiset(all);
    assert h in Found(t, o, readable) <==> h in multiset(Found(t, o, readable));
    MatchingIff(registry, o, readable, t.resources, h);
  }

  // ---------------------------------------------------------------- paging

  /** A slice and what follows it. */
  lemma SliceThenRest<T>(items: seq<T>, offset: nat, limit: nat)
    requires offset <= |items|
    ensures Slice(items, offset, limit) + items[Min(offset + limit, |items|)..] == items[offset..]
    ensures |Slice(items, offset, limit)| == Min(limit, |items| - offset)
  {
  }

  /** The whole body, read on from each `nextBodyOffset`. */
  function ReadOn(o: Options, hit: Hit): string
    requires o.bodyLimit > 0
    decreases |hit.body| - o.bodyOffset
  {
    var d := Shown(o, hit);
    if d.nextBodyOffset.None? then d.body else d.body + ReadOn(o.(bodyOffset := d.nextBodyOffset.value), hit)
  }

  lemma {:induction false} BodyReadWhole(o: Options, hit: Hit)
    requires o.bodyLimit > 0 && o.bodyOffset <= |hit.body|
    ensures ReadOn(o, hit) == hit.body[o.bodyOffset..]
    decreases |hit.body| - o.bodyOffset
  {
    SliceThenRest(hit.body, o.bodyOffset, o.bodyLimit);
    var next := o.bodyOffset + o.bodyLimit;
    if next < |hit.body| { BodyReadWhole(o.(bodyOffset := next), hit); }
  }

  /** The query asked again for a later page of the same version. */
  function Ask(o: Options, offset: nat, version: nat): Options {
    o.(offset := offset, expectedVersion := Some(version))
  }

  /**
    Page `i` was answered in the run's state after `at[i]` steps, each page asked for at the offset the last one
    named.
  */
  ghost predicate Paged(registry: Registry, s: State, ops: seq<Op>, o: Options, readable: set<string>, at: seq<nat>,
                        pages: seq<Page>)
    requires Shaped(s)
  {
    && |at| == |pages| > 0 && o.limit > 0
    && (forall i :: 0 <= i < |at| ==> at[i] <= |ops|)
    && (forall i, k :: 0 <= i < k < |at| ==> at[i] <= at[k])
    && (forall i :: 0 <= i < |pages| ==> PagedAt(registry, s, ops, o, readable, at, pages, i))
  }

  function OffsetOf(pages: seq<Page>, i: nat): Option<nat>
    requires i <= |pages|
  {
    if i == 0 then Some(0) else pages[i - 1].nextOffset
  }

  ghost predicate PagedAt(registry: Registry, s: State, ops: seq<Op>, o: Options, readable: set<string>, at: seq<nat>,
                          pages: seq<Page>, i: nat)
    requires Shaped(s) && i < |pages| == |at| && at[i] <= |ops|
  {
    && OffsetOf(pages, i).Some?
    && PageOf(Step(registry, Run(registry, s, ops[..at[i]]), Query),
              Ask(o, OffsetOf(pages, i).value, pages[0].version), readable)
       == Ok(pages[i])
  }

  function AllDocuments(pages: seq<Page>): seq<Document> {
    if |pages| == 0 then [] else AllDocuments(pages[..|pages| - 1]) + pages[|pages| - 1].documents
  }

  lemma {:induction false} CounterGrows(registry: Registry, s: State, ops: seq<Op>, i: nat, k: nat)
    requires Shaped(s) && i <= k <= |ops|
    ensures Run(registry, s, ops[..i]).counter <= Run(registry, s, ops[..k]).counter
    ensures Run(registry, s, ops[..i]).counter == Run(registry, s, ops[..k]).counter ==>
      Run(registry, s, ops[..i]).resources == Run(registry, s, ops[..k]).resources
    decreases k
  {
    if i < k {
      assert ops[..k][..k - 1] == ops[..k - 1];
      CounterGrows(registry, s, ops, i, k - 1);
      StepCounts(registry, Run(registry, s, ops[..k - 1]), ops[k - 1]);
    }
  }

  lemma StepCounts(registry: Registry, s: State, op: Op)
    requires Shaped(s)
    ensures var t := Step(registry, s, op);
      t.counter > s.counter || (t.counter == s.counter && t.resources == s.resources)
  {
  }

  /** The state page `i` was answered from finds what the first page's state finds. */
  lemma SameVersionSameFinds(registry: Registry, s: State, ops: seq<Op>, o: Options, readable: set<string>,
                             at: seq<nat>, pages: seq<Page>, i: nat)
    requires Inv(registry, s) && Paged(registry, s, ops, o, readable, at, pages) && i < |pages|
    ensures var first := Step(registry, Run(registry, s, ops[..at[0]]), Query);
      var t := Step(registry, Run(registry, s, ops[..at[i]]), Query);
      Found(t, o, readable) == Found(first, o, readable)
  {
    RunOk(registry, s, ops[..at[0]]);
    RunOk(registry, s, ops[..at[i]]);
    QuerySeesProjection(registry, Run(registry, s, ops[..at[0]]));
    QuerySeesProjection(registry, Run(registry, s, ops[..at[i]]));
    assert PagedAt(registry, s, ops, o, readable, at, pages, 0);
    assert PagedAt(registry, s, ops, o, readable, at, pages, i);
    CounterGrows(registry, s, ops, at[0], at[i]);
  }

  predicate Askable(o: Options, readable: set<string>) {
    exists kind :: kind in QUERY_KINDS && KindAllowed(o, readable, kind)
  }

  /** Without a readable kind nothing passes the filter, which is what the early return assumes. */
  lemma {:induction false} UnaskableFindsNothing(o: Options, readable: set<string>, rows: seq<Option<Resource>>,
                                                 index: seq<Option<Entry>>)
    requires |rows| == |index| && !Askable(o, readable)
    ensures Matching(o, readable, rows, index) == []
  {
    if |rows| > 0 { UnaskableFindsNothing(o, readable, rows[..|rows| - 1], index[..|rows| - 1]); }
  }

  /** A page is the slice of what the query finds at its offset, whether or not there was a kind to look at. */
  lemma PageIsSlice(s: State, o: Options, readable: set<string>, offset: nat, version: nat, page: Page)
    requires Shaped(s) && PageOf(s, Ask(o, offset, version), readable) == Ok(page)
    ensures var all := Found(s, o, readable);
      && page.documents == ShowAll(o, Slice(all, offset, o.limit)) && page.total == |all|
      && page.nextOffset == (if offset + |Slice(all, offset, o.limit)| < |all|
                             then Some(offset + |Slice(all, offset, o.limit)|) else None)
  {
    var asked := Ask(o, offset, version);
    SameFilter(o, offset, version, readable, s.resources, s.index);
    if !Askable(o, readable) {
      UnaskableFindsNothing(o, readable, s.resources, s.index);
      assert !exists kind :: kind in QUERY_KINDS && KindAllowed(asked, readable, kind);
    } else {
      var kind :| kind in QUERY_KINDS && KindAllowed(o, readable, kind);
      assert KindAllowed(asked, readable, kind);
    }
    SameShow(o, asked, Slice(Found(s, o, readable), offset, o.limit));
  }

  lemma {:induction false} SameFilter(o: Options, offset: nat, version: nat, readable: set<string>,
                                      rows: seq<Option<Resource>>, index: seq<Option<Entry>>)
    requires |rows| == |index|
    ensures Matching(Ask(o, offset, version), readable, rows, index) == Matching(o, readable, rows, index)
    ensures forall kind :: KindAllowed(Ask(o, offset, version), readable, kind) == KindAllowed(o, readable, kind)
  {
    if |rows| > 0 { SameFilter(o, offset, version, readable, rows[..|rows| - 1], index[..|rows| - 1]); }
  }

  lemma SameShow(o: Options, p: Options, hits: seq<Hit>)
    requires o.bodyOffset == p.bodyOffset && o.bodyLimit == p.bodyLimit
    ensures ShowAll(o, hits) == ShowAll(p, hits)
  {
  }

  /** The pages up to `n` hold the list up to where the next one starts. */
  lemma {:induction false} PagesSoFar(registry: Registry, s: State, ops: seq<Op>, o: Options, readable: set<string>,
                                      at: seq<nat>, pages: seq<Page>, n: nat)
    requires Inv(registry, s) && Paged(registry, s, ops, o, readable, at, pages) && n <= |pages|
    ensures var all := Found(Step(registry, Run(registry, s, ops[..at[0]]), Query), o, readable);
      && (OffsetOf(pages, n).Some? ==>
            OffsetOf(pages, n).value <= |all| && (n > 0 ==> OffsetOf(pages, n).value < |all|))
      && AllDocuments(pages[..n])
         == ShowAll(o, all[..if OffsetOf(pages, n).Some? then OffsetOf(pages, n).value else |all|])
  {
    if n > 0 {
      PagesSoFar(registry, s, ops, o, readable, at, pages, n - 1);
      PageHolds(registry, s, ops, o, readable, at, pages, n - 1);
      assert pages[..n][..n - 1] == pages[..n - 1];
    }
  }

  /** Page `i` is the slice of the first page's list at its own offset. */
  lemma PageHolds(registry: Registry, s: State, ops: seq<Op>, o: Options, readable: set<string>, at: seq<nat>,
                  pages: seq<Page>, i: nat)
    requires Inv(registry, s) && Paged(registry, s, ops, o, readable, at, pages) && i < |pages|
    requires OffsetOf(pages, i).Some? ==>
      OffsetOf(pages, i).value <= |Found(Step(registry, Run(registry, s, ops[..at[0]]), Query), o, readable)|
    ensures var all := Found(Step(registry, Run(registry, s, ops[..at[0]]), Query), o, readable);
      && OffsetOf(pages, i).Some?
      && var offset := OffsetOf(pages, i).value;
      var next := if pages[i].nextOffset.Some? then pages[i].nextOffset.value else |all|;
      && offset <= next <= |all| && (pages[i].nextOffset.Some? ==> next < |all|)
      && ShowAll(o, all[..offset]) + pages[i].documents == ShowAll(o, all[..next])
  {
    assert PagedAt(registry, s, ops, o, readable, at, pages, i);
    SameVersionSameFinds(registry, s, ops, o, readable, at, pages, i);
    var t := Step(registry, Run(registry, s, ops[..at[i]]), Query);
    PageIsSlice(t, o, readable, OffsetOf(pages, i).value, pages[0].version, pages[i]);
    OnePageMore(o, Found(t, o, readable), OffsetOf(pages, i).value);
  }

  lemma OnePageMore(o: Options, all: seq<Hit>, offset: nat)
    requires offset <= |all|
    ensures var rows := Slice(all, offset, o.limit);
      && offset + |rows| <= |all|
      && ShowAll(o, all[..offset]) + ShowAll(o, rows) == ShowAll(o, all[..offset + |rows|])
  {
    var rows := Slice(all, offset, o.limit);
    assert all[..offset + |rows|] == all[..offset] + rows;
  }

  // ---------------------------------------------------------------- no document twice

  /** The table's primary key. */
  ghost predicate DistinctRows(rows: seq<Option<Resource>>) {
    forall i, k :: 0 <= i < k < |rows| && rows[i].Some? && rows[k].Some? ==> rows[i].value.id != rows[k].value.id
  }

  function HitId(h: Hit): string { h.id }

  lemma {:induction false} MatchingDistinct(o: Options, readable: set<string>, rows: seq<Option<Resource>>,
                                            index: seq<Option<Entry>>)
    requires |rows| == |index| && DistinctRows(rows)
    ensures var hits := Matching(o, readable, rows, index);
      && DistinctBy(HitId, hits)
      && forall h :: h in hits ==> exists i :: 0 <= i < |rows| && rows[i].Some? && rows[i].value.id == h.id
  {
    if |rows| > 0 {
      var n := |rows| - 1;
      MatchingDistinct(o, readable, rows[..n], index[..n]);
      forall h | h in Matching(o, readable, rows[..n], index[..n])
        ensures exists i :: 0 <= i < n && rows[i].Some? && rows[i].value.id == h.id
      {
        var i :| 0 <= i < n && rows[..n][i].Some? && rows[..n][i].value.id == h.id;
        assert rows[i].value.id == h.id;
      }
    }
  }

  /** A query finds no document twice. */
  lemma FoundDistinct(s: State, o: Options, readable: set<string>)
    requires Shaped(s) && DistinctRows(s.resources)
    ensures DistinctBy(HitId, Found(s, o, readable))
  {
    var all := Matching(o, readable, s.resources, s.index);
    MatchingDistinct(o, readable, s.resources, s.index);
    HitOrder(o.order);
    SortSorts((a: Hit, b: Hit) => HitBefore(o.order, a, b), all);
    PermutedDistinct(HitId, Found(s, o, readable), all);
  }

  function DocumentId(d: Document): string { d.hit.id }

  /**
    Pages of one version, read to the end while others write, are together what the first page's state finds,
    and, row ids being distinct, each document is on them once.
  */
  lemma PagingIsWhole(registry: Registry, s: State, ops: seq<Op>, o: Options, readable: set<string>, at: seq<nat>,
                      pages: seq<Page>)
    requires Inv(registry, s) && Paged(registry, s, ops, o, readable, at, pages) && pages[|pages| - 1].nextOffset.None?
    ensures var first := Step(registry, Run(registry, s, ops[..at[0]]), Query);
      && AllDocuments(pages) == ShowAll(o, Found(first, o, readable))
      && (DistinctRows(first.resources) ==> DistinctBy(DocumentId, AllDocuments(pages)))
  {
    PagesSoFar(registry, s, ops, o, readable, at, pages, |pages|);
    assert pages[..|pages|] == pages;
    var first := Step(registry, Run(registry, s, ops[..at[0]]), Query);
    var all := Found(first, o, readable);
    assert all[..|all|] == all;
    RunOk(registry, s, ops[..at[0]]);
    if DistinctRows(first.resources) { FoundDistinct(first, o, readable); }
  }
}
