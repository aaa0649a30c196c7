/** What each write leaves in the table and the index, when a page is refused, and the order of what it shows. */
module DocumentSearchOutcomes {
  import opened DocumentSearch
  import opened DocumentSearchProofs
  import opened Sorting
  import opened Wrappers

  // ---------------------------------------------------------------- writers

  predicate Free(s: State, row: nat) { row < |s.resources| ==> s.resources[row].None? }

  predicate Taken(s: State, row: nat) { row < |s.resources| && s.resources[row].Some? }

  /** The row now holds this, indexed at once by an upgraded writer and marked for the next refresh by a legacy one. */
  ghost predicate Landed(registry: Registry, s: State, t: State, row: nat, r: Option<Resource>, writer: Writer) {
    && row < |t.resources| && Shaped(t) && t.resources[row] == r && (t.dirty[row] <==> writer.Legacy?)
    && (writer.Upgraded? ==> t.index[row] == Project(registry, r))
    && (writer.Legacy? ==> t.index[row] == if row < |s.index| then s.index[row] else None)
  }

  ghost predicate SameRow(s: State, t: State, row: nat) {
    && row < |t.resources| && row < |s.resources| && Shaped(s) && Shaped(t)
    && t.resources[row] == s.resources[row] && t.index[row] == s.index[row] && t.dirty[row] == s.dirty[row]
  }

  ghost predicate OthersKept(s: State, t: State, row: nat, another: nat) {
    forall k :: 0 <= k < |s.resources| && k != row && k != another ==> SameRow(s, t, k)
  }

  /** One row was written: the version moved on by one, and every other row is as it was. */
  ghost predicate Wrote(registry: Registry, s: State, t: State, row: nat, r: Option<Resource>, writer: Writer) {
    && t.counter == s.counter + 1 && t.searchVersion == s.searchVersion
    && |t.resources| == (if row == |s.resources| then |s.resources| + 1 else |s.resources|)
    && Landed(registry, s, t, row, r, writer) && OthersKept(s, t, row, row)
  }

  /** An insert lands in a free row, an update and a removal in a taken one; otherwise nothing changes. */
  lemma WritesLand(registry: Registry, s: State, row: nat, r: Resource, writer: Writer)
    requires Shaped(s)
    ensures var t := Step(registry, s, Insert(row, r, writer));
      if row <= |s.resources| && Free(s, row) then Wrote(registry, s, t, row, Some(r), writer) else t == s
    ensures var t := Step(registry, s, Update(row, r, writer));
      if Taken(s, row) then Wrote(registry, s, t, row, Some(r), writer) else t == s
    ensures var t := Step(registry, s, Remove(row, writer));
      if Taken(s, row) then Wrote(registry, s, t, row, None, writer) else t == s
  {
  }

  /** An update that changes the row id writes both rows in one version. */
  lemma MoveLands(registry: Registry, s: State, from: nat, to: nat, r: Resource, writer: Writer)
    requires Shaped(s)
    ensures var t := Step(registry, s, Move(from, to, r, writer));
      if Taken(s, from) && to < |s.resources| && Free(s, to)
      then && t.counter == s.counter + 1 && |t.resources| == |s.resources|
           && Landed(registry, s, t, from, None, writer) && Landed(registry, s, t, to, Some(r), writer)
           && OthersKept(s, t, from, to)
      else t == s
  {
  }

  /** After any run a resource just written is found by its id, by whichever writer it was written. */
  lemma WrittenIsFound(registry: Registry, s: State, ops: seq<Op>, row: nat, r: Resource, writer: Writer,
                       readable: set<string>, order: Ordering)
    requires Inv(registry, s) && Taken(Run(registry, s, ops), row) && !r.deleted
    requires r.kind in QUERY_KINDS && r.kind in readable
    ensures var t := Step(registry, Step(registry, Run(registry, s, ops), Update(row, r, writer)), Query);
      && Shaped(t)
      && LiveHit(registry, r) in Found(t, ById(r.id, order), readable)
      && forall h :: h in Found(t, ById(r.id, order), readable) ==> h.id == r.id
  {
    var before := Run(registry, s, ops);
    var t := Step(registry, before, Update(row, r, writer));
    RunOk(registry, s, ops);
    WritesLand(registry, before, row, r, writer);
    StepOk(registry, before, Update(row, r, writer));
    QuerySeesProjection(registry, t);
    var u := Step(registry, t, Query);
    var o := ById(r.id, order);
    assert Run(registry, t, []) == t;
    QueryFindsExactlyTheMatches(registry, t, [], o, readable, LiveHit(registry, r));
    assert HitAt(registry, o, readable, u.resources, row, LiveHit(registry, r));
    forall h | h in Found(u, o, readable) ensures h.id == r.id {
      QueryFindsExactlyTheMatches(registry, t, [], o, readable, h);
    }
  }

  function ById(id: string, order: Ordering): Options {
    Options(Some(id), None, None, None, None, None, None, None, None, order, 10, 0, None, 0, 2000)
  }

  // ---------------------------------------------------------------- order

  /** The texts agree up to some place, where the first one ends or has the smaller character. */
  ghost predicate Smaller(a: string, b: string, n: nat) {
    n <= |a| && n < |b| && a[..n] == b[..n] && (n == |a| || a[n] < b[n])
  }

  lemma {:induction false} TextBeforeIff(a: string, b: string)
    ensures TextBefore(a, b) <==> exists n: nat :: Smaller(a, b, n)
  {
    if |a| == 0 && |b| > 0 {
      assert Smaller(a, b, 0);
    } else if |a| > 0 && |b| > 0 && a[0] != b[0] {
      assert a[0] < b[0] ==> Smaller(a, b, 0);
      forall n: nat | Smaller(a, b, n) ensures a[0] < b[0] {
        if n > 0 { assert a[..n][0] == b[..n][0]; }
      }
    } else if |a| > 0 && |b| > 0 {
      TextBeforeIff(a[1..], b[1..]);
      if n: nat :| Smaller(a[1..], b[1..], n) {
        assert a == [a[0]] + a[1..] && b == [b[0]] + b[1..];
        assert a[..n + 1] == [a[0]] + a[1..][..n] && b[..n + 1] == [b[0]] + b[1..][..n];
        assert Smaller(a, b, n + 1);
      }
      if n: nat :| Smaller(a, b, n) {
        assert a[..n][0] == a[0] || n == 0;
        if n > 0 {
          assert a[1..][..n - 1] == a[..n][1..] && b[1..][..n - 1] == b[..n][1..];
          assert Smaller(a[1..], b[1..], n - 1);
        }
      }
    }
  }

  /** Newest first, or by title in lower case, and by id among equals. */
  ghost predicate Ordered(order: Ordering, a: Hit, b: Hit) {
    match order
    case ByUpdate => a.updatedAt > b.updatedAt || (a.updatedAt == b.updatedAt && !TextBefore(b.id, a.id))
    case ByTitle =>
      && !TextBefore(Lower(b.title), Lower(a.title))
      && (Lower(a.title) == Lower(b.title) ==> !TextBefore(b.id, a.id))
  }

  lemma FoundInOrder(registry: Registry, s: State, o: Options, readable: set<string>, i: nat, k: nat)
    requires Inv(registry, s)
    requires Shaped(Step(registry, s, Query))
    requires i < k < |Found(Step(registry, s, Query), o, readable)|
    ensures var all := Found(Step(registry, s, Query), o, readable); Ordered(o.order, all[i], all[k])
  {
    var all := Found(Step(registry, s, Query), o, readable);
    assert Run(registry, s, []) == s;
    QueryFindsExactlyTheMatches(registry, s, [], o, readable, all[i]);
    assert !HitBefore(o.order, all[k], all[i]);
    TextOrder(Lower(all[i].title), Lower(all[k].title), "");
  }

  // ---------------------------------------------------------------- pages

  /** A page is refused exactly if it was asked for at another version; otherwise it names the version it shows. */
  lemma RefusedIffChanged(s: State, o: Options, readable: set<string>)
    requires Shaped(s)
    ensures var page := PageOf(s, o, readable);
      && (page.Err? <==> o.expectedVersion.Some? && o.expectedVersion.value != s.counter)
      && (page.Ok? ==>
            && page.value.version == s.counter && page.value.total == |Found(s, o, readable)|
            && |page.value.documents|
               == (if o.offset >= page.value.total then 0 else Min(o.limit, page.value.total - o.offset))
            && (page.value.nextOffset.Some? <==> o.offset + |page.value.documents| < page.value.total))
  {
    if !Askable(o, readable) { UnaskableFindsNothing(o, readable, s.resources, s.index); }
  }
}
