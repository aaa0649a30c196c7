/**
  The card's tree is a finite forest that shows a topic at most once, and exactly once iff it is near enough to
  a root.
*/
module TopicTreeProofs {
  import opened Wrappers
  import opened TopicTree

  ghost predicate Distinct(s: seq<string>) { forall i, k :: 0 <= i < k < |s| ==> s[i] != s[k] }

  function Parent(members: seq<Member>, ids: seq<string>, id: string): Option<string> {
    if |members| == 0 then None
    else
      var m := members[|members| - 1];
      if m.id != "" && m.id == id then FirstInSet(m.parents, m.id, ids) else Parent(members[..|members| - 1], ids, id)
  }

  function ParentOf(members: seq<Member>, id: string): Option<string> { Parent(members, Ids(members), id) }

  /** `id` is on the card and reaches a root by following parents `n` times. */
  predicate Steps(members: seq<Member>, id: string, n: nat)
    decreases n
  {
    && id in Ids(members)
    && if n == 0 then ParentOf(members, id).None?
       else ParentOf(members, id).Some? && Steps(members, ParentOf(members, id).value, n - 1)
  }

  ghost predicate Shallow(members: seq<Member>, id: string, limit: nat) {
    exists n: nat :: n <= limit && Steps(members, id, n)
  }

  /** The ancestor `k` parents up. */
  function Up(members: seq<Member>, id: string, k: nat): Option<string>
    decreases k
  {
    if k == 0 then Some(id)
    else match ParentOf(members, id) case None => None case Some(p) => Up(members, p, k - 1)
  }

  // ---------------------------------------------------------------- parents and children

  lemma {:induction false} BelowIff(members: seq<Member>, ids: seq<string>, parent: Option<string>, x: string)
    requires Distinct(Ids(members))
    ensures x in Below(members, ids, parent) <==> x in Ids(members) && Parent(members, ids, x) == parent
  {
    if |members| > 0 {
      var front, m := members[..|members| - 1], members[|members| - 1];
      DistinctPrefix(members);
      BelowIff(front, ids, parent, x);
      if m.id != "" { LastIsNew(members); }
    }
  }

  lemma DistinctPrefix(members: seq<Member>)
    requires |members| > 0 && Distinct(Ids(members))
    ensures Distinct(Ids(members[..|members| - 1]))
  {
    var before := Ids(members[..|members| - 1]);
    assert Ids(members)[..|before|] == before;
    forall i, k | 0 <= i < k < |before| ensures before[i] != before[k] { assert Ids(members)[i] != Ids(members)[k]; }
  }

  lemma LastIsNew(members: seq<Member>)
    requires |members| > 0 && Distinct(Ids(members)) && members[|members| - 1].id != ""
    ensures members[|members| - 1].id !in Ids(members[..|members| - 1])
  {
    var before := Ids(members[..|members| - 1]);
    var all := Ids(members);
    assert all == before + [members[|members| - 1].id];
    forall i | 0 <= i < |before| ensures before[i] != members[|members| - 1].id {
      assert all[i] != all[|before|];
    }
  }

  lemma {:induction false} BelowDistinct(members: seq<Member>, ids: seq<string>, parent: Option<string>)
    requires Distinct(Ids(members))
    ensures Distinct(Below(members, ids, parent))
  {
    if |members| > 0 {
      var front, m := members[..|members| - 1], members[|members| - 1];
      DistinctPrefix(members);
      BelowDistinct(front, ids, parent);
      if m.id != "" {
        LastIsNew(members);
        BelowIff(front, ids, parent, m.id);
      }
    }
  }

  lemma ChildIff(members: seq<Member>, id: string, x: string)
    requires Distinct(Ids(members))
    ensures x in ChildrenOf(members, id) <==> x in Ids(members) && ParentOf(members, x) == Some(id)
  {
    BelowIff(members, Ids(members), Some(id), x);
  }

  lemma RootIff(members: seq<Member>, x: string)
    requires Distinct(Ids(members))
    ensures x in Roots(members) <==> Steps(members, x, 0)
  {
    BelowIff(members, Ids(members), None, x);
  }

  lemma ChildStep(members: seq<Member>, id: string, x: string, n: nat)
    requires Distinct(Ids(members)) && x in ChildrenOf(members, id) && Steps(members, id, n)
    ensures Steps(members, x, n + 1)
  {
    ChildIff(members, id, x);
  }

  lemma {:induction false} StepsUnique(members: seq<Member>, id: string, n: nat, m: nat)
    requires Steps(members, id, n) && Steps(members, id, m)
    ensures n == m
    decreases n
  {
    if n > 0 && m > 0 { StepsUnique(members, ParentOf(members, id).value, n - 1, m - 1); }
  }

  lemma {:induction false} UpAdds(members: seq<Member>, x: string, id: string, k: nat, n: nat)
    requires x in Ids(members) && Up(members, x, k) == Some(id) && Steps(members, id, n)
    ensures Steps(members, x, n + k)
    decreases k
  {
    if k > 0 {
      var p := ParentOf(members, x).value;
      ParentOnCard(members, Ids(members), x);
      UpAdds(members, p, id, k - 1, n);
    }
  }

  lemma {:induction false} ParentOnCard(members: seq<Member>, ids: seq<string>, x: string)
    requires Parent(members, ids, x).Some?
    ensures Parent(members, ids, x).value in ids
  {
    if |members| > 0 && !(members[|members| - 1].id == x != "") { ParentOnCard(members[..|members| - 1], ids, x); }
  }

  /** The ancestor `k` steps up, reached by first going `k - 1` steps. */
  lemma {:induction false} UpLast(members: seq<Member>, x: string, id: string, k: nat)
    requires x in Ids(members) && Up(members, x, k + 1) == Some(id)
    ensures Up(members, x, k).Some? && Up(members, x, k).value in Ids(members)
    ensures ParentOf(members, Up(members, x, k).value) == Some(id)
    decreases k
  {
    if k > 0 {
      ParentOnCard(members, Ids(members), x);
      UpLast(members, ParentOf(members, x).value, id, k - 1);
    }
  }

  lemma {:induction false} RootOf(members: seq<Member>, x: string, n: nat)
    requires Steps(members, x, n)
    ensures Up(members, x, n).Some? && Steps(members, Up(members, x, n).value, 0)
    decreases n
  {
    if n > 0 { RootOf(members, ParentOf(members, x).value, n - 1); }
  }

  // ---------------------------------------------------------------- what attach assigns

  ghost predicate Sound(members: seq<Member>, panels: Links) {
    forall x :: x in panels ==> panels[x] == ChildrenOf(members, x) && Shallow(members, x, MAX_TOPIC_DEPTH - 2)
  }

  ghost predicate Full(members: seq<Member>, panels: Links, x: string) { Kids(panels, x) == ChildrenOf(members, x) }

  /** Everything hanging below `id` and above the cut has its children. */
  ghost predicate Covers(members: seq<Member>, panels: Links, id: string, depth: nat) {
    forall x, k: nat :: x in Ids(members) && Up(members, x, k) == Some(id) && depth + k < MAX_TOPIC_DEPTH ==>
      Full(members, panels, x)
  }

  ghost predicate PathShallow(members: seq<Member>, path: set<string>, limit: nat) {
    forall x :: x in path ==> Shallow(members, x, limit)
  }

  /** A full panel stays full. */
  ghost predicate Keeps(members: seq<Member>, p: Links, q: Links) {
    forall x :: Full(members, p, x) ==> Full(members, q, x)
  }

  /** A child lies one step further from the root than anything on the path, so the path never filters it out. */
  lemma PathNeverFilters(members: seq<Member>, id: string, path: set<string>, depth: nat)
    requires Distinct(Ids(members)) && depth > 0 && Steps(members, id, depth - 1)
    requires PathShallow(members, path, depth - 1)
    ensures NotIn(ChildrenOf(members, id), path) == ChildrenOf(members, id)
  {
    forall x | x in ChildrenOf(members, id) ensures x !in path {
      ChildStep(members, id, x, depth - 1);
      if Shallow(members, x, depth - 1) {
        var n: nat :| n <= depth - 1 && Steps(members, x, n);
        StepsUnique(members, x, n, depth);
        assert false;
      }
    }
    NotInNone(ChildrenOf(members, id), path);
  }

  lemma {:induction false} NotInNone(kids: seq<string>, path: set<string>)
    requires forall x :: x in kids ==> x !in path
    ensures NotIn(kids, path) == kids
  {
    if |kids| > 0 {
      NotInNone(kids[..|kids| - 1], path);
      assert kids == kids[..|kids| - 1] + [kids[|kids| - 1]];
    }
  }

  lemma {:induction false} AttachOk(members: seq<Member>, panels: Links, id: string, path: set<string>, depth: nat)
    requires Distinct(Ids(members)) && Sound(members, panels)
    requires depth > 0 && Steps(members, id, depth - 1) && PathShallow(members, path, depth - 1)
    ensures var q := Attach(members, panels, id, path, depth);
      Sound(members, q) && Keeps(members, panels, q) && Covers(members, q, id, depth)
    decreases MAX_TOPIC_DEPTH - depth, 0
  {
    if depth < MAX_TOPIC_DEPTH {
      var q := Attach(members, panels, id, path, depth);
      var kids := ChildrenOf(members, id);
      PathNeverFilters(members, id, path, depth);
      if |kids| == 0 {
        CoversByKids(members, panels, id, depth);
      } else {
        var started := panels[id := kids];
        assert Shallow(members, id, MAX_TOPIC_DEPTH - 2);
        assert Sound(members, started) && Keeps(members, panels, started) && Full(members, started, id);
        PathDeeper(members, path, depth - 1);
        forall y | y in kids ensures Steps(members, y, depth) { ChildStep(members, id, y, depth - 1); }
        AttachEachOk(members, started, kids, path, depth + 1);
        assert q == AttachEach(members, started, kids, path, depth + 1);
        CoversByKids(members, q, id, depth);
      }
    }
  }

  lemma PathDeeper(members: seq<Member>, path: set<string>, limit: nat)
    requires PathShallow(members, path, limit)
    ensures PathShallow(members, path, limit + 1)
  {
    forall x | x in path ensures Shallow(members, x, limit + 1) {
      var n: nat :| n <= limit && Steps(members, x, n);
    }
  }

  /** What hangs below `id` is `id` itself or hangs below one of its children. */
  lemma CoversByKids(members: seq<Member>, q: Links, id: string, depth: nat)
    requires Distinct(Ids(members)) && Full(members, q, id)
    requires forall y :: y in ChildrenOf(members, id) ==> Covers(members, q, y, depth + 1)
    ensures Covers(members, q, id, depth)
  {
    forall x, k: nat | x in Ids(members) && Up(members, x, k) == Some(id) && depth + k < MAX_TOPIC_DEPTH
      ensures Full(members, q, x)
    {
      if k > 0 {
        UpLast(members, x, id, k - 1);
        var y := Up(members, x, k - 1).value;
        ChildIff(members, id, y);
        assert Covers(members, q, y, depth + 1);
      }
    }
  }

  lemma {:induction false} AttachEachOk(members: seq<Member>, panels: Links, kids: seq<string>, path: set<string>,
                                        depth: nat)
    requires Distinct(Ids(members)) && Sound(members, panels)
    requires 0 < depth <= MAX_TOPIC_DEPTH && PathShallow(members, path, depth - 1)
    requires forall y :: y in kids ==> Steps(members, y, depth - 1)
    ensures var q := AttachEach(members, panels, kids, path, depth);
      && Sound(members, q) && Keeps(members, panels, q)
      && (forall y :: y in kids ==> Covers(members, q, y, depth))
    decreases MAX_TOPIC_DEPTH - depth, 1 + |kids|
  {
    if |kids| > 0 {
      var front, last := kids[..|kids| - 1], kids[|kids| - 1];
      var before := AttachEach(members, panels, front, path, depth);
      assert kids == front + [last];
      assert last in kids && forall y :: y in front ==> y in kids;
      AttachEachOk(members, panels, front, path, depth);
      assert Shallow(members, last, depth - 1);
      AttachOk(members, before, last, path + {last}, depth);
    }
  }

  /** Every panel above the cut lists exactly the topics filed under it, every other panel lists none. */
  lemma ForestIsExact(members: seq<Member>, x: string)
    requires Distinct(Ids(members))
    ensures Kids(Forest(members), x) == if Shallow(members, x, MAX_TOPIC_DEPTH - 2) then ChildrenOf(members, x) else []
  {
    forall r | r in Roots(members) ensures Steps(members, r, 0) { RootIff(members, r); }
    AttachEachOk(members, map[], Roots(members), {}, 1);
    if Shallow(members, x, MAX_TOPIC_DEPTH - 2) {
      var n: nat :| n <= MAX_TOPIC_DEPTH - 2 && Steps(members, x, n);
      RootOf(members, x, n);
      RootIff(members, Up(members, x, n).value);
      assert Covers(members, Forest(members), Up(members, x, n).value, 1);
    }
  }

  // ---------------------------------------------------------------- the rows shown

  /** `x` hangs at most `fuel` levels below `id`, itself `n` steps from its root, and above the cut. */
  ghost predicate Hangs(members: seq<Member>, x: string, id: string, fuel: nat, n: nat) {
    x in Ids(members) && exists k: nat :: k <= fuel && n + k < MAX_TOPIC_DEPTH && Up(members, x, k) == Some(id)
  }

  ghost predicate HangsBelowOne(members: seq<Member>, x: string, ids: seq<string>, fuel: nat, n: nat) {
    exists y :: y in ids && Hangs(members, x, y, fuel, n)
  }

  lemma {:induction false} RowsOk(members: seq<Member>, id: string, fuel: nat, n: nat)
    requires Distinct(Ids(members)) && Steps(members, id, n) && n < MAX_TOPIC_DEPTH
    ensures var rows := Rows(Forest(members), id, fuel);
      Distinct(rows) && forall x :: x in rows <==> Hangs(members, x, id, fuel, n)
    decreases fuel, 0
  {
    var rows := Rows(Forest(members), id, fuel);
    assert Up(members, id, 0) == Some(id);
    if fuel == 0 || n == MAX_TOPIC_DEPTH - 1 {
      if fuel > 0 { DeepestIsLeaf(members, id, fuel); }
      assert rows == [id];
      forall x | Hangs(members, x, id, fuel, n) ensures x == id { }
    } else {
      var kids := ChildrenOf(members, id);
      ForestIsExact(members, id);
      assert Shallow(members, id, MAX_TOPIC_DEPTH - 2);
      forall y | y in kids ensures Steps(members, y, n + 1) { ChildStep(members, id, y, n); }
      BelowDistinct(members, Ids(members), Some(id));
      AllRowsOk(members, kids, fuel - 1, n + 1);
      var below := AllRows(Forest(members), kids, fuel - 1);
      assert rows == [id] + below;
      forall x ensures x in rows <==> Hangs(members, x, id, fuel, n) { HangsByKids(members, x, id, fuel, n); }
      if id in below { HangsIsDeeper(members, id, kids, fuel - 1, n); }
    }
  }

  lemma DeepestIsLeaf(members: seq<Member>, id: string, fuel: nat)
    requires Distinct(Ids(members)) && Steps(members, id, MAX_TOPIC_DEPTH - 1) && fuel > 0
    ensures Kids(Forest(members), id) == [] && Rows(Forest(members), id, fuel) == [id]
  {
    ForestIsExact(members, id);
    if Shallow(members, id, MAX_TOPIC_DEPTH - 2) {
      var m: nat :| m <= MAX_TOPIC_DEPTH - 2 && Steps(members, id, m);
      StepsUnique(members, id, m, MAX_TOPIC_DEPTH - 1);
      assert false;
    }
  }

  lemma HangsByKids(members: seq<Member>, x: string, id: string, fuel: nat, n: nat)
    requires Distinct(Ids(members)) && Steps(members, id, n) && n < MAX_TOPIC_DEPTH && fuel > 0
    ensures Hangs(members, x, id, fuel, n) <==>
            x == id || HangsBelowOne(members, x, ChildrenOf(members, id), fuel - 1, n + 1)
  {
    assert Up(members, id, 0) == Some(id);
    if Hangs(members, x, id, fuel, n) && x != id {
      var k: nat :| k <= fuel && n + k < MAX_TOPIC_DEPTH && Up(members, x, k) == Some(id);
      UpLast(members, x, id, k - 1);
      ChildIff(members, id, Up(members, x, k - 1).value);
      assert Hangs(members, x, Up(members, x, k - 1).value, fuel - 1, n + 1);
    }
    if HangsBelowOne(members, x, ChildrenOf(members, id), fuel - 1, n + 1) {
      var y :| y in ChildrenOf(members, id) && Hangs(members, x, y, fuel - 1, n + 1);
      var k: nat :| k <= fuel - 1 && n + 1 + k < MAX_TOPIC_DEPTH && Up(members, x, k) == Some(y);
      ChildIff(members, id, y);
      UpOne(members, x, y, k);
      assert Up(members, x, k + 1) == Some(id);
    }
  }

  lemma {:induction false} UpOne(members: seq<Member>, x: string, y: string, k: nat)
    requires Up(members, x, k) == Some(y) && ParentOf(members, y).Some?
    ensures Up(members, x, k + 1) == ParentOf(members, y)
    decreases k
  {
    if k > 0 { UpOne(members, ParentOf(members, x).value, y, k - 1); }
  }

  /** Rows below the children of `id` lie deeper than `id` itself. */
  lemma HangsIsDeeper(members: seq<Member>, id: string, kids: seq<string>, fuel: nat, n: nat)
    requires Steps(members, id, n) && forall y :: y in kids ==> Steps(members, y, n + 1)
    ensures !HangsBelowOne(members, id, kids, fuel, n + 1)
  {
    if HangsBelowOne(members, id, kids, fuel, n + 1) {
      var y :| y in kids && Hangs(members, id, y, fuel, n + 1);
      var k: nat :| k <= fuel && n + 1 + k < MAX_TOPIC_DEPTH && Up(members, id, k) == Some(y);
      UpAdds(members, id, y, k, n + 1);
      StepsUnique(members, id, n, n + 1 + k);
      assert false;
    }
  }

  /** No topic hangs below two topics at the same distance from their roots. */
  lemma OneAncestor(members: seq<Member>, x: string, y: string, z: string, fuel: nat, n: nat)
    requires Steps(members, y, n) && Steps(members, z, n) && Hangs(members, x, y, fuel, n)
    requires Hangs(members, x, z, fuel, n)
    ensures y == z
  {
    var j: nat :| j <= fuel && n + j < MAX_TOPIC_DEPTH && Up(members, x, j) == Some(y);
    var k: nat :| k <= fuel && n + k < MAX_TOPIC_DEPTH && Up(members, x, k) == Some(z);
    UpAdds(members, x, y, j, n);
    UpAdds(members, x, z, k, n);
    StepsUnique(members, x, n + j, n + k);
  }

  lemma {:induction false} AllRowsOk(members: seq<Member>, ids: seq<string>, fuel: nat, n: nat)
    requires Distinct(Ids(members)) && Distinct(ids) && n < MAX_TOPIC_DEPTH
    requires forall y :: y in ids ==> Steps(members, y, n)
    ensures var rows := AllRows(Forest(members), ids, fuel);
      Distinct(rows) && forall x :: x in rows <==> HangsBelowOne(members, x, ids, fuel, n)
    decreases fuel, 1 + |ids|
  {
    if |ids| > 0 {
      var front, last := ids[..|ids| - 1], ids[|ids| - 1];
      AllRowsOk(members, front, fuel, n);
      RowsOk(members, last, fuel, n);
      var p, q := AllRows(Forest(members), front, fuel), Rows(Forest(members), last, fuel);
      forall x | x in p && x in q ensures false {
        var y :| y in front && Hangs(members, x, y, fuel, n);
        OneAncestor(members, x, y, last, fuel, n);
        assert false;
      }
      DistinctJoin(p, q);
      forall x ensures HangsBelowOne(members, x, ids, fuel, n) <==>
        HangsBelowOne(members, x, front, fuel, n) || Hangs(members, x, last, fuel, n)
      {
        HangsSplit(members, x, ids, fuel, n);
      }
    }
  }

  lemma HangsSplit(members: seq<Member>, x: string, ids: seq<string>, fuel: nat, n: nat)
    requires |ids| > 0
    ensures HangsBelowOne(members, x, ids, fuel, n) <==>
      HangsBelowOne(members, x, ids[..|ids| - 1], fuel, n) || Hangs(members, x, ids[|ids| - 1], fuel, n)
  {
    assert ids == ids[..|ids| - 1] + [ids[|ids| - 1]];
  }

  lemma DistinctJoin(p: seq<string>, q: seq<string>)
    requires Distinct(p) && Distinct(q) && forall x :: x in p ==> x !in q
    ensures Distinct(p + q)
  {
    forall i, k | 0 <= i < k < |p + q| ensures (p + q)[i] != (p + q)[k] {
      if i < |p| { assert p[i] in p; }
    }
  }

  // ---------------------------------------------------------------- the promises

  /** The rows the card shows. */
  function Shown(members: seq<Member>): seq<string> { AllRows(Forest(members), Roots(members), MAX_TOPIC_DEPTH - 1) }

  /** No topic is shown twice, and a topic is shown iff it reaches a root in at most 19 steps. */
  lemma ShownOnceIffNearRoot(members: seq<Member>)
    requires Distinct(Ids(members))
    ensures Distinct(Shown(members))
    ensures forall x :: x in Shown(members) <==> Shallow(members, x, MAX_TOPIC_DEPTH - 1)
  {
    forall r | r in Roots(members) ensures Steps(members, r, 0) { RootIff(members, r); }
    BelowDistinct(members, Ids(members), None);
    AllRowsOk(members, Roots(members), MAX_TOPIC_DEPTH - 1, 0);
    forall x ensures x in Shown(members) <==> Shallow(members, x, MAX_TOPIC_DEPTH - 1) { HangsIsShallow(members, x); }
  }

  lemma HangsIsShallow(members: seq<Member>, x: string)
    requires Distinct(Ids(members))
    ensures HangsBelowOne(members, x, Roots(members), MAX_TOPIC_DEPTH - 1, 0) <==>
            Shallow(members, x, MAX_TOPIC_DEPTH - 1)
  {
    if HangsBelowOne(members, x, Roots(members), MAX_TOPIC_DEPTH - 1, 0) {
      var r :| r in Roots(members) && Hangs(members, x, r, MAX_TOPIC_DEPTH - 1, 0);
      var k: nat :| k <= MAX_TOPIC_DEPTH - 1 && Up(members, x, k) == Some(r);
      RootIff(members, r);
      UpAdds(members, x, r, k, 0);
    }
    if Shallow(members, x, MAX_TOPIC_DEPTH - 1) {
      var n: nat :| n <= MAX_TOPIC_DEPTH - 1 && Steps(members, x, n);
      RootOf(members, x, n);
      RootIff(members, Up(members, x, n).value);
      assert Hangs(members, x, Up(members, x, n).value, MAX_TOPIC_DEPTH - 1, 0);
    }
  }

  /** The forest is finite: following children further down than the cut shows nothing more. */
  lemma {:induction false} NothingBelowTheCut(members: seq<Member>, id: string, fuel: nat, n: nat)
    requires Distinct(Ids(members)) && Steps(members, id, n) && n < MAX_TOPIC_DEPTH && n + fuel >= MAX_TOPIC_DEPTH - 1
    ensures Rows(Forest(members), id, fuel + 1) == Rows(Forest(members), id, fuel)
    decreases fuel, 0
  {
    if n == MAX_TOPIC_DEPTH - 1 {
      DeepestIsLeaf(members, id, fuel + 1);
      if fuel > 0 { DeepestIsLeaf(members, id, fuel); }
    } else {
      ForestIsExact(members, id);
      assert Shallow(members, id, MAX_TOPIC_DEPTH - 2);
      forall y | y in ChildrenOf(members, id) ensures Steps(members, y, n + 1) { ChildStep(members, id, y, n); }
      NothingBelowTheCutOfAll(members, ChildrenOf(members, id), fuel - 1, n + 1);
    }
  }

  lemma {:induction false} NothingBelowTheCutOfAll(members: seq<Member>, ids: seq<string>, fuel: nat, n: nat)
    requires Distinct(Ids(members)) && n < MAX_TOPIC_DEPTH && n + fuel >= MAX_TOPIC_DEPTH - 1
    requires forall y :: y in ids ==> Steps(members, y, n)
    ensures AllRows(Forest(members), ids, fuel + 1) == AllRows(Forest(members), ids, fuel)
    decreases fuel, 1 + |ids|
  {
    if |ids| > 0 {
      NothingBelowTheCutOfAll(members, ids[..|ids| - 1], fuel, n);
      NothingBelowTheCut(members, ids[|ids| - 1], fuel, n);
    }
  }

  lemma {:induction false} ForestIsFinite(members: seq<Member>, fuel: nat)
    requires Distinct(Ids(members)) && fuel >= MAX_TOPIC_DEPTH - 1
    ensures AllRows(Forest(members), Roots(members), fuel) == Shown(members)
  {
    if fuel > MAX_TOPIC_DEPTH - 1 {
      ForestIsFinite(members, fuel - 1);
      forall r | r in Roots(members) ensures Steps(members, r, 0) { RootIff(members, r); }
      NothingBelowTheCutOfAll(members, Roots(members), fuel - 1, 0);
    }
  }

  /** The heading counts every member, so it overstates the tree: two topics that are each other's parent are hidden. */
  lemma TwoTopicCycleIsHidden()
    ensures var card := [Member("a", ["b"]), Member("b", ["a"])];
      Ids(card) == ["a", "b"] && Roots(card) == [] && Shown(card) == []
  {
    var a, b := Member("a", ["b"]), Member("b", ["a"]);
    var card := [a, b];
    IdsOf(card, 0);
    IdsOf(card, 1);
    assert card[..2] == card && Ids(card) == ["a", "b"];
    assert FirstInSet(["b"], "a", Ids(card)) == Some("b") && FirstInSet(["a"], "b", Ids(card)) == Some("a");
    BelowGrows(card, Ids(card), 0);
    BelowGrows(card, Ids(card), 1);
    assert Below(card[..0], Ids(card), None) == [];
    assert Below(card[..1], Ids(card), None) == [];
    assert Below(card[..2], Ids(card), None) == [];
  }

  lemma IdsOf(members: seq<Member>, i: nat)
    requires i < |members|
    ensures Ids(members[..i + 1])
            == if members[i].id == "" then Ids(members[..i]) else Ids(members[..i]) + [members[i].id]
  {
    assert members[..i + 1][..i] == members[..i];
  }

  /** The heading's count is the number of rows exactly when every member is near enough to a root. */
  lemma CountIsRowsIffAllNearRoot(members: seq<Member>)
    requires Distinct(Ids(members))
    ensures |Shown(members)| <= |Ids(members)|
    ensures |Shown(members)| == |Ids(members)| <==>
            forall x :: x in Ids(members) ==> Shallow(members, x, MAX_TOPIC_DEPTH - 1)
  {
    ShownOnceIffNearRoot(members);
    var shown, ids := Shown(members), Ids(members);
    forall x | x in shown ensures x in ids {
      var n: nat :| n <= MAX_TOPIC_DEPTH - 1 && Steps(members, x, n);
    }
    DistinctFits(shown, ids);
    if forall x :: x in ids ==> Shallow(members, x, MAX_TOPIC_DEPTH - 1) { DistinctFits(ids, shown); }
  }

  lemma {:induction false} DistinctFits(small: seq<string>, big: seq<string>)
    requires Distinct(small) && Distinct(big) && forall x :: x in small ==> x in big
    ensures |small| <= |big|
    ensures |small| == |big| ==> forall x :: x in big ==> x in small
  {
    if |small| > 0 {
      var last := small[|small| - 1];
      assert last in small && last in big;
      var at: nat :| at < |big| && big[at] == last;
      var rest := big[..at] + big[at + 1..];
      forall x | x in small[..|small| - 1] ensures x in rest {
        var i: nat :| i < |small| - 1 && small[i] == x;
        assert x != last && x in big;
      }
      DistinctFits(small[..|small| - 1], rest);
      forall x | x in big && x != last ensures x in rest { }
    }
  }
}
