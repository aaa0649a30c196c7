/**
  The topic tree of a workstream card (shared/panelData.ts, `buildControlPlaneCardTopics`).

  Each topic hangs below the first of its parents that is also on the card.  `attach` assigns the children of the
  panels in place, one map entry a panel here, and cuts the tree at a fixed depth.
*/
module TopicTree {
  import opened Wrappers

  const MAX_TOPIC_DEPTH: nat := 20

  datatype Member = Member(id: string, parents: seq<string>)

  type Links = map<string, seq<string>>

  /** The ids on the card, in membership order; members without an id are skipped. */
  function Ids(members: seq<Member>): seq<string> {
    if |members| == 0 then []
    else
      var before := Ids(members[..|members| - 1]);
      var m := members[|members| - 1];
      if m.id == "" then before else before + [m.id]
  }

  function FirstInSet(parents: seq<string>, self: string, ids: seq<string>): (p: Option<string>)
    ensures p.Some? ==> p.value in ids && p.value != self && p.value in parents
    ensures p.None? ==> forall q :: q in parents && q in ids ==> q == self
  {
    if |parents| == 0 then None
    else if parents[0] in ids && parents[0] != self then Some(parents[0])
    else FirstInSet(parents[1..], self, ids)
  }

  /** The members below `parent` (or, with None, the roots) among the first ones, in order. */
  function Below(members: seq<Member>, ids: seq<string>, parent: Option<string>): seq<string> {
    if |members| == 0 then []
    else
      var before := Below(members[..|members| - 1], ids, parent);
      Filed(before, members[|members| - 1], ids, parent)
  }

  function Filed(before: seq<string>, m: Member, ids: seq<string>, parent: Option<string>): seq<string> {
    if m.id != "" && FirstInSet(m.parents, m.id, ids) == parent then before + [m.id] else before
  }

  function ChildrenOf(members: seq<Member>, id: string): seq<string> { Below(members, Ids(members), Some(id)) }

  function Roots(members: seq<Member>): seq<string> { Below(members, Ids(members), None) }

  function Kids(links: Links, id: string): seq<string> { if id in links then links[id] else [] }

  function NotIn(kids: seq<string>, path: set<string>): seq<string> {
    if |kids| == 0 then []
    else
      var before := NotIn(kids[..|kids| - 1], path);
      if kids[|kids| - 1] in path then before else before + [kids[|kids| - 1]]
  }

  /** The panels' children after `attach(id, path, depth)`. */
  function Attach(members: seq<Member>, panels: Links, id: string, path: set<string>, depth: nat): Links
    decreases MAX_TOPIC_DEPTH - depth, 0
  {
    if depth >= MAX_TOPIC_DEPTH then panels
    else
      var kids := NotIn(ChildrenOf(members, id), path);
      if |kids| == 0 || id !in Ids(members) then panels
      else AttachEach(members, panels[id := kids], kids, path, depth + 1)
  }

  /** `attach` on each of `kids` in order, each with itself added to the path. */
  function AttachEach(members: seq<Member>, panels: Links, kids: seq<string>, path: set<string>, depth: nat): Links
    decreases if depth <= MAX_TOPIC_DEPTH then MAX_TOPIC_DEPTH - depth else 0, 1 + |kids|
  {
    if |kids| == 0 then panels
    else
      var before := AttachEach(members, panels, kids[..|kids| - 1], path, depth);
      Attach(members, before, kids[|kids| - 1], path + {kids[|kids| - 1]}, depth)
  }

  /** The children every panel ends up with. */
  function Forest(members: seq<Member>): Links { AttachEach(members, map[], Roots(members), {}, 1) }

  /** The rows shown below and including `id`, in preorder, down to `fuel` levels below it. */
  function Rows(panels: Links, id: string, fuel: nat): seq<string>
    decreases fuel, 0
  {
    if fuel == 0 then [id] else [id] + AllRows(panels, Kids(panels, id), fuel - 1)
  }

  function AllRows(panels: Links, ids: seq<string>, fuel: nat): seq<string>
    decreases fuel, 1 + |ids|
  {
    if |ids| == 0 then []
    else AllRows(panels, ids[..|ids| - 1], fuel) + Rows(panels, ids[|ids| - 1], fuel)
  }

  /** One more member joins the list of its parent, or the roots, and no other list. */
  lemma BelowGrows(members: seq<Member>, ids: seq<string>, i: nat)
    requires i < |members|
    ensures forall parent ::
              Below(members[..i + 1], ids, parent) == Filed(Below(members[..i], ids, parent), members[i], ids, parent)
  {
    assert members[..i + 1][..i] == members[..i];
  }

  // ---------------------------------------------------------------- as the card is built

  class CardTopics {
    const members: seq<Member>
    var orderedIds: seq<string>
    var childrenById: Links
    var rootIds: seq<string>
    var panels: Links

    constructor (members: seq<Member>)
      ensures this.members == members
    {
      this.members := members;
      orderedIds, childrenById, rootIds, panels := [], map[], [], map[];
    }

    method CollectIds()
      modifies this`orderedIds
      ensures orderedIds == Ids(members)
    {
      orderedIds := [];
      for i := 0 to |members|
        invariant orderedIds == Ids(members[..i])
      {
        assert members[..i + 1][..i] == members[..i];
        if members[i].id != "" { orderedIds := orderedIds + [members[i].id]; }
      }
      assert members[..|members|] == members;
    }

    /** Files every member under its parent or among the roots. */
    method LinkParents()
      modifies this`childrenById, this`rootIds
      ensures rootIds == Below(members, orderedIds, None)
      ensures forall id :: Kids(childrenById, id) == Below(members, orderedIds, Some(id))
    {
      childrenById, rootIds := map[], [];
      for i := 0 to |members|
        invariant rootIds == Below(members[..i], orderedIds, None)
        invariant forall id :: Kids(childrenById, id) == Below(members[..i], orderedIds, Some(id))
      {
        var m := members[i];
        BelowGrows(members, orderedIds, i);
        if m.id != "" {
          var parent := FirstInSet(m.parents, m.id, orderedIds);
          if parent.Some? {
            childrenById := childrenById[parent.value := Kids(childrenById, parent.value) + [m.id]];
          } else {
            rootIds := rootIds + [m.id];
          }
        }
      }
      assert members[..|members|] == members;
    }

    method OffPath(all: seq<string>, path: set<string>) returns (kids: seq<string>)
      ensures kids == NotIn(all, path)
    {
      kids := [];
      for i := 0 to |all|
        invariant kids == NotIn(all[..i], path)
      {
        assert all[..i + 1][..i] == all[..i];
        if all[i] !in path { kids := kids + [all[i]]; }
      }
      assert all[..|all|] == all;
    }

    method AttachBelow(id: string, path: set<string>, depth: nat)
      requires orderedIds == Ids(members) && forall x :: Kids(childrenById, x) == ChildrenOf(members, x)
      modifies this`panels
      ensures panels == Attach(members, old(panels), id, path, depth)
      decreases MAX_TOPIC_DEPTH - depth
    {
      if depth >= MAX_TOPIC_DEPTH { return; }
      var kids := OffPath(Kids(childrenById, id), path);
      if |kids| == 0 { return; }
      if id !in orderedIds { return; }
      panels := panels[id := kids];
      ghost var start := panels;
      for i := 0 to |kids|
        invariant panels == AttachEach(members, start, kids[..i], path, depth + 1)
      {
        assert kids[..i + 1][..i] == kids[..i];
        AttachBelow(kids[i], path + {kids[i]}, depth + 1);
      }
      assert kids[..|kids|] == kids;
    }

    method Build()
      modifies this
      ensures orderedIds == Ids(members) && rootIds == Roots(members) && panels == Forest(members)
    {
      CollectIds();
      LinkParents();
      AttachRoots();
    }

    method AttachRoots()
      requires orderedIds == Ids(members) && rootIds == Roots(members)
      requires forall x :: Kids(childrenById, x) == ChildrenOf(members, x)
      modifies this`panels
      ensures panels == Forest(members)
    {
      panels := map[];
      for i := 0 to |rootIds|
        invariant orderedIds == Ids(members) && rootIds == Roots(members)
        invariant forall x :: Kids(childrenById, x) == ChildrenOf(members, x)
        invariant panels == AttachEach(members, map[], rootIds[..i], {}, 1)
      {
        assert rootIds[..i + 1][..i] == rootIds[..i];
        assert {} + {rootIds[i]} == {rootIds[i]};
        AttachBelow(rootIds[i], {rootIds[i]}, 1);
      }
      assert rootIds[..|rootIds|] == rootIds;
    }
  }
}
