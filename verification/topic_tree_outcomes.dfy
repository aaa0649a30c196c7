/** Which members hang below a topic, and in what order. */
module TopicTreeOutcomes {
  import opened TopicTree
  import opened Wrappers

  /** A parent that counts: another topic of the card. */
  predicate Counts(p: string, m: Member, ids: seq<string>) { p in ids && p != m.id }

  /** The first parent that counts is this one; a root has none. */
  ghost predicate HangsFrom(m: Member, ids: seq<string>, parent: Option<string>) {
    if parent.None? then forall i :: 0 <= i < |m.parents| ==> !Counts(m.parents[i], m, ids)
    else exists i :: IsFirstAt(m, ids, parent.value, i)
  }

  ghost predicate IsFirstAt(m: Member, ids: seq<string>, p: string, i: int) {
    && 0 <= i < |m.parents| && m.parents[i] == p && Counts(p, m, ids)
    && forall k :: 0 <= k < i ==> !Counts(m.parents[k], m, ids)
  }

  lemma {:induction false} FirstInSetIff(m: Member, ids: seq<string>, parent: Option<string>)
    ensures FirstInSet(m.parents, m.id, ids) == parent <==> HangsFrom(m, ids, parent)
    decreases |m.parents|
  {
    if |m.parents| > 0 {
      var rest := Member(m.id, m.parents[1..]);
      if Counts(m.parents[0], m, ids) {
        assert IsFirstAt(m, ids, m.parents[0], 0);
      } else {
        FirstInSetIff(rest, ids, parent);
        if parent.Some? {
          if i :| IsFirstAt(rest, ids, parent.value, i) { assert IsFirstAt(m, ids, parent.value, i + 1); }
          if i :| IsFirstAt(m, ids, parent.value, i) { assert IsFirstAt(rest, ids, parent.value, i - 1); }
        } else {
          assert forall i :: 0 <= i < |rest.parents| ==> rest.parents[i] == m.parents[i + 1];
          assert forall i :: 0 < i < |m.parents| ==> m.parents[i] == rest.parents[i - 1];
        }
      }
    }
  }

  /** Ascending places, of exactly the members marked. */
  ghost predicate Marks(marked: seq<bool>, at: seq<nat>) {
    && (forall i, k :: 0 <= i < k < |at| ==> at[i] < at[k])
    && (forall i :: 0 <= i < |at| ==> at[i] < |marked|)
    && forall i: nat :: i < |marked| ==> (i in at <==> marked[i])
  }

  lemma MarksOneMore(marked: seq<bool>, at: seq<nat>, last: bool)
    requires Marks(marked, at)
    ensures Marks(marked + [last], if last then at + [|marked|] else at)
  {
    var more := marked + [last];
    forall i: nat | i < |more| ensures i in (if last then at + [|marked|] else at) <==> more[i] {
      assert i < |marked| ==> (i in at <==> marked[i]);
    }
  }

  ghost function Hanging(members: seq<Member>, ids: seq<string>, parent: Option<string>): seq<bool> {
    seq(|members|, i requires 0 <= i < |members| => members[i].id != "" && HangsFrom(members[i], ids, parent))
  }

  lemma HangingOneMore(members: seq<Member>, ids: seq<string>, parent: Option<string>)
    requires |members| > 0
    ensures var n := |members| - 1;
      && Hanging(members, ids, parent)
         == Hanging(members[..n], ids, parent)
            + [members[n].id != "" && FirstInSet(members[n].parents, members[n].id, ids) == parent]
  {
    FirstInSetIff(members[|members| - 1], ids, parent);
  }

  predicate Names(members: seq<Member>, listed: seq<string>, at: seq<nat>) {
    |at| == |listed| && forall i :: 0 <= i < |at| ==> at[i] < |members| && listed[i] == members[at[i]].id
  }

  lemma NamesOneMore(members: seq<Member>, listed: seq<string>, at: seq<nat>)
    requires |members| > 0 && Names(members[..|members| - 1], listed, at)
    ensures Names(members, listed, at)
    ensures Names(members, listed + [members[|members| - 1].id], at + [|members| - 1])
  {
  }

  /** The list names the members that hang from `parent`, in the order of the card. */
  ghost predicate Lists(members: seq<Member>, ids: seq<string>, parent: Option<string>, listed: seq<string>,
                        at: seq<nat>)
  {
    Marks(Hanging(members, ids, parent), at) && Names(members, listed, at)
  }

  lemma {:induction false} BelowLists(members: seq<Member>, ids: seq<string>, parent: Option<string>)
    returns (at: seq<nat>)
    ensures Lists(members, ids, parent, Below(members, ids, parent), at)
  {
    if |members| == 0 {
      at := [];
    } else {
      var n := |members| - 1;
      var before := BelowLists(members[..n], ids, parent);
      at := ListsOneMore(members, ids, parent, Below(members[..n], ids, parent), before);
    }
  }

  lemma ListsOneMore(members: seq<Member>, ids: seq<string>, parent: Option<string>, listed: seq<string>,
                     before: seq<nat>)
    returns (at: seq<nat>)
    requires |members| > 0 && Lists(members[..|members| - 1], ids, parent, listed, before)
    ensures Lists(members, ids, parent, Filed(listed, members[|members| - 1], ids, parent), at)
  {
    var n := |members| - 1;
    var last := members[n].id != "" && FirstInSet(members[n].parents, members[n].id, ids) == parent;
    HangingOneMore(members, ids, parent);
    MarksOneMore(Hanging(members[..n], ids, parent), before, last);
    NamesOneMore(members, listed, before);
    at := if last then before + [n] else before;
  }

  /** A topic's children, and the roots, are the members that hang from it, in the order of the card. */
  lemma FiledInCardOrder(members: seq<Member>, id: string) returns (children: seq<nat>, roots: seq<nat>)
    ensures Lists(members, Ids(members), Some(id), ChildrenOf(members, id), children)
    ensures Lists(members, Ids(members), None, Roots(members), roots)
  {
    children := BelowLists(members, Ids(members), Some(id));
    roots := BelowLists(members, Ids(members), None);
  }
}
