/** Exactly what plans and merges are accepted, and what they then hold, whatever the host answered. */
module ThriveSnapshotOutcomes {
  import opened ThriveSnapshot
  import opened ThriveSnapshotProofs
  import opened Wrappers

  // ---------------------------------------------------------------- planning

  ghost predicate Plannable(mode: Mode, asOf: int, previous: Option<int>, membership: seq<int>, changed: seq<int>,
                            cached: seq<int>)
  {
    && (previous.Some? ==> previous.value < asOf) && (mode.Incremental? ==> previous.Some?)
    && ValidIds(membership) && ValidIds(changed) && ValidIds(cached)
  }

  function GetIds(plan: Plan): seq<int> { seq(|plan.gets|, i requires 0 <= i < |plan.gets| => plan.gets[i].id) }

  /**
    A plan is made exactly for an advancing checkpoint and valid ids.  It lists the members, the cached ids that are
    no members and the reads in ascending order, and reads just the members that are changed, uncached or, in full
    mode, all.
  */
  lemma PlannedIff(mode: Mode, asOf: int, previous: Option<int>, membership: seq<int>, changed: seq<int>,
                   cached: seq<int>)
    ensures var result := MakePlan(mode, asOf, previous, membership, changed, cached);
      && (result.Ok? <==> Plannable(mode, asOf, previous, membership, changed, cached))
      && (result.Ok? ==>
            && var plan := result.value;
            && plan.mode == mode && plan.asOf == asOf && plan.previousCheckpoint == previous
            && plan.changedSince == (if mode.Full? then None
                                     else if previous.value < 120000 then Some(0) else Some(previous.value - 120000))
            && Ascending(plan.membershipIds) && (forall id :: id in plan.membershipIds <==> id in membership)
            && Ascending(plan.removedIds)
            && (forall id :: id in plan.removedIds <==> id in cached && id !in membership)
            && Ascending(GetIds(plan)) && (forall i :: 0 <= i < |plan.gets| ==> plan.gets[i].asOf == asOf)
            && forall id :: id in GetIds(plan) <==>
                 id in membership && (mode.Full? || id in changed || id !in cached))
  {
    if Plannable(mode, asOf, previous, membership, changed, cached) {
      SortValid(membership);
      ReadsAscend(mode, asOf, previous, membership, changed, cached);
      RemovalsAscend(membership, cached);
    }
  }

  lemma ReadsAscend(mode: Mode, asOf: int, previous: Option<int>, membership: seq<int>, changed: seq<int>,
                    cached: seq<int>)
    requires Plannable(mode, asOf, previous, membership, changed, cached)
    ensures MakePlan(mode, asOf, previous, membership, changed, cached).Ok?
    ensures var plan := MakePlan(mode, asOf, previous, membership, changed, cached).value;
      && Ascending(GetIds(plan)) && (forall i :: 0 <= i < |plan.gets| ==> plan.gets[i].asOf == asOf)
      && forall id :: id in GetIds(plan) <==> id in membership && (mode.Full? || id in changed || id !in cached)
  {
    var plan := MakePlan(mode, asOf, previous, membership, changed, cached).value;
    SortValid(membership);
    SelectOk(SortIds(membership), Needs(mode, changed, cached));
    SelectAscends(SortIds(membership), Needs(mode, changed, cached));
    assert GetIds(plan) == Select(SortIds(membership), Needs(mode, changed, cached));
  }

  lemma RemovalsAscend(membership: seq<int>, cached: seq<int>)
    requires ValidIds(cached)
    ensures var removed := SortIds(Select(SortIds(cached), id => id !in membership));
      Ascending(removed) && forall id :: id in removed <==> id in cached && id !in membership
  {
    SortValid(cached);
    SelectOk(SortIds(cached), id => id !in membership);
    SortValid(Select(SortIds(cached), id => id !in membership));
  }

  lemma {:induction false} SelectAscends(s: seq<int>, keep: int -> bool)
    requires ValidIds(s) && Ascending(s)
    ensures Ascending(Select(s, keep))
  {
    if |s| > 0 {
      var front := s[..|s| - 1];
      SelectAscends(front, keep);
      SelectOk(front, keep);
      forall i | 0 <= i < |Select(front, keep)| ensures Select(front, keep)[i] < s[|s| - 1] {
        assert Select(front, keep)[i] in front;
      }
    }
  }

  // ---------------------------------------------------------------- what a merge accepts

  ghost predicate PlanFits(plan: Plan, previous: Option<Snapshot>) {
    && (if previous.Some?
        then plan.previousCheckpoint == Some(previous.value.checkpoint) && previous.value.checkpoint < plan.asOf
        else plan.previousCheckpoint.None?)
    && ValidIds(plan.membershipIds) && ValidIds(GetIds(plan))
    && (forall i :: 0 <= i < |plan.gets| ==> plan.gets[i].asOf == plan.asOf && plan.gets[i].id in plan.membershipIds)
    && (plan.mode.Full? ==> |plan.gets| == |plan.membershipIds|)
  }

  ghost predicate CacheFits(cached: seq<Classified>) {
    && (forall k :: 0 <= k < |cached| ==> Normal(cached[k].record))
    && forall j, k :: 0 <= j < k < |cached| ==> cached[j].record.id != cached[k].record.id
  }

  /** A normal record that was asked for, as of the plan's time, and is not older than the cached one. */
  ghost predicate DetailFits(plan: Plan, cached: seq<Classified>, d: Detail) {
    && Normal(d.record) && d.asOf == plan.asOf && d.record.id in GetIds(plan)
    && forall k :: 0 <= k < |cached| && cached[k].record.id == d.record.id ==>
         cached[k].record.revision <= d.record.revision
  }

  ghost predicate DetailsFit(plan: Plan, cached: seq<Classified>, details: seq<Detail>) {
    && |details| == |plan.gets|
    && (forall k :: 0 <= k < |details| ==> DetailFits(plan, cached, details[k]))
    && forall j, k :: 0 <= j < k < |details| ==> details[j].record.id != details[k].record.id
  }

  ghost predicate MetadataFits(metadata: seq<StateMetadata>) {
    && |metadata| <= 10000
    && (forall k :: 0 <= k < |metadata| ==> ValidMetadata(metadata[k]))
    && forall j, k :: 0 <= j < k < |metadata| ==>
         metadata[j].kind != metadata[k].kind || metadata[j].state != metadata[k].state
  }

  ghost predicate InCache(cached: seq<Classified>, id: int) {
    exists k :: 0 <= k < |cached| && cached[k].record.id == id
  }

  ghost predicate InDetails(details: seq<Detail>, id: int) {
    exists k :: 0 <= k < |details| && details[k].record.id == id
  }

  ghost predicate EachKnown(ids: seq<int>, cached: seq<Classified>, details: seq<Detail>) {
    forall i :: 0 <= i < |ids| ==> InCache(cached, ids[i]) || InDetails(details, ids[i])
  }

  ghost predicate Mergeable(plan: Plan, previous: Option<Snapshot>, details: seq<Detail>, metadata: seq<StateMetadata>)
  {
    && PlanFits(plan, previous) && CacheFits(CachedRecords(previous))
    && DetailsFit(plan, CachedRecords(previous), details) && MetadataFits(metadata)
    && EachKnown(plan.membershipIds, CachedRecords(previous), details)
  }

  // ---------------------------------------------------------------- the loops accept no more

  ghost predicate CanLoad(cached: seq<Classified>, i: nat, records: map<int, Record>) {
    && i <= |cached|
    && (forall k :: i <= k < |cached| ==> Normal(cached[k].record) && cached[k].record.id !in records)
    && forall j, k :: i <= j < k < |cached| ==> cached[j].record.id != cached[k].record.id
  }

  lemma {:induction false} LoadsOnly(cached: seq<Classified>, i: nat, records: map<int, Record>)
    requires i <= |cached| && Load(cached, i, records).Ok?
    ensures CanLoad(cached, i, records)
    decreases |cached| - i
  {
    if i < |cached| {
      var r := cached[i].record;
      LoadsOnly(cached, i + 1, records[r.id := r]);
      forall k | i < k < |cached| ensures cached[k].record.id != r.id && cached[k].record.id !in records {
        assert cached[k].record.id !in records[r.id := r];
      }
    }
  }

  lemma LoadsIff(cached: seq<Classified>)
    ensures Load(cached, 0, map[]).Ok? <==> CacheFits(cached)
    ensures Load(cached, 0, map[]).Ok? ==>
      && (forall k :: 0 <= k < |cached| ==>
            cached[k].record.id in Load(cached, 0, map[]).value
            && Load(cached, 0, map[]).value[cached[k].record.id] == cached[k].record)
      && forall id :: id in Load(cached, 0, map[]).value ==> InCache(cached, id)
  {
    if Load(cached, 0, map[]).Ok? { LoadsOnly(cached, 0, map[]); }
    if CacheFits(cached) { LoadOk(cached, 0, map[]); }
  }

  ghost predicate CanOverlay(details: seq<Detail>, i: nat, asOf: int, needed: seq<int>, records: map<int, Record>,
                             seen: seq<int>)
  {
    && i <= |details|
    && (forall k :: i <= k < |details| ==> Acceptable(details[k], asOf, needed, records, seen))
    && forall j, k :: i <= j < k < |details| ==> details[j].record.id != details[k].record.id
  }

  lemma {:induction false} OverlaysOnly(details: seq<Detail>, i: nat, asOf: int, needed: seq<int>,
                                        records: map<int, Record>, seen: seq<int>)
    requires i <= |details| && Overlay(details, i, asOf, needed, records, seen).Ok?
    ensures CanOverlay(details, i, asOf, needed, records, seen)
    ensures forall id :: id in Overlay(details, i, asOf, needed, records, seen).value ==>
              id in records || exists k :: i <= k < |details| && details[k].record.id == id
    decreases |details| - i
  {
    if i < |details| {
      var r := details[i].record;
      OverlaysOnly(details, i + 1, asOf, needed, records[r.id := r], seen + [r.id]);
      forall k | i < k < |details|
        ensures Acceptable(details[k], asOf, needed, records, seen) && details[k].record.id != r.id
      {
        assert Acceptable(details[k], asOf, needed, records[r.id := r], seen + [r.id]);
      }
    }
  }

  predicate KeyIs(m: StateMetadata, kind: string, state: string) { m.kind == kind && m.state == state }

  ghost predicate CanRead(metadata: seq<StateMetadata>, i: nat, categories: Categories) {
    && i <= |metadata|
    && (forall k :: i <= k < |metadata| ==>
          ValidMetadata(metadata[k]) && (metadata[k].kind, metadata[k].state) !in categories)
    && forall j, k :: i <= j < k < |metadata| ==>
         metadata[j].kind != metadata[k].kind || metadata[j].state != metadata[k].state
  }

  lemma {:induction false} ReadsIff(metadata: seq<StateMetadata>, i: nat, categories: Categories)
    requires i <= |metadata|
    ensures Categorise(metadata, i, categories).Ok? <==> CanRead(metadata, i, categories)
    ensures Categorise(metadata, i, categories).Ok? ==>
      && var all := Categorise(metadata, i, categories).value;
      && (forall key :: key in categories ==> key in all && all[key] == categories[key])
      && (forall k :: i <= k < |metadata| ==>
            (metadata[k].kind, metadata[k].state) in all
            && all[(metadata[k].kind, metadata[k].state)] == metadata[k].category)
      && forall key :: key in all ==>
           key in categories || exists k :: i <= k < |metadata| && KeyIs(metadata[k], key.0, key.1)
    decreases |metadata| - i
  {
    if i < |metadata| {
      var m := metadata[i];
      var after := categories[(m.kind, m.state) := m.category];
      ReadsIff(metadata, i + 1, after);
      if CanRead(metadata, i + 1, after) && ValidMetadata(m) && (m.kind, m.state) !in categories {
        forall k | i < k < |metadata|
          ensures (metadata[k].kind, metadata[k].state) !in categories
                  && (metadata[k].kind != m.kind || metadata[k].state != m.state)
        {
          assert (metadata[k].kind, metadata[k].state) !in after;
        }
      }
    }
  }

  lemma {:induction false} AssemblesOnly(ids: seq<int>, i: nat, records: map<int, Record>, categories: Categories,
                                         built: seq<Classified>, counts: Counts)
    requires i <= |ids| && Assemble(ids, i, records, categories, built, counts).Ok?
    ensures forall k :: i <= k < |ids| ==> ids[k] in records
    decreases |ids| - i
  {
    if i < |ids| {
      var k := Classify(Lookup(categories, records[ids[i]]));
      AssemblesOnly(ids, i + 1, records, categories, built + [Classified(records[ids[i]], k)], Counted(counts, k));
    }
  }

  // ---------------------------------------------------------------- the merge

  /** The checks before any record is touched hold exactly for a plan that fits and a detail for each read. */
  lemma RefusalIff(plan: Plan, previous: Option<Snapshot>, details: seq<Detail>, complete: bool)
    ensures Refusal(plan, previous, details, complete).None? <==>
            complete && PlanFits(plan, previous) && |details| == |plan.gets|
  {
    if ValidNeeds(plan) {
      SortValid(GetIds(plan));
      assert NeededIds(plan) == SortIds(GetIds(plan));
      NeededInMembership(plan);
    }
  }

  lemma NeededInMembership(plan: Plan)
    requires ValidNeeds(plan) && NeededIds(plan) == SortIds(GetIds(plan))
    ensures (forall i :: 0 <= i < |plan.gets| ==> plan.gets[i].id in plan.membershipIds)
            <==> forall i :: 0 <= i < |NeededIds(plan)| ==> NeededIds(plan)[i] in plan.membershipIds
  {
    SortValid(GetIds(plan));
    forall i | 0 <= i < |plan.gets| ensures plan.gets[i].id in NeededIds(plan) {
      assert GetIds(plan)[i] in GetIds(plan);
    }
    forall i | 0 <= i < |NeededIds(plan)|
      ensures exists k :: 0 <= k < |plan.gets| && plan.gets[k].id == NeededIds(plan)[i]
    {
      assert NeededIds(plan)[i] in GetIds(plan);
    }
  }

  /** What the details are overlaid on. */
  ghost predicate Loaded(cached: seq<Classified>, base: map<int, Record>) {
    && (forall k :: 0 <= k < |cached| ==> cached[k].record.id in base && base[cached[k].record.id] == cached[k].record)
    && forall id :: id in base ==> InCache(cached, id)
  }

  lemma OverlaysIff(plan: Plan, cached: seq<Classified>, details: seq<Detail>, base: map<int, Record>)
    requires ValidIds(GetIds(plan)) && |details| == |plan.gets| && Loaded(cached, base)
    ensures Overlay(details, 0, plan.asOf, NeededIds(plan), base, []).Ok? <==> DetailsFit(plan, cached, details)
  {
    SortValid(GetIds(plan));
    assert NeededIds(plan) == SortIds(GetIds(plan));
    var needed := NeededIds(plan);
    forall k | 0 <= k < |details|
      ensures Acceptable(details[k], plan.asOf, needed, base, []) <==> DetailFits(plan, cached, details[k])
    {
      NotOlderIff(plan, cached, details[k], base);
    }
    if Overlay(details, 0, plan.asOf, needed, base, []).Ok? {
      OverlaysOnly(details, 0, plan.asOf, needed, base, []);
    }
    if DetailsFit(plan, cached, details) { OverlayOk(details, 0, plan.asOf, needed, base, []); }
  }

  lemma NotOlderIff(plan: Plan, cached: seq<Classified>, d: Detail, base: map<int, Record>)
    requires Loaded(cached, base)
    ensures (d.record.id in base ==> base[d.record.id].revision <= d.record.revision) <==>
            forall k :: 0 <= k < |cached| && cached[k].record.id == d.record.id ==>
              cached[k].record.revision <= d.record.revision
  {
    if d.record.id in base {
      assert InCache(cached, d.record.id);
    }
  }

  /** The record of a member: its detail if there is one, and otherwise its cached record. */
  ghost predicate IsRecordOf(r: Record, cached: seq<Classified>, details: seq<Detail>) {
    || (exists k :: 0 <= k < |details| && details[k].record == r)
    || (!InDetails(details, r.id) && exists k :: 0 <= k < |cached| && cached[k].record == r)
  }

  /** The metadata gives this record's kind and state one of these categories. */
  ghost predicate CategoryIn(metadata: seq<StateMetadata>, r: Record, wanted: set<string>) {
    exists k :: 0 <= k < |metadata| && KeyIs(metadata[k], r.kind, r.state) && metadata[k].category in wanted
  }

  ghost predicate ClassifiedBy(c: Classified, metadata: seq<StateMetadata>) {
    && (c.classification.Open? <==> CategoryIn(metadata, c.record, {"Proposed", "InProgress", "Resolved"}))
    && (c.classification.Closed? <==> CategoryIn(metadata, c.record, {"Completed", "Removed"}))
  }

  ghost predicate Holds(t: Snapshot, plan: Plan, cached: seq<Classified>, details: seq<Detail>,
                        metadata: seq<StateMetadata>)
  {
    && t.checkpoint == plan.asOf && |t.records| == |plan.membershipIds| == t.counts.tracked
    && Ascending(Ids(t.records)) && (forall id :: id in Ids(t.records) <==> id in plan.membershipIds)
    && (forall k :: 0 <= k < |t.records| ==>
          IsRecordOf(t.records[k].record, cached, details) && ClassifiedBy(t.records[k], metadata))
    && CountsRight(t.counts, t.records)
    && (t.classificationComplete <==> forall k :: 0 <= k < |t.records| ==> !t.records[k].classification.Unclassified?)
  }

  lemma OverlaidIsRecordOf(plan: Plan, cached: seq<Classified>, details: seq<Detail>, base: map<int, Record>,
                           id: int)
    requires Loaded(cached, base) && Overlay(details, 0, plan.asOf, NeededIds(plan), base, []).Ok?
    requires forall k :: 0 <= k < |cached| ==> cached[k].record.id in base
    ensures var r := Overlay(details, 0, plan.asOf, NeededIds(plan), base, []).value;
      && (id in r <==> InCache(cached, id) || InDetails(details, id))
      && (id in r ==> r[id].id == id && IsRecordOf(r[id], cached, details))
  {
    var needed := NeededIds(plan);
    OverlaysOnly(details, 0, plan.asOf, needed, base, []);
    OverlayOk(details, 0, plan.asOf, needed, base, []);
    if InDetails(details, id) {
      var k :| 0 <= k < |details| && details[k].record.id == id;
    } else if InCache(cached, id) {
      var k :| 0 <= k < |cached| && cached[k].record.id == id;
      assert base[id] == cached[k].record;
    }
  }

  lemma LookupIs(metadata: seq<StateMetadata>, r: Record)
    requires Categorise(metadata, 0, map[]).Ok?
    ensures ClassifiedBy(Classified(r, Classify(Lookup(Categorise(metadata, 0, map[]).value, r))), metadata)
  {
    ReadsIff(metadata, 0, map[]);
    var all := Categorise(metadata, 0, map[]).value;
    var found := Lookup(all, r);
    if found.Some? {
      var k :| 0 <= k < |metadata| && KeyIs(metadata[k], r.kind, r.state);
      assert metadata[k].category == found.value;
    }
    forall wanted: set<string>
      ensures CategoryIn(metadata, r, wanted) <==> found.Some? && found.value in wanted
    {
      if CategoryIn(metadata, r, wanted) {
        var k :| 0 <= k < |metadata| && KeyIs(metadata[k], r.kind, r.state) && metadata[k].category in wanted;
        assert all[(metadata[k].kind, metadata[k].state)] == metadata[k].category;
      }
    }
  }

  lemma {:induction false} NoneCounted(records: seq<Classified>, k: Classification)
    ensures CountOf(records, k) == 0 <==> forall i :: 0 <= i < |records| ==> records[i].classification != k
  {
    if |records| > 0 {
      NoneCounted(records[..|records| - 1], k);
      assert records[|records| - 1].classification == k ==> CountOf(records, k) > 0;
    }
  }

  lemma FinishesIff(plan: Plan, records: map<int, Record>, metadata: seq<StateMetadata>)
    requires ValidIds(plan.membershipIds)
    ensures Finish(plan, records, metadata).Ok? <==>
            Categorise(metadata, 0, map[]).Ok? && forall id :: id in plan.membershipIds ==> id in records
  {
    SortValid(plan.membershipIds);
    var ids := SortIds(plan.membershipIds);
    if Categorise(metadata, 0, map[]).Ok? {
      var categories := Categorise(metadata, 0, map[]).value;
      var counts := Counts(|ids|, 0, 0, 0);
      if Assemble(ids, 0, records, categories, [], counts).Ok? {
        AssemblesOnly(ids, 0, records, categories, [], counts);
      }
      if forall id :: id in plan.membershipIds ==> id in records {
        forall k | 0 <= k < |ids| ensures ids[k] in records { assert ids[k] in ids; }
        AssembleOk(ids, 0, records, categories, [], counts);
      }
    }
  }

  /** The records built for the members, with their counts. */
  lemma FinishBuilds(plan: Plan, records: map<int, Record>, metadata: seq<StateMetadata>)
    requires ValidIds(plan.membershipIds) && Finish(plan, records, metadata).Ok?
    ensures Categorise(metadata, 0, map[]).Ok?
    ensures var t, ids := Finish(plan, records, metadata).value, SortIds(plan.membershipIds);
      && BuiltRight(ids, |ids|, records, Categorise(metadata, 0, map[]).value, t.records, t.counts)
      && t.checkpoint == plan.asOf && t.counts.tracked == |ids| == |plan.membershipIds|
      && (t.classificationComplete <==> t.counts.unclassified == 0)
      && Ascending(ids) && forall id :: id in ids <==> id in plan.membershipIds
  {
    SortValid(plan.membershipIds);
    FinishesIff(plan, records, metadata);
    var ids := SortIds(plan.membershipIds);
    forall k | 0 <= k < |ids| ensures ids[k] in records { assert ids[k] in ids; }
    AssembleOk(ids, 0, records, Categorise(metadata, 0, map[]).value, [], Counts(|ids|, 0, 0, 0));
  }

  lemma FinishHolds(plan: Plan, records: map<int, Record>, metadata: seq<StateMetadata>, cached: seq<Classified>,
                    details: seq<Detail>)
    requires ValidIds(plan.membershipIds) && Finish(plan, records, metadata).Ok?
    requires forall id :: id in records ==> records[id].id == id && IsRecordOf(records[id], cached, details)
    ensures Holds(Finish(plan, records, metadata).value, plan, cached, details, metadata)
  {
    FinishBuilds(plan, records, metadata);
    var t := Finish(plan, records, metadata).value;
    assert Ids(t.records) == SortIds(plan.membershipIds);
    NoneCounted(t.records, Unclassified);
    forall k | 0 <= k < |t.records| ensures ClassifiedBy(t.records[k], metadata) {
      LookupIs(metadata, t.records[k].record);
    }
  }

  /** A merge is accepted exactly if plan, cache, details and metadata fit and every member has a record. */
  lemma MergedIff(plan: Plan, previous: Option<Snapshot>, details: seq<Detail>, metadata: seq<StateMetadata>,
                  complete: bool)
    ensures Merge(plan, previous, details, metadata, complete).Ok? <==>
            complete && Mergeable(plan, previous, details, metadata)
  {
    var cached := CachedRecords(previous);
    RefusalIff(plan, previous, details, complete);
    LoadsIff(cached);
    ReadsIff(metadata, 0, map[]);
    if Refusal(plan, previous, details, complete).None? && Load(cached, 0, map[]).Ok? {
      var base := Load(cached, 0, map[]).value;
      OverlaysIff(plan, cached, details, base);
      if Overlay(details, 0, plan.asOf, NeededIds(plan), base, []).Ok? {
        var records := Overlay(details, 0, plan.asOf, NeededIds(plan), base, []).value;
        forall id ensures id in records <==> InCache(cached, id) || InDetails(details, id) {
          OverlaidIsRecordOf(plan, cached, details, base, id);
        }
        FinishesIff(plan, records, metadata);
        MembersKnown(plan.membershipIds, cached, details, records);
      }
    }
  }

  lemma MembersKnown(ids: seq<int>, cached: seq<Classified>, details: seq<Detail>, records: map<int, Record>)
    requires forall id :: id in records <==> InCache(cached, id) || InDetails(details, id)
    ensures EachKnown(ids, cached, details) <==> forall id :: id in ids ==> id in records
  {
    forall i | 0 <= i < |ids| ensures ids[i] in ids { }
  }

  /**
    What an accepted merge stores: the members' records in ascending order, each one its detail or else its cached
    record, classified by the metadata, with counts that count them.
  */
  lemma MergedHolds(plan: Plan, previous: Option<Snapshot>, details: seq<Detail>, metadata: seq<StateMetadata>)
    requires Merge(plan, previous, details, metadata, true).Ok?
    ensures Holds(Merge(plan, previous, details, metadata, true).value, plan, CachedRecords(previous), details,
                  metadata)
  {
    var cached := CachedRecords(previous);
    MergedIff(plan, previous, details, metadata, true);
    LoadsIff(cached);
    var base := Load(cached, 0, map[]).value;
    var records := Overlay(details, 0, plan.asOf, NeededIds(plan), base, []).value;
    forall id | id in records ensures records[id].id == id && IsRecordOf(records[id], cached, details) {
      OverlaidIsRecordOf(plan, cached, details, base, id);
    }
    FinishHolds(plan, records, metadata, cached, details);
  }
}
