/** An incremental sync yields what a full sync would, exactly when the changed ids cover every real change. */
module ThriveSnapshotProofs {
  import opened Permutations
  import opened ThriveSnapshot
  import opened Wrappers

  /** What the host would answer at each time: its members' records.  Members come and go. */
  type Truth = int -> map<int, Record>

  ghost predicate NormalTruth(truth: Truth) {
    forall t, id :: id in truth(t) ==> truth(t)[id].id == id && Normal(truth(t)[id])
  }

  ghost predicate RevisionsNeverFall(truth: Truth) {
    forall s, t, id :: s <= t && id in truth(s) && id in truth(t) ==> truth(s)[id].revision <= truth(t)[id].revision
  }

  ghost predicate ListsKeys(ids: seq<int>, m: map<int, Record>) {
    ValidIds(ids) && forall id :: id in ids <==> id in m
  }

  /** Every read the plan asks for is answered once, as of its time, in any order. */
  ghost function Reads(plan: Plan, now: map<int, Record>): seq<Detail>
    requires forall i :: 0 <= i < |plan.gets| ==> plan.gets[i].id in now
  {
    seq(|plan.gets|, i requires 0 <= i < |plan.gets| => Detail(plan.gets[i].asOf, now[plan.gets[i].id]))
  }

  ghost function Ids(records: seq<Classified>): seq<int> {
    seq(|records|, i requires 0 <= i < |records| => records[i].record.id)
  }

  /** The cached snapshot holds exactly the members' records as they were at its checkpoint. */
  ghost predicate CachedExactly(previous: Option<Snapshot>, truth: Truth) {
    previous.Some? ==>
      && ListsKeys(Ids(previous.value.records), truth(previous.value.checkpoint))
      && forall i :: 0 <= i < |previous.value.records| ==>
           && previous.value.records[i].record.id in truth(previous.value.checkpoint)
           && previous.value.records[i].record == truth(previous.value.checkpoint)[previous.value.records[i].record.id]
  }

  // ---------------------------------------------------------------- sorted ids

  ghost predicate Ascending(s: seq<int>) {
    forall i, k :: 0 <= i < k < |s| ==> s[i] < s[k]
  }

  lemma {:induction false} InsertOk(x: int, s: seq<int>)
    requires x !in s && Ascending(s)
    ensures |Insert(x, s)| == |s| + 1 && Ascending(Insert(x, s))
    ensures forall y :: y in Insert(x, s) <==> y == x || y in s
  {
    if |s| > 0 && x > s[0] {
      InsertOk(x, s[1..]);
      var rest := Insert(x, s[1..]);
      assert s == [s[0]] + s[1..];
      forall i | 0 <= i < |rest| ensures s[0] < rest[i] { assert rest[i] in rest; }
    }
  }

  /** Sorting distinct ids puts the same ids in strictly ascending order. */
  lemma {:induction false} SortOk(s: seq<int>)
    requires forall i, k :: 0 <= i < k < |s| ==> s[i] != s[k]
    ensures |SortIds(s)| == |s| && Ascending(SortIds(s))
    ensures forall y :: y in SortIds(s) <==> y in s
  {
    if |s| > 0 {
      SortOk(s[1..]);
      assert s == [s[0]] + s[1..];
      InsertOk(s[0], SortIds(s[1..]));
    }
  }

  lemma SortValid(s: seq<int>)
    requires ValidIds(s)
    ensures ValidIds(SortIds(s)) && |SortIds(s)| == |s| && Ascending(SortIds(s))
    ensures forall y :: y in SortIds(s) <==> y in s
  {
    SortOk(s);
    forall i | 0 <= i < |s| ensures 0 < SortIds(s)[i] <= MAX_SAFE { assert SortIds(s)[i] in s; }
  }

  lemma {:induction false} SelectOk(s: seq<int>, keep: int -> bool)
    requires ValidIds(s)
    ensures ValidIds(Select(s, keep)) && |Select(s, keep)| <= |s|
    ensures forall y :: y in Select(s, keep) <==> y in s && keep(y)
    ensures (forall y :: y in s ==> keep(y)) ==> |Select(s, keep)| == |s|
  {
    if |s| > 0 {
      var front, last := s[..|s| - 1], s[|s| - 1];
      assert s == front + [last];
      SelectOk(front, keep);
      assert last !in front;
    }
  }

  // ---------------------------------------------------------------- loading and overlaying

  lemma {:induction false} LoadOk(cached: seq<Classified>, i: nat, records: map<int, Record>)
    requires i <= |cached|
    requires forall k :: i <= k < |cached| ==> Normal(cached[k].record) && cached[k].record.id !in records
    requires forall j, k :: i <= j < k < |cached| ==> cached[j].record.id != cached[k].record.id
    ensures Load(cached, i, records).Ok?
    ensures var r := Load(cached, i, records).value;
            && (forall k :: i <= k < |cached| ==>
                  cached[k].record.id in r && r[cached[k].record.id] == cached[k].record)
            && (forall id :: id in records ==> id in r && r[id] == records[id])
            && (forall id :: id in r ==> id in records || exists k :: i <= k < |cached| && cached[k].record.id == id)
    decreases |cached| - i
  {
    if i < |cached| { LoadOk(cached, i + 1, records[cached[i].record.id := cached[i].record]); }
  }

  ghost predicate Acceptable(d: Detail, asOf: int, needed: seq<int>, records: map<int, Record>, seen: seq<int>) {
    && Normal(d.record) && d.asOf == asOf && d.record.id in needed && d.record.id !in seen
    && (d.record.id in records ==> records[d.record.id].revision <= d.record.revision)
  }

  lemma {:induction false} OverlayOk(details: seq<Detail>, i: nat, asOf: int, needed: seq<int>,
                                     records: map<int, Record>, seen: seq<int>)
    requires i <= |details|
    requires forall k :: i <= k < |details| ==> Acceptable(details[k], asOf, needed, records, seen)
    requires forall j, k :: i <= j < k < |details| ==> details[j].record.id != details[k].record.id
    ensures Overlay(details, i, asOf, needed, records, seen).Ok?
    ensures var r := Overlay(details, i, asOf, needed, records, seen).value;
            && (forall k :: i <= k < |details| ==>
                  details[k].record.id in r && r[details[k].record.id] == details[k].record)
            && (forall id :: id in records && (forall k :: i <= k < |details| ==> details[k].record.id != id) ==>
                  id in r && r[id] == records[id])
    decreases |details| - i
  {
    if i < |details| {
      var d := details[i];
      var after := records[d.record.id := d.record];
      forall k | i + 1 <= k < |details|
        ensures Acceptable(details[k], asOf, needed, after, seen + [d.record.id])
      {
        assert Acceptable(details[k], asOf, needed, records, seen);
      }
      OverlayOk(details, i + 1, asOf, needed, after, seen + [d.record.id]);
    }
  }

  // ---------------------------------------------------------------- assembling

  /** What is built depends only on the members' records. */
  lemma {:induction false} AssembleAgrees(ids: seq<int>, i: nat, a: map<int, Record>, b: map<int, Record>,
                                          categories: Categories, built: seq<Classified>, counts: Counts)
    requires i <= |ids| && forall k :: i <= k < |ids| ==> ids[k] in a && ids[k] in b && a[ids[k]] == b[ids[k]]
    ensures Assemble(ids, i, a, categories, built, counts) == Assemble(ids, i, b, categories, built, counts)
    decreases |ids| - i
  {
    if i < |ids| {
      var k := Classify(Lookup(categories, a[ids[i]]));
      AssembleAgrees(ids, i + 1, a, b, categories, built + [Classified(a[ids[i]], k)], Counted(counts, k));
    }
  }

  ghost function CountOf(records: seq<Classified>, k: Classification): nat {
    if |records| == 0 then 0
    else CountOf(records[..|records| - 1], k) + if records[|records| - 1].classification == k then 1 else 0
  }

  ghost predicate CountsRight(counts: Counts, built: seq<Classified>) {
    && counts.knownOpen == CountOf(built, Open)
    && counts.knownClosed == CountOf(built, Closed)
    && counts.unclassified == CountOf(built, Unclassified)
  }

  /** One classified record per id, in order, and counts that count them. */
  ghost predicate BuiltRight(ids: seq<int>, n: nat, records: map<int, Record>, categories: Categories,
                             built: seq<Classified>, counts: Counts)
    requires n <= |ids|
  {
    && |built| == n && CountsRight(counts, built)
    && forall k :: 0 <= k < n ==>
         ids[k] in records && built[k] == Classified(records[ids[k]], Classify(Lookup(categories, records[ids[k]])))
  }

  lemma {:induction false} AssembleOk(ids: seq<int>, i: nat, records: map<int, Record>, categories: Categories,
                                      built: seq<Classified>, counts: Counts)
    requires i <= |ids| && (forall k :: 0 <= k < |ids| ==> ids[k] in records)
    requires BuiltRight(ids, i, records, categories, built, counts)
    ensures var r := Assemble(ids, i, records, categories, built, counts);
            r.Ok? && BuiltRight(ids, |ids|, records, categories, r.value.0, r.value.1)
                  && r.value.1.tracked == counts.tracked
    decreases |ids| - i
  {
    if i < |ids| {
      var k := Classify(Lookup(categories, records[ids[i]]));
      var c := Classified(records[ids[i]], k);
      assert (built + [c])[..i] == built;
      AssembleOk(ids, i + 1, records, categories, built + [c], Counted(counts, k));
    }
  }

  lemma {:induction false} CountsAddUp(records: seq<Classified>)
    ensures CountOf(records, Open) + CountOf(records, Closed) + CountOf(records, Unclassified) == |records|
  {
    if |records| > 0 { CountsAddUp(records[..|records| - 1]); }
  }

  // ---------------------------------------------------------------- one sync

  /** A sync as the adapter asks for it: `details` answers the plan from the truth at `asOf`. */
  datatype Sync = Sync(mode: Mode, asOf: int, membership: seq<int>, changed: seq<int>, details: seq<Detail>,
                       metadata: seq<StateMetadata>)

  ghost function CachedIds(previous: Option<Snapshot>): seq<int> { Ids(CachedRecords(previous)) }

  ghost function Checkpoint(previous: Option<Snapshot>): Option<int> {
    if previous.Some? then Some(previous.value.checkpoint) else None
  }

  ghost function PlanOf(previous: Option<Snapshot>, s: Sync): Result<Plan, string> {
    MakePlan(s.mode, s.asOf, Checkpoint(previous), s.membership, s.changed, CachedIds(previous))
  }

  ghost function Perform(previous: Option<Snapshot>, s: Sync): Result<Snapshot, string> {
    var plan := PlanOf(previous, s);
    if plan.Err? then Err(plan.error) else Merge(plan.value, previous, s.details, s.metadata, true)
  }

  /** The host tells the truth: full membership, and one true answer to each read of the plan. */
  ghost predicate Honest(previous: Option<Snapshot>, s: Sync, truth: Truth) {
    && ListsKeys(s.membership, truth(s.asOf)) && ValidIds(s.changed)
    && (previous.Some? ==> previous.value.checkpoint < s.asOf)
    && (s.mode.Incremental? ==> previous.Some?)
    && (PlanOf(previous, s).Ok? ==>
          && (forall i :: 0 <= i < |PlanOf(previous, s).value.gets| ==>
                PlanOf(previous, s).value.gets[i].id in truth(s.asOf))
          && multiset(s.details) == multiset(Reads(PlanOf(previous, s).value, truth(s.asOf))))
  }

  /** Every member that is cached, incrementally skipped and unlisted as changed is unchanged. */
  ghost predicate Covers(previous: Option<Snapshot>, s: Sync, truth: Truth) {
    s.mode.Incremental? && previous.Some? ==>
      forall id :: id in truth(previous.value.checkpoint) && id in truth(s.asOf) && id !in s.changed ==>
        truth(previous.value.checkpoint)[id] == truth(s.asOf)[id]
  }

  /** The snapshot of the given records, by definition. */
  ghost function Exactly(s: Sync, now: map<int, Record>): Result<Snapshot, string> {
    if |s.metadata| > METADATA_LIMIT then Err("State metadata budget exceeded.")
    else Finish(Plan(s.mode, s.asOf, None, None, SortIds(s.membership), [], []), now, s.metadata)
  }

  // ---------------------------------------------------------------- the answers

  function RecordId(d: Detail): int { d.record.id }

  ghost predicate DistinctRecords(details: seq<Detail>) { DistinctBy(RecordId, details) }

  /** The details of an honest sync: distinct, wanted, true, and one for each wanted id. */
  lemma AnswersOk(plan: Plan, details: seq<Detail>, now: map<int, Record>)
    requires forall i :: 0 <= i < |plan.gets| ==> plan.gets[i].id in now && now[plan.gets[i].id].id == plan.gets[i].id
    requires forall i, k :: 0 <= i < k < |plan.gets| ==> plan.gets[i].id != plan.gets[k].id
    requires multiset(details) == multiset(Reads(plan, now))
    ensures |details| == |plan.gets| && DistinctRecords(details)
    ensures forall k :: 0 <= k < |details| ==> details[k] in Reads(plan, now)
    ensures forall i :: 0 <= i < |plan.gets| ==> Reads(plan, now)[i] in details
  {
    var asked := Reads(plan, now);
    assert |multiset(details)| == |multiset(asked)|;
    PermutedDistinct(RecordId, details, asked);
    forall k | 0 <= k < |details| ensures details[k] in asked {
      assert details[k] in multiset(asked);
    }
    forall i | 0 <= i < |plan.gets| ensures asked[i] in details {
      assert asked[i] in multiset(details);
    }
  }

  // ---------------------------------------------------------------- one sync merges

  /** Setting: the cache is exact, the host honest, and records are well formed with revisions that never fall. */
  ghost predicate Setting(previous: Option<Snapshot>, s: Sync, truth: Truth) {
    NormalTruth(truth) && RevisionsNeverFall(truth) && CachedExactly(previous, truth) && Honest(previous, s, truth)
  }

  ghost function Wanted(previous: Option<Snapshot>, s: Sync): seq<int> {
    Select(SortIds(s.membership), Needs(s.mode, s.changed, CachedIds(previous)))
  }

  /** The plan's gets ask for each wanted id once, as of the given time. */
  ghost predicate GetsEach(plan: Plan, wanted: seq<int>, asOf: int) {
    |plan.gets| == |wanted| && forall i :: 0 <= i < |wanted| ==> plan.gets[i] == Get(wanted[i], asOf)
  }

  /** A plan that reads `wanted` for the sync. */
  ghost predicate PlanReads(plan: Plan, previous: Option<Snapshot>, s: Sync, wanted: seq<int>) {
    && plan.mode == s.mode && plan.asOf == s.asOf && plan.previousCheckpoint == Checkpoint(previous)
    && plan.membershipIds == SortIds(s.membership) && ValidIds(plan.membershipIds)
    && GetsEach(plan, wanted, s.asOf)
    && ValidIds(wanted) && (s.mode.Full? ==> |wanted| == |plan.membershipIds|)
    && (forall id :: id in wanted ==> id in plan.membershipIds)
  }

  lemma PlanOk(previous: Option<Snapshot>, s: Sync, truth: Truth)
    requires Setting(previous, s, truth)
    ensures PlanOf(previous, s).Ok? && PlanReads(PlanOf(previous, s).value, previous, s, Wanted(previous, s))
    ensures forall id :: id in SortIds(s.membership) <==> id in truth(s.asOf)
    ensures forall id :: id in Wanted(previous, s) <==>
              id in truth(s.asOf) && (s.mode.Full? || id in s.changed || id !in CachedIds(previous))
  {
    PlanFromValidIds(previous, s);
  }

  lemma PlanFromValidIds(previous: Option<Snapshot>, s: Sync)
    requires ValidIds(s.membership) && ValidIds(s.changed) && ValidIds(CachedIds(previous))
    requires previous.Some? ==> previous.value.checkpoint < s.asOf
    requires s.mode.Incremental? ==> previous.Some?
    ensures PlanOf(previous, s).Ok? && PlanReads(PlanOf(previous, s).value, previous, s, Wanted(previous, s))
    ensures forall id :: id in SortIds(s.membership) <==> id in s.membership
    ensures forall id :: id in Wanted(previous, s) <==>
              id in s.membership && (s.mode.Full? || id in s.changed || id !in CachedIds(previous))
  {
    SortValid(s.membership);
    SelectOk(SortIds(s.membership), Needs(s.mode, s.changed, CachedIds(previous)));
    assert PlanOf(previous, s).Ok?;
  }

  lemma NeededIsWanted(plan: Plan, previous: Option<Snapshot>, s: Sync, wanted: seq<int>)
    requires PlanReads(plan, previous, s, wanted)
    ensures ValidNeeds(plan) && |NeededIds(plan)| == |wanted| && forall id :: id in NeededIds(plan) <==> id in wanted
  {
    assert seq(|plan.gets|, i requires 0 <= i < |plan.gets| => plan.gets[i].id) == wanted;
    SortValid(wanted);
  }

  lemma NoRefusal(plan: Plan, previous: Option<Snapshot>, s: Sync, wanted: seq<int>)
    requires PlanReads(plan, previous, s, wanted) && |s.details| == |wanted|
    requires previous.Some? ==> previous.value.checkpoint < s.asOf
    ensures Refusal(plan, previous, s.details, true).None?
  {
    NeededIsWanted(plan, previous, s, wanted);
    forall i | 0 <= i < |NeededIds(plan)| ensures NeededIds(plan)[i] in plan.membershipIds {
      var id := NeededIds(plan)[i];
      assert id in NeededIds(plan) && id in wanted;
    }
  }

  lemma LoadPrevious(previous: Option<Snapshot>, truth: Truth) returns (base: map<int, Record>)
    requires NormalTruth(truth) && CachedExactly(previous, truth)
    ensures Load(CachedRecords(previous), 0, map[]) == Ok(base)
    ensures base == if previous.Some? then truth(previous.value.checkpoint) else map[]
  {
    var cached := CachedRecords(previous);
    forall j, k | 0 <= j < k < |cached| ensures cached[j].record.id != cached[k].record.id {
      assert Ids(cached)[j] != Ids(cached)[k];
    }
    LoadOk(cached, 0, map[]);
    base := Load(cached, 0, map[]).value;
    if previous.Some? {
      var was := truth(previous.value.checkpoint);
      forall id | id in was ensures id in base && base[id] == was[id] {
        assert id in Ids(cached);
        var k :| 0 <= k < |cached| && Ids(cached)[k] == id;
      }
      forall id | id in base ensures id in was {}
    }
  }

  /** The records a sync stores for its members, with no assumption on `changed`. */
  ghost function Seen(previous: Option<Snapshot>, s: Sync, truth: Truth): map<int, Record>
    requires CachedExactly(previous, truth)
  {
    map id | id in truth(s.asOf) ::
      if id in Wanted(previous, s) || previous.None? || id !in truth(previous.value.checkpoint)
      then truth(s.asOf)[id] else truth(previous.value.checkpoint)[id]
  }

  /** Honest answers: one true record for each wanted id, in any order. */
  ghost predicate Answered(details: seq<Detail>, wanted: seq<int>, asOf: int, now: map<int, Record>) {
    && |details| == |wanted| && DistinctRecords(details)
    && (forall k :: 0 <= k < |details| ==>
          && details[k].record.id in wanted && details[k].record.id in now && details[k].asOf == asOf
          && details[k].record == now[details[k].record.id])
    && (forall id :: id in wanted ==> exists k :: 0 <= k < |details| && details[k].record.id == id)
  }

  lemma AnswersTrue(plan: Plan, details: seq<Detail>, wanted: seq<int>, asOf: int, now: map<int, Record>)
    requires GetsEach(plan, wanted, asOf) && forall id :: id in wanted ==> id in now && now[id].id == id
    requires forall k :: 0 <= k < |details| ==> details[k] in Reads(plan, now)
    ensures forall k :: 0 <= k < |details| ==>
              && details[k].record.id in wanted && details[k].record.id in now && details[k].asOf == asOf
              && details[k].record == now[details[k].record.id]
  {
    forall k | 0 <= k < |details|
      ensures details[k].record.id in wanted && details[k].record.id in now && details[k].asOf == asOf
      ensures details[k].record == now[details[k].record.id]
    {
      var i :| 0 <= i < |plan.gets| && Reads(plan, now)[i] == details[k];
      assert plan.gets[i].id == wanted[i];
    }
  }

  lemma AnswersEach(plan: Plan, details: seq<Detail>, wanted: seq<int>, asOf: int, now: map<int, Record>)
    requires GetsEach(plan, wanted, asOf) && forall id :: id in wanted ==> id in now && now[id].id == id
    requires forall i :: 0 <= i < |plan.gets| ==> Reads(plan, now)[i] in details
    ensures forall id :: id in wanted ==> exists k :: 0 <= k < |details| && details[k].record.id == id
  {
    forall id | id in wanted ensures exists k :: 0 <= k < |details| && details[k].record.id == id {
      var i :| 0 <= i < |wanted| && wanted[i] == id;
      assert Reads(plan, now)[i] in details;
    }
  }

  lemma HonestAnswers(previous: Option<Snapshot>, s: Sync, truth: Truth)
    requires Setting(previous, s, truth)
    ensures Answered(s.details, Wanted(previous, s), s.asOf, truth(s.asOf))
  {
    PlanOk(previous, s, truth);
    var plan, now, wanted := PlanOf(previous, s).value, truth(s.asOf), Wanted(previous, s);
    AnswersOk(plan, s.details, now);
    AnswersTrue(plan, s.details, wanted, s.asOf, now);
    AnswersEach(plan, s.details, wanted, s.asOf, now);
  }

  /** After the overlay every wanted id has its true record, and every other cached one its cached record. */
  lemma OverlayAnswers(details: seq<Detail>, wanted: seq<int>, needed: seq<int>, asOf: int, now: map<int, Record>,
                       base: map<int, Record>)
    requires Answered(details, wanted, asOf, now) && forall id :: id in needed <==> id in wanted
    requires forall id :: id in now ==> Normal(now[id]) && (id in base ==> base[id].revision <= now[id].revision)
    ensures Overlay(details, 0, asOf, needed, base, []).Ok?
    ensures var r := Overlay(details, 0, asOf, needed, base, []).value;
            && (forall id :: id in wanted ==> id in now && id in r && r[id] == now[id])
            && (forall id :: id in base && id !in wanted ==> id in r && r[id] == base[id])
  {
    forall k | 0 <= k < |details| ensures Acceptable(details[k], asOf, needed, base, []) {}
    OverlayOk(details, 0, asOf, needed, base, []);
    var r := Overlay(details, 0, asOf, needed, base, []).value;
    forall id | id in wanted ensures id in now && id in r && r[id] == now[id] {
      var k :| 0 <= k < |details| && details[k].record.id == id;
    }
  }

  lemma FinishAgrees(p: Plan, q: Plan, a: map<int, Record>, b: map<int, Record>, metadata: seq<StateMetadata>)
    requires p.asOf == q.asOf && p.membershipIds == q.membershipIds && ValidIds(p.membershipIds)
    requires forall id :: id in p.membershipIds ==> id in a && id in b && a[id] == b[id]
    ensures Finish(p, a, metadata) == Finish(q, b, metadata)
  {
    var categories := Categorise(metadata, 0, map[]);
    var ids := SortIds(p.membershipIds);
    SortValid(p.membershipIds);
    if categories.Ok? { AssembleAgrees(ids, 0, a, b, categories.value, [], Counts(|ids|, 0, 0, 0)); }
  }

  ghost function Base(previous: Option<Snapshot>, truth: Truth): map<int, Record> {
    if previous.Some? then truth(previous.value.checkpoint) else map[]
  }

  lemma OverlaySees(previous: Option<Snapshot>, s: Sync, truth: Truth, needed: seq<int>)
    requires Setting(previous, s, truth) && forall id :: id in needed <==> id in Wanted(previous, s)
    ensures var o := Overlay(s.details, 0, s.asOf, needed, Base(previous, truth), []);
            o.Ok? && forall id :: id in truth(s.asOf) ==> id in o.value && o.value[id] == Seen(previous, s, truth)[id]
  {
    PlanOk(previous, s, truth);
    HonestAnswers(previous, s, truth);
    OverlayAnswers(s.details, Wanted(previous, s), needed, s.asOf, truth(s.asOf), Base(previous, truth));
    forall id | id in truth(s.asOf) && id !in Wanted(previous, s)
      ensures previous.Some? && id in truth(previous.value.checkpoint)
    {
      SkippedIsCached(previous, s, truth, id);
    }
  }

  lemma SkippedIsCached(previous: Option<Snapshot>, s: Sync, truth: Truth, id: int)
    requires Setting(previous, s, truth) && id in truth(s.asOf) && id !in Wanted(previous, s)
    ensures previous.Some? && s.mode.Incremental? && id in truth(previous.value.checkpoint) && id !in s.changed
  {
    PlanOk(previous, s, truth);
    assert id in CachedIds(previous);
  }

  lemma MergeUnfolds(plan: Plan, previous: Option<Snapshot>, s: Sync, base: map<int, Record>, records: map<int, Record>)
    requires Refusal(plan, previous, s.details, true).None? && Load(CachedRecords(previous), 0, map[]) == Ok(base)
    requires Overlay(s.details, 0, plan.asOf, NeededIds(plan), base, []) == Ok(records)
    ensures Merge(plan, previous, s.details, s.metadata, true)
            == if |s.metadata| > METADATA_LIMIT then Err("State metadata budget exceeded.")
               else Finish(plan, records, s.metadata)
  {
  }

  /** A sync stores the records it sees. */
  lemma SyncSees(previous: Option<Snapshot>, s: Sync, truth: Truth)
    requires Setting(previous, s, truth)
    ensures Perform(previous, s) == Exactly(s, Seen(previous, s, truth))
  {
    PlanOk(previous, s, truth);
    HonestAnswers(previous, s, truth);
    var plan := PlanOf(previous, s).value;
    NoRefusal(plan, previous, s, Wanted(previous, s));
    NeededIsWanted(plan, previous, s, Wanted(previous, s));
    var base := LoadPrevious(previous, truth);
    OverlaySees(previous, s, truth, NeededIds(plan));
    var records := Overlay(s.details, 0, s.asOf, NeededIds(plan), base, []).value;
    MergeUnfolds(plan, previous, s, base, records);
    FinishAgrees(plan, Plan(s.mode, s.asOf, None, None, SortIds(s.membership), [], []), records,
                 Seen(previous, s, truth), s.metadata);
  }

  /** Whatever the mode, a sync whose changed ids cover every real change stores the truth. */
  lemma SyncIsExact(previous: Option<Snapshot>, s: Sync, truth: Truth)
    requires Setting(previous, s, truth) && Covers(previous, s, truth)
    ensures Perform(previous, s) == Exactly(s, truth(s.asOf))
  {
    SyncSees(previous, s, truth);
    SeenIsTrue(previous, s, truth);
  }

  lemma SeenIsTrue(previous: Option<Snapshot>, s: Sync, truth: Truth)
    requires Setting(previous, s, truth) && Covers(previous, s, truth)
    ensures Seen(previous, s, truth) == truth(s.asOf)
  {
    forall id | id in truth(s.asOf) ensures Seen(previous, s, truth)[id] == truth(s.asOf)[id] {
      if id !in Wanted(previous, s) { SkippedIsCached(previous, s, truth, id); }
    }
  }

  // ---------------------------------------------------------------- the promises

  /** Two syncs of one moment, one incremental and one full. */
  ghost predicate SameMoment(a: Sync, b: Sync) {
    a.asOf == b.asOf && a.membership == b.membership && a.metadata == b.metadata
  }

  /** The same records, classifications and counts, or the same refusal of the metadata. */
  lemma IncrementalEqualsFull(previous: Option<Snapshot>, incremental: Sync, full: Sync, truth: Truth)
    requires incremental.mode.Incremental? && full.mode.Full? && SameMoment(incremental, full)
    requires Setting(previous, incremental, truth) && Setting(previous, full, truth)
    requires Covers(previous, incremental, truth)
    ensures Perform(previous, incremental) == Perform(previous, full)
  {
    SyncIsExact(previous, incremental, truth);
    SyncIsExact(previous, full, truth);
    PlanOk(previous, full, truth);
    ExactlyIgnoresMode(incremental, full, truth(full.asOf));
  }

  lemma ExactlyIgnoresMode(a: Sync, b: Sync, now: map<int, Record>)
    requires SameMoment(a, b) && ValidIds(SortIds(a.membership))
             && forall id :: id in SortIds(a.membership) ==> id in now
    ensures Exactly(a, now) == Exactly(b, now)
  {
    FinishAgrees(Plan(a.mode, a.asOf, None, None, SortIds(a.membership), [], []),
                 Plan(b.mode, b.asOf, None, None, SortIds(b.membership), [], []), now, now, a.metadata);
  }

  ghost predicate KeyedById(now: map<int, Record>) {
    forall id :: id in now ==> now[id].id == id
  }

  /** The records of a finished snapshot are what Assemble builds for the sorted members. */
  lemma ExactlyBuilds(s: Sync, now: map<int, Record>)
    requires ListsKeys(s.membership, now) && Exactly(s, now).Ok?
    ensures Categorise(s.metadata, 0, map[]).Ok?
    ensures var snapshot, ids := Exactly(s, now).value, SortIds(SortIds(s.membership));
            && snapshot.checkpoint == s.asOf && snapshot.counts.tracked == |ids| == |s.membership|
            && BuiltRight(ids, |ids|, now, Categorise(s.metadata, 0, map[]).value, snapshot.records, snapshot.counts)
            && (snapshot.classificationComplete <==> snapshot.counts.unclassified == 0)
            && Ascending(ids) && ListsKeys(ids, now)
  {
    SortValid(s.membership);
    SortValid(SortIds(s.membership));
    var ids := SortIds(SortIds(s.membership));
    forall k | 0 <= k < |ids| ensures ids[k] in now { assert ids[k] in ids; }
    AssembleOk(ids, 0, now, Categorise(s.metadata, 0, map[]).value, [], Counts(|ids|, 0, 0, 0));
  }

  /** What a finished snapshot says: each member's record once, by ascending id, classified and counted right. */
  lemma ExactlyOk(s: Sync, now: map<int, Record>)
    requires ListsKeys(s.membership, now) && KeyedById(now) && Exactly(s, now).Ok?
    ensures var snapshot := Exactly(s, now).value;
            && snapshot.checkpoint == s.asOf
            && Ascending(Ids(snapshot.records)) && ListsKeys(Ids(snapshot.records), now)
            && (forall k :: 0 <= k < |snapshot.records| ==>
                  snapshot.records[k].record.id in now
                  && snapshot.records[k].record == now[snapshot.records[k].record.id])
            && CountsRight(snapshot.counts, snapshot.records)
            && |snapshot.records| == snapshot.counts.tracked == |s.membership|
            && snapshot.counts.knownOpen + snapshot.counts.knownClosed + snapshot.counts.unclassified
               == snapshot.counts.tracked
            && (snapshot.classificationComplete <==> snapshot.counts.unclassified == 0)
    ensures Categorise(s.metadata, 0, map[]).Ok?
    ensures var records, categories := Exactly(s, now).value.records, Categorise(s.metadata, 0, map[]).value;
            forall k :: 0 <= k < |records| ==>
              records[k].classification == Classify(Lookup(categories, records[k].record))
  {
    ExactlyBuilds(s, now);
    var records := Exactly(s, now).value.records;
    assert Ids(records) == SortIds(SortIds(s.membership));
    CountsAddUp(records);
  }

  /** A snapshot of the truth is an exact cache for the next sync. */
  lemma ExactlyCaches(s: Sync, truth: Truth)
    requires NormalTruth(truth) && ListsKeys(s.membership, truth(s.asOf)) && Exactly(s, truth(s.asOf)).Ok?
    ensures CachedExactly(Some(Exactly(s, truth(s.asOf)).value), truth)
  {
    ExactlyOk(s, truth(s.asOf));
  }

  /** The incremental result is the full one exactly when the changed ids cover every real change. */
  lemma ExactIffCovered(previous: Option<Snapshot>, s: Sync, truth: Truth)
    requires Setting(previous, s, truth) && Exactly(s, truth(s.asOf)).Ok?
    ensures Perform(previous, s) == Exactly(s, truth(s.asOf)) <==> Covers(previous, s, truth)
  {
    if Covers(previous, s, truth) {
      SyncIsExact(previous, s, truth);
    } else {
      SyncSees(previous, s, truth);
      var id :| id in truth(previous.value.checkpoint) && id in truth(s.asOf) && id !in s.changed
             && truth(previous.value.checkpoint)[id] != truth(s.asOf)[id];
      MissedChangeShows(previous, s, truth, id);
    }
  }

  /** Equal snapshots come from equal records. */
  lemma ExactlyTells(s: Sync, a: map<int, Record>, b: map<int, Record>, id: int)
    requires ListsKeys(s.membership, a) && KeyedById(a) && ListsKeys(s.membership, b) && KeyedById(b)
    requires Exactly(s, a).Ok? && Exactly(s, a) == Exactly(s, b) && id in s.membership
    ensures a[id] == b[id]
  {
    ExactlyOk(s, a);
    ExactlyOk(s, b);
    var k :| 0 <= k < |Exactly(s, a).value.records| && Ids(Exactly(s, a).value.records)[k] == id;
  }

  lemma MissedChangeShows(previous: Option<Snapshot>, s: Sync, truth: Truth, id: int)
    requires Setting(previous, s, truth) && s.mode.Incremental? && Exactly(s, truth(s.asOf)).Ok?
    requires id in truth(previous.value.checkpoint) && id in truth(s.asOf) && id !in s.changed
    requires truth(previous.value.checkpoint)[id] != truth(s.asOf)[id]
    ensures Exactly(s, Seen(previous, s, truth)) != Exactly(s, truth(s.asOf))
  {
    var now, seen := truth(s.asOf), Seen(previous, s, truth);
    PlanOk(previous, s, truth);
    assert seen[id] == truth(previous.value.checkpoint)[id];
    if Exactly(s, seen) == Exactly(s, now) { ExactlyTells(s, now, seen, id); }
  }

  // ---------------------------------------------------------------- runs of syncs

  /** A refused sync leaves the stored snapshot alone. */
  ghost function After(previous: Option<Snapshot>, s: Sync): Option<Snapshot> {
    var r := Perform(previous, s);
    if r.Ok? then Some(r.value) else previous
  }

  ghost function RunSyncs(previous: Option<Snapshot>, syncs: seq<Sync>): Option<Snapshot>
    decreases |syncs|
  {
    if |syncs| == 0 then previous else RunSyncs(After(previous, syncs[0]), syncs[1..])
  }

  ghost predicate Faithful(previous: Option<Snapshot>, syncs: seq<Sync>, truth: Truth)
    decreases |syncs|
  {
    |syncs| == 0 ||
    (Honest(previous, syncs[0], truth) && Covers(previous, syncs[0], truth)
     && Faithful(After(previous, syncs[0]), syncs[1..], truth))
  }

  /**
    Any mix of full and incremental syncs keeps the stored snapshot exact at its checkpoint, whoever
    leaves and rejoins in between.
  */
  lemma {:induction false} SyncsStayExact(previous: Option<Snapshot>, syncs: seq<Sync>, truth: Truth)
    requires NormalTruth(truth) && RevisionsNeverFall(truth) && CachedExactly(previous, truth)
    requires Faithful(previous, syncs, truth)
    ensures CachedExactly(RunSyncs(previous, syncs), truth)
    decreases |syncs|
  {
    if |syncs| > 0 {
      SyncIsExact(previous, syncs[0], truth);
      if Perform(previous, syncs[0]).Ok? { ExactlyCaches(syncs[0], truth); }
      SyncsStayExact(After(previous, syncs[0]), syncs[1..], truth);
    }
  }
}
