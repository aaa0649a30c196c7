/** Planning and merging of Thrive snapshots (shared/thriveSnapshot.ts).  Timestamps are milliseconds. */
module ThriveSnapshot {
  import opened Wrappers

  const SNAPSHOT_LIMIT := 2000
  const OVERLAP_MS := 120000
  const METADATA_LIMIT := 10000
  const MAX_SAFE := 9007199254740991

  datatype Record = Record(id: int, revision: int, kind: string, state: string, title: string)

  datatype Classification = Open | Closed | Unclassified

  datatype Classified = Classified(record: Record, classification: Classification)

  datatype Counts = Counts(tracked: nat, knownOpen: nat, knownClosed: nat, unclassified: nat)

  datatype Snapshot = Snapshot(checkpoint: int, records: seq<Classified>, classificationComplete: bool, counts: Counts)

  datatype Mode = Full | Incremental

  datatype Get = Get(id: int, asOf: int)

  datatype Plan = Plan(mode: Mode, asOf: int, previousCheckpoint: Option<int>, changedSince: Option<int>,
                       membershipIds: seq<int>, removedIds: seq<int>, gets: seq<Get>)

  datatype Detail = Detail(asOf: int, record: Record)

  datatype StateMetadata = StateMetadata(kind: string, state: string, category: string)

  // ---------------------------------------------------------------- ids

  predicate ValidIds(ids: seq<int>) {
    && |ids| <= SNAPSHOT_LIMIT
    && (forall i :: 0 <= i < |ids| ==> 0 < ids[i] <= MAX_SAFE)
    && (forall i, k :: 0 <= i < k < |ids| ==> ids[i] != ids[k])
  }

  function Insert(x: int, s: seq<int>): seq<int> {
    if |s| == 0 then [x] else if x <= s[0] then [x] + s else [s[0]] + Insert(x, s[1..])
  }

  function SortIds(s: seq<int>): seq<int> {
    if |s| == 0 then [] else Insert(s[0], SortIds(s[1..]))
  }

  function Select(ids: seq<int>, keep: int -> bool): seq<int> {
    if |ids| == 0 then []
    else if keep(ids[|ids| - 1]) then Select(ids[..|ids| - 1], keep) + [ids[|ids| - 1]]
    else Select(ids[..|ids| - 1], keep)
  }

  // ---------------------------------------------------------------- planning

  function Needs(mode: Mode, changed: seq<int>, cached: seq<int>): int -> bool {
    id => mode.Full? || id in changed || id !in cached
  }

  function MakePlan(mode: Mode, asOf: int, previous: Option<int>, membershipIds: seq<int>, changedIds: seq<int>,
                    cachedIds: seq<int>): Result<Plan, string>
  {
    if previous.Some? && previous.value >= asOf then Err("Snapshot must advance the checkpoint.")
    else if mode.Incremental? && previous.None? then Err("Incremental sync needs a checkpoint.")
    else if !ValidIds(membershipIds) || !ValidIds(changedIds) || !ValidIds(cachedIds)
    then Err("IDs must be unique positive integers within the snapshot budget.")
    else
      var membership := SortIds(membershipIds);
      var wanted := Select(membership, Needs(mode, changedIds, cachedIds));
      Ok(Plan(mode, asOf, previous,
              if mode.Incremental? then Some(Max(0, previous.value - OVERLAP_MS)) else None,
              membership,
              SortIds(Select(SortIds(cachedIds), id => id !in membershipIds)),
              seq(|wanted|, i requires 0 <= i < |wanted| => Get(wanted[i], asOf))))
  }

  // ---------------------------------------------------------------- merging

  predicate Normal(r: Record) {
    && 0 < r.id <= MAX_SAFE && 0 < r.revision <= MAX_SAFE
    && 0 < |r.kind| <= 128 && 0 < |r.state| <= 128 && |r.title| <= 512
  }

  predicate ValidMetadata(m: StateMetadata) {
    0 < |m.kind| <= 128 && 0 < |m.state| <= 128 && |m.category| <= 128
  }

  function Classify(category: Option<string>): Classification {
    if category in {Some("Proposed"), Some("InProgress"), Some("Resolved")} then Open
    else if category in {Some("Completed"), Some("Removed")} then Closed
    else Unclassified
  }

  type Categories = map<(string, string), string>

  function Lookup(categories: Categories, r: Record): Option<string> {
    if (r.kind, r.state) in categories then Some(categories[(r.kind, r.state)]) else None
  }

  /** Loads the cached records from position i on. */
  function Load(cached: seq<Classified>, i: nat, records: map<int, Record>): Result<map<int, Record>, string>
    requires i <= |cached|
    decreases |cached| - i
  {
    if i == |cached| then Ok(records)
    else
      var r := cached[i].record;
      if r.id in records then Err("Duplicate cached record.")
      else if !Normal(r) then Err("Invalid normalized work item.")
      else Load(cached, i + 1, records[r.id := r])
  }

  /** Overlays the details from position i on. */
  function Overlay(details: seq<Detail>, i: nat, asOf: int, needed: seq<int>, records: map<int, Record>,
                   seen: seq<int>):
    Result<map<int, Record>, string>
    requires i <= |details|
    decreases |details| - i
  {
    if i == |details| then Ok(records)
    else
      var r := details[i].record;
      if !Normal(r) then Err("Invalid normalized work item.")
      else if details[i].asOf != asOf || r.id !in needed || r.id in seen
      then Err("Unexpected, duplicate, or nonhistorical detail.")
      else if r.id in records && r.revision < records[r.id].revision then Err("Revision regression.")
      else Overlay(details, i + 1, asOf, needed, records[r.id := r], seen + [r.id])
  }

  function Categorise(metadata: seq<StateMetadata>, i: nat, categories: Categories): Result<Categories, string>
    requires i <= |metadata|
    decreases |metadata| - i
  {
    if i == |metadata| then Ok(categories)
    else
      var m := metadata[i];
      if !ValidMetadata(m) then Err("Invalid state metadata.")
      else if (m.kind, m.state) in categories then Err("Duplicate state metadata.")
      else Categorise(metadata, i + 1, categories[(m.kind, m.state) := m.category])
  }

  function Counted(c: Counts, k: Classification): Counts {
    match k
    case Open => c.(knownOpen := c.knownOpen + 1)
    case Closed => c.(knownClosed := c.knownClosed + 1)
    case Unclassified => c.(unclassified := c.unclassified + 1)
  }

  function Assemble(ids: seq<int>, i: nat, records: map<int, Record>, categories: Categories,
                    built: seq<Classified>, counts: Counts): Result<(seq<Classified>, Counts), string>
    requires i <= |ids|
    decreases |ids| - i
  {
    if i == |ids| then Ok((built, counts))
    else if ids[i] !in records then Err("Missing member detail.")
    else
      var r := records[ids[i]];
      var k := Classify(Lookup(categories, r));
      Assemble(ids, i + 1, records, categories, built + [Classified(r, k)], Counted(counts, k))
  }

  function NeededIds(plan: Plan): seq<int> {
    SortIds(seq(|plan.gets|, i requires 0 <= i < |plan.gets| => plan.gets[i].id))
  }

  predicate TimesAgree(plan: Plan) {
    forall i :: 0 <= i < |plan.gets| ==> plan.gets[i].asOf == plan.asOf
  }

  predicate ValidNeeds(plan: Plan) {
    ValidIds(seq(|plan.gets|, i requires 0 <= i < |plan.gets| => plan.gets[i].id))
  }

  /** The checks made before any record is touched. */
  function Refusal(plan: Plan, previous: Option<Snapshot>, details: seq<Detail>, complete: bool): Option<string> {
    if !complete then Some("Incomplete snapshot.")
    else if (if previous.Some? then Some(previous.value.checkpoint) else None) != plan.previousCheckpoint
    then Some("Stale snapshot base.")
    else if previous.Some? && previous.value.checkpoint >= plan.asOf then Some("Stale snapshot.")
    else if !ValidIds(plan.membershipIds) then Some("IDs must be unique positive integers within the snapshot budget.")
    else if !TimesAgree(plan) then Some("Historical read timestamp mismatch.")
    else if !ValidNeeds(plan) then Some("IDs must be unique positive integers within the snapshot budget.")
    else if exists i :: 0 <= i < |NeededIds(plan)| && NeededIds(plan)[i] !in plan.membershipIds
    then Some("Out-of-scope detail request.")
    else if plan.mode.Full? && |NeededIds(plan)| != |plan.membershipIds| then Some("Incomplete full plan.")
    else if |details| != |NeededIds(plan)| then Some("Incomplete or duplicate historical details.")
    else None
  }

  function CachedRecords(previous: Option<Snapshot>): seq<Classified> {
    if previous.Some? then previous.value.records else []
  }

  function Merge(plan: Plan, previous: Option<Snapshot>, details: seq<Detail>, metadata: seq<StateMetadata>,
                 complete: bool): Result<Snapshot, string>
  {
    var refusal := Refusal(plan, previous, details, complete);
    if refusal.Some? then Err(refusal.value)
    else
      var loaded := Load(CachedRecords(previous), 0, map[]);
      if loaded.Err? then Err(loaded.error)
      else
        var overlaid := Overlay(details, 0, plan.asOf, NeededIds(plan), loaded.value, []);
        if overlaid.Err? then Err(overlaid.error)
        else if |metadata| > METADATA_LIMIT then Err("State metadata budget exceeded.")
        else Finish(plan, overlaid.value, metadata)
  }

  function Finish(plan: Plan, records: map<int, Record>, metadata: seq<StateMetadata>): Result<Snapshot, string> {
    var categories := Categorise(metadata, 0, map[]);
    if categories.Err? then Err(categories.error)
    else
      var ids := SortIds(plan.membershipIds);
      var built := Assemble(ids, 0, records, categories.value, [], Counts(|ids|, 0, 0, 0));
      if built.Err? then Err(built.error)
      else Ok(Snapshot(plan.asOf, built.value.0, built.value.1.unclassified == 0, built.value.1))
  }

  // ---------------------------------------------------------------- as the adapter runs it

  method LoadCached(cached: seq<Classified>) returns (r: Result<map<int, Record>, string>)
    ensures r == Load(cached, 0, map[])
  {
    var records: map<int, Record> := map[];
    for i := 0 to |cached|
      invariant Load(cached, i, records) == Load(cached, 0, map[])
    {
      var record := cached[i].record;
      if record.id in records { return Err("Duplicate cached record."); }
      if !Normal(record) { return Err("Invalid normalized work item."); }
      records := records[record.id := record];
    }
    r := Ok(records);
  }

  method OverlayDetails(details: seq<Detail>, asOf: int, needed: seq<int>, base: map<int, Record>)
    returns (r: Result<map<int, Record>, string>)
    ensures r == Overlay(details, 0, asOf, needed, base, [])
  {
    var records := base;
    var seen: seq<int> := [];
    for i := 0 to |details|
      invariant Overlay(details, i, asOf, needed, records, seen) == Overlay(details, 0, asOf, needed, base, [])
    {
      var record := details[i].record;
      if !Normal(record) { return Err("Invalid normalized work item."); }
      if details[i].asOf != asOf || record.id !in needed || record.id in seen {
        return Err("Unexpected, duplicate, or nonhistorical detail.");
      }
      if record.id in records && record.revision < records[record.id].revision { return Err("Revision regression."); }
      seen := seen + [record.id];
      records := records[record.id := record];
    }
    r := Ok(records);
  }

  method ReadCategories(metadata: seq<StateMetadata>) returns (r: Result<Categories, string>)
    ensures r == Categorise(metadata, 0, map[])
  {
    var categories: Categories := map[];
    for i := 0 to |metadata|
      invariant Categorise(metadata, i, categories) == Categorise(metadata, 0, map[])
    {
      var m := metadata[i];
      if !ValidMetadata(m) { return Err("Invalid state metadata."); }
      if (m.kind, m.state) in categories { return Err("Duplicate state metadata."); }
      categories := categories[(m.kind, m.state) := m.category];
    }
    r := Ok(categories);
  }

  method BuildRecords(ids: seq<int>, records: map<int, Record>, categories: Categories)
    returns (r: Result<(seq<Classified>, Counts), string>)
    ensures r == Assemble(ids, 0, records, categories, [], Counts(|ids|, 0, 0, 0))
  {
    var counts := Counts(|ids|, 0, 0, 0);
    var built: seq<Classified> := [];
    for i := 0 to |ids|
      invariant Assemble(ids, i, records, categories, built, counts)
                == Assemble(ids, 0, records, categories, [], Counts(|ids|, 0, 0, 0))
    {
      if ids[i] !in records { return Err("Missing member detail."); }
      var record := records[ids[i]];
      var k := Classify(Lookup(categories, record));
      counts := Counted(counts, k);
      built := built + [Classified(record, k)];
    }
    r := Ok((built, counts));
  }

  method MergeSnapshot(plan: Plan, previous: Option<Snapshot>, details: seq<Detail>, metadata: seq<StateMetadata>,
                       complete: bool) returns (r: Result<Snapshot, string>)
    ensures r == Merge(plan, previous, details, metadata, complete)
  {
    var refusal := Refusal(plan, previous, details, complete);
    if refusal.Some? { return Err(refusal.value); }
    var loaded := LoadCached(CachedRecords(previous));
    if loaded.Err? { return Err(loaded.error); }
    var overlaid := OverlayDetails(details, plan.asOf, NeededIds(plan), loaded.value);
    if overlaid.Err? { return Err(overlaid.error); }
    if |metadata| > METADATA_LIMIT { return Err("State metadata budget exceeded."); }
    var categories := ReadCategories(metadata);
    if categories.Err? { return Err(categories.error); }
    var ids := SortIds(plan.membershipIds);
    var built := BuildRecords(ids, overlaid.value, categories.value);
    if built.Err? { return Err(built.error); }
    var counts := built.value.1;
    r := Ok(Snapshot(plan.asOf, built.value.0, counts.unclassified == 0, counts));
  }
}
