/**
  The full-text index and its paging (control-plane/src/documentSearch.ts).

  The table's triggers mark every row written as dirty, whoever writes it.  An upgraded writer's own trigger then
  projects the row at once; a legacy writer leaves it dirty until the next refresh.  The three tables are sequences
  over row ids.  `Registry` is what the registered kinds project their documents to.
*/
module DocumentSearch {
  import opened Sorting
  import opened Wrappers

  const SEARCH_VERSION: nat := 3

  type Registry = (string, string, map<string, string>) -> Option<string>

  datatype Resource = Resource(id: string, kind: string, fields: map<string, string>, workstreams: seq<string>,
                               parents: seq<string>, createdAt: nat, updatedAt: nat, deleted: bool)

  datatype Entry = Entry(id: string, kind: string, title: string, body: string)

  /** `counter` is the store's global version. */
  datatype State = State(resources: seq<Option<Resource>>, index: seq<Option<Entry>>, dirty: seq<bool>,
                         searchVersion: nat, counter: nat)

  datatype Writer = Upgraded | Legacy

  // ---------------------------------------------------------------- what a row is indexed as

  function Field(fields: map<string, string>, name: string): string { if name in fields then fields[name] else "" }

  function Title(r: Resource): string {
    if "title" in r.fields then r.fields["title"]
    else if "name" in r.fields then r.fields["name"]
    else if "label" in r.fields then r.fields["label"]
    else r.id
  }

  /** An unknown kind exposes its prose fields only. */
  function SearchText(registry: Registry, r: Resource): string {
    match registry(r.kind, r.id, r.fields)
    case Some(text) => text
    case None => Field(r.fields, "body") + "\n" + Field(r.fields, "description") + "\n" + Field(r.fields, "closure")
  }

  function Project(registry: Registry, row: Option<Resource>): Option<Entry> {
    if row.None? || row.value.deleted then None
    else Some(Entry(row.value.id, row.value.kind, Title(row.value), SearchText(registry, row.value)))
  }

  function ProjectAll(registry: Registry, resources: seq<Option<Resource>>): seq<Option<Entry>> {
    seq(|resources|, i requires 0 <= i < |resources| => Project(registry, resources[i]))
  }

  // ---------------------------------------------------------------- triggers

  ghost predicate Shaped(s: State) { |s.index| == |s.dirty| == |s.resources| }

  /** The row is marked dirty; an upgraded writer replaces its entry and clears the mark. */
  function Touch(registry: Registry, s: State, row: nat, writer: Writer): State
    requires row < |s.index| == |s.dirty| == |s.resources|
  {
    if writer.Legacy? then s.(dirty := s.dirty[row := true])
    else s.(index := s.index[row := Project(registry, s.resources[row])], dirty := s.dirty[row := false])
  }

  function Refresh(registry: Registry, s: State): State
    requires |s.index| == |s.dirty| == |s.resources|
  {
    s.(index := seq(|s.index|, i requires 0 <= i < |s.index| =>
                  if s.dirty[i] then Project(registry, s.resources[i]) else s.index[i]),
       dirty := seq(|s.dirty|, i => false))
  }

  /** Opening rebuilds the index unless it has the current version. */
  function Ensure(registry: Registry, s: State): State
    requires |s.index| == |s.dirty| == |s.resources|
  {
    Refresh(registry, if s.searchVersion < SEARCH_VERSION
                      then s.(index := ProjectAll(registry, s.resources), searchVersion := SEARCH_VERSION) else s)
  }

  datatype Op =
    | Insert(row: nat, resource: Resource, writer: Writer)
    | Update(row: nat, resource: Resource, writer: Writer)
    | Move(from: nat, to: nat, resource: Resource, writer: Writer)
    | Remove(row: nat, writer: Writer)
    | Open
    | Query

  /** One write is one step of the store's counter. */
  function Put(s: State, row: nat, resource: Option<Resource>): State
    requires row < |s.resources|
  {
    s.(resources := s.resources[row := resource], counter := s.counter + 1)
  }

  function Grow(s: State): State {
    s.(resources := s.resources + [None], index := s.index + [None], dirty := s.dirty + [false])
  }

  predicate Fits(s: State, op: Op) {
    match op
    case Insert(row, _, _) => row <= |s.resources| && (row < |s.resources| ==> s.resources[row].None?)
    case Update(row, _, _) => row < |s.resources| && s.resources[row].Some?
    case Move(from, to, _, _) =>
      from < |s.resources| && to < |s.resources| && from != to && s.resources[from].Some? && s.resources[to].None?
    case Remove(row, _) => row < |s.resources| && s.resources[row].Some?
    case Open => true
    case Query => true
  }

  function Step(registry: Registry, s: State, op: Op): State
    requires |s.index| == |s.dirty| == |s.resources|
  {
    if !Fits(s, op) then s
    else
      match op
      case Insert(row, r, writer) =>
        var grown := if row == |s.resources| then Grow(s) else s;
        Touch(registry, Put(grown, row, Some(r)), row, writer)
      case Update(row, r, writer) => Touch(registry, Put(s, row, Some(r)), row, writer)
      case Move(from, to, r, writer) =>
        var moved := Put(s, from, None).(resources := s.resources[from := None][to := Some(r)]);
        Touch(registry, Touch(registry, moved, from, writer), to, writer)
      case Remove(row, writer) => Touch(registry, Put(s, row, None), row, writer)
      case Open => Ensure(registry, s)
      case Query => Refresh(registry, Ensure(registry, s))
  }

  // ---------------------------------------------------------------- queries

  datatype Ordering = ByUpdate | ByTitle

  datatype Options = Options(id: Option<string>, kind: Option<string>, query: Option<string>,
                             workstream: Option<string>, parent: Option<string>, topicType: Option<string>,
                             status: Option<string>, updatedAfter: Option<nat>, updatedBefore: Option<nat>,
                             order: Ordering, limit: nat, offset: nat, expectedVersion: Option<nat>,
                             bodyOffset: nat, bodyLimit: nat)

  const QUERY_KINDS: seq<string> :=
    ["Topic", "Workstream", "AgentMessage", "CommandJournal", "ContainerClaim", "TopicType", "Agent"]

  function LowerChar(c: char): char { if 'A' <= c <= 'Z' then ((c as int) + 32) as char else c }

  function Lower(s: string): string { seq(|s|, i requires 0 <= i < |s| => LowerChar(s[i])) }

  predicate HoldsAt(text: string, piece: string, at: nat) { at + |piece| <= |text| && text[at..at + |piece|] == piece }

  predicate Contains(text: string, piece: string) { exists at :: 0 <= at <= |text| && HoldsAt(text, piece, at) }

  predicate TopicOnly(o: Options) { o.workstream.Some? || o.parent.Some? || o.topicType.Some? }

  predicate KindAllowed(o: Options, readable: set<string>, kind: string) {
    && kind in QUERY_KINDS && kind in readable && (o.kind.Some? ==> o.kind.value == kind)
    && (TopicOnly(o) ==> kind == "Topic")
  }

  predicate FieldIs(fields: map<string, string>, name: string, wanted: Option<string>) {
    wanted.Some? ==> name in fields && fields[name] == wanted.value
  }

  /** The conditions on the resource itself. */
  predicate Selects(o: Options, readable: set<string>, r: Resource) {
    && !r.deleted && KindAllowed(o, readable, r.kind)
    && (o.id.Some? ==> r.id == o.id.value)
    && (o.workstream.Some? ==> o.workstream.value in r.workstreams)
    && (o.parent.Some? ==> o.parent.value in r.parents)
    && FieldIs(r.fields, "topicType", o.topicType) && FieldIs(r.fields, "status", o.status)
    && (o.updatedAfter.Some? ==> r.updatedAt >= o.updatedAfter.value)
    && (o.updatedBefore.Some? ==> r.updatedAt <= o.updatedBefore.value)
  }

  /** The condition on the row's index entry; a row without an entry contains nothing. */
  predicate Mentions(entry: Option<Entry>, query: Option<string>) {
    query.Some? ==> entry.Some? && Contains(Lower(entry.value.body + "\n" + entry.value.title), Lower(query.value))
  }

  datatype Hit = Hit(id: string, kind: string, title: string, body: string, updatedAt: nat)

  function HitOf(r: Resource, entry: Option<Entry>): Hit {
    Hit(r.id, r.kind, Title(r), if entry.Some? then entry.value.body else "", r.updatedAt)
  }

  /** The rows that pass the filter, in table order. */
  function Matching(o: Options, readable: set<string>, resources: seq<Option<Resource>>,
                    index: seq<Option<Entry>>): seq<Hit>
    requires |index| == |resources|
  {
    if |resources| == 0 then []
    else
      var n := |resources| - 1;
      var before := Matching(o, readable, resources[..n], index[..n]);
      if resources[n].Some? && Selects(o, readable, resources[n].value) && Mentions(index[n], o.query)
      then before + [HitOf(resources[n].value, index[n])] else before
  }

  /** Character by character. */
  predicate TextBefore(a: string, b: string) {
    if |b| == 0 then false
    else if |a| == 0 then true
    else if a[0] != b[0] then a[0] < b[0]
    else TextBefore(a[1..], b[1..])
  }

  predicate HitBefore(order: Ordering, a: Hit, b: Hit) {
    match order
    case ByUpdate => a.updatedAt > b.updatedAt || (a.updatedAt == b.updatedAt && TextBefore(a.id, b.id))
    case ByTitle =>
      TextBefore(Lower(a.title), Lower(b.title)) || (Lower(a.title) == Lower(b.title) && TextBefore(a.id, b.id))
  }

  function InOrder(order: Ordering, hits: seq<Hit>): seq<Hit> { Sort((a: Hit, b: Hit) => HitBefore(order, a, b), hits) }

  /** Everything the query finds, before paging. */
  function Found(s: State, o: Options, readable: set<string>): seq<Hit>
    requires |s.index| == |s.resources|
  {
    InOrder(o.order, Matching(o, readable, s.resources, s.index))
  }

  function Slice<T>(items: seq<T>, offset: nat, limit: nat): seq<T> {
    items[Min(offset, |items|)..Min(offset + limit, |items|)]
  }

  datatype Document = Document(hit: Hit, body: string, bodyLength: nat, nextBodyOffset: Option<nat>)

  function Shown(o: Options, hit: Hit): Document {
    var next := o.bodyOffset + o.bodyLimit;
    Document(hit, Slice(hit.body, o.bodyOffset, o.bodyLimit), |hit.body|,
             if next < |hit.body| then Some(next) else None)
  }

  function ShowAll(o: Options, hits: seq<Hit>): seq<Document> {
    seq(|hits|, i requires 0 <= i < |hits| => Shown(o, hits[i]))
  }

  datatype Page = Page(total: nat, version: nat, nextOffset: Option<nat>, documents: seq<Document>)

  /** The page of a refreshed index. */
  function PageOf(s: State, o: Options, readable: set<string>): Result<Page, string>
    requires |s.index| == |s.resources|
  {
    if o.expectedVersion.Some? && o.expectedVersion.value != s.counter then Err("documents changed while paging")
    else if !exists kind :: kind in QUERY_KINDS && KindAllowed(o, readable, kind) then Ok(Page(0, s.counter, None, []))
    else
      var all := Found(s, o, readable);
      var rows := Slice(all, o.offset, o.limit);
      Ok(Page(|all|, s.counter, if o.offset + |rows| < |all| then Some(o.offset + |rows|) else None, ShowAll(o, rows)))
  }

  // ---------------------------------------------------------------- as the service runs it

  class SearchIndex {
    const registry: Registry
    var resources: seq<Option<Resource>>
    var index: seq<Option<Entry>>
    var dirty: seq<bool>
    var searchVersion: nat
    var counter: nat

    ghost function View(): State
      reads this
    {
      State(resources, index, dirty, searchVersion, counter)
    }

    constructor (registry: Registry)
      ensures View() == State([], [], [], 0, 0) && this.registry == registry
    {
      this.registry := registry;
      resources, index, dirty, searchVersion, counter := [], [], [], 0, 0;
    }

    /** Both triggers of one row. */
    method MarkRow(row: nat, writer: Writer)
      requires Shaped(View()) && row < |resources|
      modifies this`index, this`dirty
      ensures View() == Touch(registry, old(View()), row, writer)
    {
      dirty := dirty[row := true];
      if writer.Upgraded? {
        index := index[row := Project(registry, resources[row])];
        dirty := dirty[row := false];
      }
    }

    method WriteRow(row: nat, resource: Resource, writer: Writer)
      requires Shaped(View()) && row < |resources| && resources[row].Some?
      modifies this
      ensures View() == Step(registry, old(View()), Update(row, resource, writer))
    {
      resources := resources[row := Some(resource)];
      counter := counter + 1;
      MarkRow(row, writer);
    }

    method MoveRow(from: nat, to: nat, resource: Resource, writer: Writer)
      requires Shaped(View()) && Fits(View(), Move(from, to, resource, writer))
      modifies this
      ensures View() == Step(registry, old(View()), Move(from, to, resource, writer))
    {
      resources := resources[from := None][to := Some(resource)];
      counter := counter + 1;
      MarkRow(from, writer);
      MarkRow(to, writer);
    }

    method RefreshIndex()
      requires Shaped(View())
      modifies this`index, this`dirty
      ensures View() == Refresh(registry, old(View()))
    {
      if true !in dirty {
        assert index == Refresh(registry, View()).index && dirty == Refresh(registry, View()).dirty;
        return;
      }
      index := seq(|index|, i requires 0 <= i < |index| && |dirty| == |index| == |resources| reads this =>
        if dirty[i] then Project(registry, resources[i]) else index[i]);
      dirty := seq(|dirty|, i => false);
    }

    method EnsureIndex()
      requires Shaped(View())
      modifies this
      ensures View() == Ensure(registry, old(View()))
    {
      if searchVersion < SEARCH_VERSION {
        index := ProjectAll(registry, resources);
        searchVersion := SEARCH_VERSION;
      }
      RefreshIndex();
    }

    method QueryDocuments(o: Options, readable: set<string>) returns (page: Result<Page, string>)
      requires Shaped(View())
      modifies this
      ensures View() == Step(registry, old(View()), Query)
      ensures page == PageOf(View(), o, readable)
    {
      EnsureIndex();
      RefreshIndex();
      if o.expectedVersion.Some? && o.expectedVersion.value != counter { return Err("documents changed while paging"); }
      if !exists kind :: kind in QUERY_KINDS && KindAllowed(o, readable, kind) {
        return Ok(Page(0, counter, None, []));
      }
      var all := InOrder(o.order, Matching(o, readable, resources, index));
      var rows := Slice(all, o.offset, o.limit);
      var next := o.offset + |rows|;
      page := Ok(Page(|all|, counter, if next < |all| then Some(next) else None, ShowAll(o, rows)));
    }
  }
}
