// The collection tree: nodes made for the collections on the fields' chains, with
// every field's report attached to its innermost collection.
module Tree {
  import opened Common
  import opened Hid
  import opened Fields

  type ColId = nat

  datatype Direction = Input | Output | Feature

  // A report without an id has id 0.
  datatype ParsedReport = ParsedReport(id: Byte, fields: seq<HidField>)

  datatype Descriptor = Descriptor(inputs: seq<ParsedReport>, outputs: seq<ParsedReport>, features: seq<ParsedReport>)
  {
    function Reports(dir: Direction): seq<ParsedReport> {
      match dir
      case Input => inputs
      case Output => outputs
      case Feature => features
    }
  }

  datatype ColNode = ColNode(kind: Byte, usagePage: Option<U16>, usage: Option<U16>, children: seq<ColId>,
                             inputs: seq<Report>, outputs: seq<Report>, features: seq<Report>)
  {
    function Reports(dir: Direction): seq<Report> {
      match dir
      case Input => inputs
      case Output => outputs
      case Feature => features
    }

    function Add(dir: Direction, r: Report): ColNode {
      match dir
      case Input => this.(inputs := inputs + [r])
      case Output => this.(outputs := outputs + [r])
      case Feature => this.(features := features + [r])
    }
  }

  // `rank` remembers how many nodes there were when a node was made.
  datatype Builder = Builder(nodes: map<ColId, ColNode>, roots: seq<ColId>, rank: map<ColId, nat>)

  const EMPTY_BUILDER := Builder(map[], [], map[])

  function PageOfFirst(c: HidCollection): Option<U16> {
    if c.first.Some? then Some(c.first.value.page) else None
  }

  function UsageOfFirst(c: HidCollection): Option<U16> {
    if c.first.Some? then Some(c.first.value.id) else None
  }

  function NewNode(c: HidCollection): ColNode {
    ColNode(c.kind, PageOfFirst(c), UsageOfFirst(c), [], [], [], [])
  }

  // --------------------------------------------------------------- chains

  // Makes a node for the i-th collection of a chain unless its id is known.
  function EnsureAt(b: Builder, chain: seq<HidCollection>, i: nat): Builder
    requires i < |chain|
  {
    var id := chain[i].id;
    if id in b.nodes then b
    else
      var linked :=
        if i == 0 then b.(roots := b.roots + [id])
        else Link(b, chain[i - 1].id, id);
      linked.(nodes := linked.nodes[id := NewNode(chain[i])], rank := b.rank[id := |b.nodes|])
  }

  function Link(b: Builder, parent: ColId, id: ColId): Builder {
    if parent in b.nodes && id !in b.nodes[parent].children
    then b.(nodes := b.nodes[parent := b.nodes[parent].(children := b.nodes[parent].children + [id])])
    else b
  }

  function EnsureFrom(b: Builder, chain: seq<HidCollection>, i: nat): Builder
    requires i <= |chain|
    decreases |chain| - i
  {
    if i == |chain| then b else EnsureFrom(EnsureAt(b, chain, i), chain, i + 1)
  }

  function EnsureChain(b: Builder, chain: seq<HidCollection>): Builder {
    EnsureFrom(b, chain, 0)
  }

  // A field without collections borrows the chain of the nearest earlier field that
  // has one, or else of the nearest later field.
  function Earlier(fs: seq<HidField>, i: nat): seq<HidCollection>
    requires i <= |fs|
  {
    if i == 0 then [] else if fs[i - 1].chain != [] then fs[i - 1].chain else Earlier(fs, i - 1)
  }

  function Later(fs: seq<HidField>, i: nat): seq<HidCollection>
    requires i <= |fs|
    decreases |fs| - i
  {
    if i == |fs| then [] else if fs[i].chain != [] then fs[i].chain else Later(fs, i + 1)
  }

  function Resolved(fs: seq<HidField>, i: nat): seq<HidCollection>
    requires i < |fs|
  {
    if fs[i].chain != [] then fs[i].chain
    else if Earlier(fs, i) != [] then Earlier(fs, i)
    else Later(fs, i + 1)
  }

  function EnsureFields(b: Builder, fs: seq<HidField>, n: nat): Builder
    requires n <= |fs|
  {
    if n == 0 then b else EnsureChain(EnsureFields(b, fs, n - 1), Resolved(fs, n - 1))
  }

  predicate LandsIn(fs: seq<HidField>, i: nat, id: ColId)
    requires i < |fs|
  {
    var chain := Resolved(fs, i);
    chain != [] && chain[|chain| - 1].id == id
  }

  // The first n fields whose innermost collection is `id`, in order.
  function Bucket(fs: seq<HidField>, n: nat, id: ColId): seq<HidField>
    requires n <= |fs|
  {
    if n == 0 then []
    else Bucket(fs, n - 1, id) + if LandsIn(fs, n - 1, id) then [fs[n - 1]] else []
  }

  // What one parsed report contributes to one collection: at most one report.
  function Share(r: ParsedReport, id: ColId): seq<Report> {
    var bucket := Bucket(r.fields, |r.fields|, id);
    if bucket == [] then [] else [Report(r.id, Aggregate(bucket))]
  }

  function WithShare(n: ColNode, dir: Direction, share: seq<Report>): ColNode {
    if share == [] then n else n.Add(dir, share[0])
  }

  function AddReport(b: Builder, r: ParsedReport, dir: Direction): Builder {
    var b1 := EnsureFields(b, r.fields, |r.fields|);
    b1.(nodes := map id | id in b1.nodes :: WithShare(b1.nodes[id], dir, Share(r, id)))
  }

  function AddReports(b: Builder, rs: seq<ParsedReport>, n: nat, dir: Direction): Builder
    requires n <= |rs|
  {
    if n == 0 then b else AddReport(AddReports(b, rs, n - 1, dir), rs[n - 1], dir)
  }

  // `parse_report_descriptor` after hidreport's parser.
  function FromDescriptor(d: Descriptor): Builder {
    var b1 := AddReports(EMPTY_BUILDER, d.inputs, |d.inputs|, Input);
    var b2 := AddReports(b1, d.outputs, |d.outputs|, Output);
    AddReports(b2, d.features, |d.features|, Feature)
  }

  // ---------------------------------------------------------------- build

  // Children are younger than their parents: the recursion of `build_node` ends.
  ghost predicate Ordered(b: Builder) {
    && b.rank.Keys == b.nodes.Keys
    && (forall id :: id in b.nodes ==> b.rank[id] < |b.nodes|)
    && (forall id :: id in b.nodes ==> Above(b, b.nodes[id].children, b.rank[id] + 1))
    && Above(b, b.roots, 0)
  }

  ghost predicate Above(b: Builder, ids: seq<ColId>, low: nat) {
    forall i :: 0 <= i < |ids| ==> ids[i] in b.nodes && ids[i] in b.rank && low <= b.rank[ids[i]]
  }

  ghost function BuildNodes(b: Builder, ids: seq<ColId>, low: nat): seq<Collection>
    requires Ordered(b) && Above(b, ids, low)
    decreases |b.nodes| - low, |ids|
  {
    if ids == [] then []
    else
      var n := b.nodes[ids[0]];
      [Collection(n.kind, n.usagePage, n.usage, BuildNodes(b, n.children, b.rank[ids[0]] + 1),
                  n.inputs, n.outputs, n.features)]
      + BuildNodes(b, ids[1..], low)
  }

  const BARE_COLLECTION := Collection(1, None, None, [], [], [], [])

  // A descriptor without collections still yields one bare application collection.
  ghost function Build(b: Builder): seq<Collection>
    requires Ordered(b)
  {
    if b.roots == [] then [BARE_COLLECTION] else BuildNodes(b, b.roots, 0)
  }

  // The ids of the built forest, in the order of its collections.
  ghost function Preorder(b: Builder, ids: seq<ColId>, low: nat): seq<ColId>
    requires Ordered(b) && Above(b, ids, low)
    decreases |b.nodes| - low, |ids|
  {
    if ids == [] then []
    else [ids[0]] + Preorder(b, b.nodes[ids[0]].children, b.rank[ids[0]] + 1) + Preorder(b, ids[1..], low)
  }

  function Flatten(cs: seq<Collection>): seq<Collection> {
    if cs == [] then [] else [cs[0]] + Flatten(cs[0].children) + Flatten(cs[1..])
  }
}
