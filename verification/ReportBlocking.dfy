// Which reports a page may see and use: the association maps, and the pruning of the
// collection tree.
module ReportBlocking {
  import opened Common
  import opened Hid
  import opened Fields
  import opened Tree
  import opened Blocklist

  // What a collection contributes to the reports below it.
  datatype Association = Association(page: Option<U16>, usage: Option<U16>, application: bool)

  datatype Key = Key(id: Byte, dir: Direction)

  type ReportMap = map<Key, seq<Association>>

  // One report in a forest, with the collections above it, outermost first.
  datatype Item = Item(path: seq<Association>, dir: Direction, report: Report)
  {
    function Of(): Key {
      Key(report.id, dir)
    }
  }

  function AssociationOf(c: Collection): Association {
    Association(c.usagePage, c.usage, c.kind == 1)
  }

  function AssociationIn(c: HidCollection): Association {
    Association(PageOfFirst(c), UsageOfFirst(c), c.kind == 1)
  }

  function AssociationsIn(chain: seq<HidCollection>): seq<Association> {
    seq(|chain|, i requires 0 <= i < |chain| => AssociationIn(chain[i]))
  }

  // -------------------------------------------------- walking the tree

  function ReportItems(path: seq<Association>, dir: Direction, rs: seq<Report>): seq<Item> {
    seq(|rs|, i requires 0 <= i < |rs| => Item(path, dir, rs[i]))
  }

  function OwnItems(c: Collection, path: seq<Association>): seq<Item> {
    ReportItems(path, Input, c.inputs) + ReportItems(path, Output, c.outputs) + ReportItems(path, Feature, c.features)
  }

  // Every report of a forest in the order of the walk.
  function Items(cs: seq<Collection>, above: seq<Association>): seq<Item>
    decreases cs
  {
    if cs == [] then []
    else
      var path := above + [AssociationOf(cs[0])];
      OwnItems(cs[0], path) + Items(cs[0].children, path) + Items(cs[1..], above)
  }

  function Gather(items: seq<Item>, k: Key): seq<Association> {
    if items == [] then []
    else (if items[0].Of() == k then items[0].path else []) + Gather(items[1..], k)
  }

  function MapOf(items: seq<Item>): ReportMap {
    map k | k in (set x | x in items :: x.Of()) :: Gather(items, k)
  }

  // `map_from_collection_tree`
  function TreeMap(cs: seq<Collection>): ReportMap {
    MapOf(Items(cs, []))
  }

  // -------------------------------------------- walking the descriptor

  function Distinct(known: seq<Association>, more: seq<Association>): seq<Association>
    decreases |more|
  {
    if more == [] then known
    else Distinct(if more[0] in known then known else known + [more[0]], more[1..])
  }

  function Entry(m: ReportMap, k: Key): seq<Association> {
    if k in m then m[k] else []
  }

  // Constant fields contribute nothing.
  function AddField(m: ReportMap, k: Key, f: HidField): ReportMap {
    if f.Constant? then m else m[k := Distinct(Entry(m, k), AssociationsIn(f.chain))]
  }

  function AddFields(m: ReportMap, k: Key, fs: seq<HidField>, n: nat): ReportMap
    requires n <= |fs|
  {
    if n == 0 then m else AddField(AddFields(m, k, fs, n - 1), k, fs[n - 1])
  }

  function AddParsed(m: ReportMap, rs: seq<ParsedReport>, n: nat, dir: Direction): ReportMap
    requires n <= |rs|
  {
    if n == 0 then m
    else AddFields(AddParsed(m, rs, n - 1, dir), Key(rs[n - 1].id, dir), rs[n - 1].fields, |rs[n - 1].fields|)
  }

  // `map_from_parsed_descriptor`
  function ParsedMap(d: Descriptor): ReportMap {
    var m1 := AddParsed(map[], d.inputs, |d.inputs|, Input);
    var m2 := AddParsed(m1, d.outputs, |d.outputs|, Output);
    AddParsed(m2, d.features, |d.features|, Feature)
  }

  // --------------------------------------------------------- protection

  datatype Policy = Policy(associations: ReportMap, vendor: U16, product: U16)

  predicate Guards(p: Policy, a: Association, k: Key) {
    || IsReportBlocked(p.vendor, p.product, a.page, a.usage, k.id, k.dir)
    || (a.application && IsAlwaysProtected(a.page, a.usage, k.dir))
  }

  predicate Protected(p: Policy, k: Key) {
    k in p.associations && exists a :: a in p.associations[k] && Guards(p, a, k)
  }

  // ------------------------------------------------------------ pruning

  function PruneReports(rs: seq<Report>, dir: Direction, p: Policy): seq<Report> {
    if rs == [] then []
    else (if Protected(p, Key(rs[0].id, dir)) then [] else [rs[0]]) + PruneReports(rs[1..], dir, p)
  }

  // A collection left without reports and children goes.
  function Prune(cs: seq<Collection>, p: Policy): seq<Collection>
    decreases cs
  {
    if cs == [] then []
    else
      var c := cs[0].(children := Prune(cs[0].children, p), inputs := PruneReports(cs[0].inputs, Input, p),
                      outputs := PruneReports(cs[0].outputs, Output, p),
                      features := PruneReports(cs[0].features, Feature, p));
      (if Bare(c) then [] else [c]) + Prune(cs[1..], p)
  }

  predicate Bare(c: Collection) {
    c.inputs == [] && c.outputs == [] && c.features == [] && c.children == []
  }

  // `descriptor` is the raw descriptor if there is one and it parses.
  datatype DeviceInfo = DeviceInfo(vendor: U16, product: U16, page: Option<U16>, usage: Option<U16>,
                                   collections: seq<Collection>, descriptor: Option<Descriptor>)

  function PolicyOf(info: DeviceInfo): Policy {
    Policy(if info.descriptor.Some? then ParsedMap(info.descriptor.value) else TreeMap(info.collections),
           info.vendor, info.product)
  }

  // A device with no collections, before or after pruning, is hidden.
  function PruneDeviceInfo(info: DeviceInfo): Option<DeviceInfo> {
    if info.collections == [] then None
    else
      var left := Prune(info.collections, PolicyOf(info));
      if left == [] then None else Some(info.(collections := left))
  }

  // ------------------------------------------------------- at run time

  function Declared(m: ReportMap): set<Byte> {
    set k | k in m && k.dir == Input :: k.id
  }

  function BlockedInputIds(p: Policy): set<Byte> {
    set k | k in p.associations && k.dir == Input && Protected(p, k) :: k.id
  }

  predicate AlwaysProtected(info: DeviceInfo, dir: Direction) {
    exists c :: c in info.collections && IsAlwaysProtected(c.usagePage, c.usage, dir)
  }

  predicate InterfaceProtected(info: DeviceInfo, dir: Direction) {
    info.collections == []
    && (IsReportBlocked(info.vendor, info.product, info.page, info.usage, 0, dir)
        || IsAlwaysProtected(info.page, info.usage, dir))
  }

  // The reader's test for an input report.
  predicate ReaderDrops(info: DeviceInfo, id: Byte) {
    var p := PolicyOf(info);
    || id in BlockedInputIds(p)
    || InterfaceProtected(info, Input)
    || (id !in Declared(p.associations) && AlwaysProtected(info, Input))
  }

  // `is_report_protected`, the test before a write or a feature read.
  predicate SendRefused(info: DeviceInfo, k: Key) {
    var p := PolicyOf(info);
    if k in p.associations then Protected(p, k) else AlwaysProtected(info, k.dir) || InterfaceProtected(info, k.dir)
  }
}
