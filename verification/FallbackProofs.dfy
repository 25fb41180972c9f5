// The association map walked from the built tree against the one read from the
// parsed descriptor.
module FallbackProofs {
  import opened Common
  import opened Hid
  import opened Fields
  import opened Tree
  import opened TreeProofs
  import opened Blocklist
  import opened ReportBlocking
  import opened BlockingProofs

  // ------------------------------------------------------ consistent chains

  type Homes = map<ColId, seq<HidCollection>>

  // Every collection of the chain stands below the collections its id belongs under.
  ghost predicate Agrees(chain: seq<HidCollection>, homes: Homes) {
    forall i :: 0 <= i < |chain| ==> chain[i].id in homes && homes[chain[i].id] == chain[..i + 1]
  }

  ghost predicate AllAgree(d: Descriptor, homes: Homes) {
    forall dir, k, i :: FieldAt(d, dir, k, i) ==> Agrees(d.Reports(dir)[k].fields[i].chain, homes)
  }

  predicate FieldAt(d: Descriptor, dir: Direction, k: int, i: int) {
    0 <= k < |d.Reports(dir)| && 0 <= i < |d.Reports(dir)[k].fields|
  }

  // The j-th collection on the chain of a field has this id.
  predicate Occurs(d: Descriptor, dir: Direction, k: int, i: int, j: int, id: ColId) {
    && FieldAt(d, dir, k, i) && 0 <= j < |d.Reports(dir)[k].fields[i].chain|
    && d.Reports(dir)[k].fields[i].chain[j].id == id
  }

  function UpTo(d: Descriptor, dir: Direction, k: int, i: int, j: int): seq<HidCollection>
    requires FieldAt(d, dir, k, i) && 0 <= j < |d.Reports(dir)[k].fields[i].chain|
  {
    d.Reports(dir)[k].fields[i].chain[..j + 1]
  }

  // A collection id means one collection, under one chain of parents.
  ghost predicate ConsistentChains(d: Descriptor) {
    forall dir, k, i, j, dir', k', i', j', id ::
      Occurs(d, dir, k, i, j, id) && Occurs(d, dir', k', i', j', id) ==>
        UpTo(d, dir, k, i, j) == UpTo(d, dir', k', i', j')
  }

  ghost function HomeOf(d: Descriptor, id: ColId): seq<HidCollection> {
    if exists dir, k, i, j :: Occurs(d, dir, k, i, j, id)
    then var dir, k, i, j :| Occurs(d, dir, k, i, j, id); UpTo(d, dir, k, i, j)
    else []
  }

  lemma HomesExist(d: Descriptor) returns (homes: Homes)
    requires ConsistentChains(d)
    ensures AllAgree(d, homes)
  {
    hide FromDescriptor, HomeOf;
    DescriptorNodes(d);
    homes := map id | id in FromDescriptor(d).nodes :: HomeOf(d, id);
    forall dir, k, i | FieldAt(d, dir, k, i) ensures Agrees(d.Reports(dir)[k].fields[i].chain, homes) {
      var chain := d.Reports(dir)[k].fields[i].chain;
      forall j | 0 <= j < |chain| ensures chain[j].id in homes && homes[chain[j].id] == chain[..j + 1] {
        var id := chain[j].id;
        assert Occurs(d, dir, k, i, j, id);
        OwnIsNamed(d, dir, k, i, j, id);
        HomeIsPrefix(d, dir, k, i, j, id);
      }
    }
  }

  lemma HomeIsPrefix(d: Descriptor, dir: Direction, k: int, i: int, j: int, id: ColId)
    requires ConsistentChains(d) && Occurs(d, dir, k, i, j, id)
    ensures HomeOf(d, id) == UpTo(d, dir, k, i, j)
  {
  }

  lemma OwnIsNamed(d: Descriptor, dir: Direction, k: int, i: int, j: int, id: ColId)
    requires Occurs(d, dir, k, i, j, id)
    ensures NamedIn(d, id)
  {
    assert Resolved(d.Reports(dir)[k].fields, i) == d.Reports(dir)[k].fields[i].chain;
    assert NamedAt(d, dir, k, i, j, id);
  }

  predicate Looks(n: ColNode, c: HidCollection) {
    n.kind == c.kind && n.usagePage == PageOfFirst(c) && n.usage == UsageOfFirst(c)
  }

  function Last(chain: seq<HidCollection>): HidCollection
    requires chain != []
  {
    chain[|chain| - 1]
  }

  // Every node stands at the home of its id.
  ghost predicate AtHome(b: Builder, homes: Homes) {
    && (forall y :: y in b.nodes ==>
          y in homes && homes[y] != [] && Last(homes[y]).id == y && Looks(b.nodes[y], Last(homes[y])))
    && (forall y, c :: y in b.nodes && c in b.nodes[y].children ==> c in homes && Below(homes, y, c))
    && (forall r :: r in b.roots ==> r in homes && |homes[r]| == 1)
  }

  predicate Below(homes: Homes, y: ColId, c: ColId)
    requires c in homes
  {
    y in homes && homes[c] != [] && homes[c] == homes[y] + [Last(homes[c])]
  }

  lemma EnsureAtHome(b: Builder, chain: seq<HidCollection>, i: nat, homes: Homes)
    requires AtHome(b, homes) && Agrees(chain, homes) && i < |chain|
    ensures AtHome(EnsureAt(b, chain, i), homes)
  {
    if chain[i].id !in b.nodes {
      if i == 0 {
        RootHome(b, chain, homes);
      } else {
        ChildHome(b, chain, i, homes);
      }
    }
  }

  lemma RootHome(b: Builder, chain: seq<HidCollection>, homes: Homes)
    requires AtHome(b, homes) && Agrees(chain, homes) && chain != [] && chain[0].id !in b.nodes
    ensures AtHome(EnsureAt(b, chain, 0), homes)
  {
    hide Below;
    assert homes[chain[0].id] == [chain[0]];
  }

  lemma ChildHome(b: Builder, chain: seq<HidCollection>, i: nat, homes: Homes)
    requires AtHome(b, homes) && Agrees(chain, homes) && 0 < i < |chain| && chain[i].id !in b.nodes
    ensures AtHome(EnsureAt(b, chain, i), homes)
  {
    var id, parent := chain[i].id, chain[i - 1].id;
    assert chain[..i + 1] == chain[..i] + [chain[i]];
    assert homes[parent] == chain[..i] && Below(homes, parent, id);
    ChildNodes(b, chain, i);
    hide Agrees, EnsureAt;
    OneMoreNode(b, EnsureAt(b, chain, i), chain[i], parent, homes);
  }

  lemma OneMoreNode(b: Builder, z: Builder, c: HidCollection, parent: ColId, homes: Homes)
    requires AtHome(b, homes) && z.roots == b.roots && z.nodes.Keys == b.nodes.Keys + {c.id}
    requires c.id in homes && homes[c.id] != [] && Last(homes[c.id]) == c && Below(homes, parent, c.id)
    requires c.id !in b.nodes && Looks(z.nodes[c.id], c)
    requires forall y :: y in b.nodes ==> SameLooks(b.nodes[y], z.nodes[y])
    requires forall y, d :: y in z.nodes && d in z.nodes[y].children ==>
      (y in b.nodes && d in b.nodes[y].children) || (y == parent && d == c.id)
    ensures AtHome(z, homes)
  {
    hide Below;
    forall y | y in z.nodes
      ensures y in homes && homes[y] != [] && Last(homes[y]).id == y && Looks(z.nodes[y], Last(homes[y]))
    {
      assert y in b.nodes || y == c.id;
    }
  }

  lemma ChildNodes(b: Builder, chain: seq<HidCollection>, i: nat)
    requires 0 < i < |chain| && chain[i].id !in b.nodes
    ensures var z := EnsureAt(b, chain, i);
      && z.roots == b.roots && z.nodes.Keys == b.nodes.Keys + {chain[i].id}
      && (forall y :: y in b.nodes ==> SameLooks(b.nodes[y], z.nodes[y])) && Looks(z.nodes[chain[i].id], chain[i])
      && (forall y, c :: y in z.nodes && c in z.nodes[y].children ==>
            (y in b.nodes && c in b.nodes[y].children) || (y == chain[i - 1].id && c == chain[i].id))
  {
  }

  lemma {:induction false} EnsureFromHome(b: Builder, chain: seq<HidCollection>, i: nat, homes: Homes)
    requires AtHome(b, homes) && Agrees(chain, homes) && i <= |chain|
    ensures AtHome(EnsureFrom(b, chain, i), homes)
    decreases |chain| - i
  {
    hide AtHome, Agrees, EnsureAt;
    if i < |chain| {
      EnsureAtHome(b, chain, i, homes);
      EnsureFromHome(EnsureAt(b, chain, i), chain, i + 1, homes);
    }
  }

  lemma {:induction false} EnsureFieldsHome(b: Builder, fs: seq<HidField>, n: nat, homes: Homes)
    requires n <= |fs| && AtHome(b, homes)
    requires forall i :: 0 <= i < |fs| ==> Agrees(fs[i].chain, homes)
    ensures AtHome(EnsureFields(b, fs, n), homes)
    decreases n
  {
    hide AtHome, EnsureFrom, Resolved;
    if n > 0 {
      EnsureFieldsHome(b, fs, n - 1, homes);
      ResolvedAgrees(fs, n - 1, homes);
      EnsureFromHome(EnsureFields(b, fs, n - 1), Resolved(fs, n - 1), 0, homes);
    }
  }

  // A borrowed chain is some field's own.
  lemma {:induction false} EarlierIsOwn(fs: seq<HidField>, i: nat)
    requires i <= |fs| && Earlier(fs, i) != []
    ensures exists k :: 0 <= k < |fs| && Earlier(fs, i) == fs[k].chain
    decreases i
  {
    if fs[i - 1].chain == [] {
      EarlierIsOwn(fs, i - 1);
    }
  }

  lemma {:induction false} LaterIsOwn(fs: seq<HidField>, i: nat)
    requires i <= |fs| && Later(fs, i) != []
    ensures exists k :: 0 <= k < |fs| && Later(fs, i) == fs[k].chain
    decreases |fs| - i
  {
    if fs[i].chain == [] {
      LaterIsOwn(fs, i + 1);
    }
  }

  lemma ResolvedAgrees(fs: seq<HidField>, i: nat, homes: Homes)
    requires i < |fs| && forall k :: 0 <= k < |fs| ==> Agrees(fs[k].chain, homes)
    ensures Agrees(Resolved(fs, i), homes)
  {
    hide Agrees;
    if fs[i].chain == [] {
      if Earlier(fs, i) != [] {
        EarlierIsOwn(fs, i);
      } else if Later(fs, i + 1) != [] {
        LaterIsOwn(fs, i + 1);
      } else {
        assert Resolved(fs, i) == fs[i].chain;
      }
    }
  }

  lemma AddReportHome(b: Builder, r: ParsedReport, dir: Direction, homes: Homes)
    requires AtHome(b, homes) && forall i :: 0 <= i < |r.fields| ==> Agrees(r.fields[i].chain, homes)
    ensures AtHome(AddReport(b, r, dir), homes)
  {
    hide EnsureFields, Share, Agrees, AtHome;
    EnsureFieldsHome(b, r.fields, |r.fields|, homes);
    var y := EnsureFields(b, r.fields, |r.fields|);
    var z := AddReport(b, r, dir);
    LooksKept(y, z, homes);
  }

  lemma LooksKept(y: Builder, z: Builder, homes: Homes)
    requires AtHome(y, homes) && z.nodes.Keys == y.nodes.Keys && z.roots == y.roots
    requires forall id :: id in y.nodes ==>
      z.nodes[id].children == y.nodes[id].children && SameLooks(y.nodes[id], z.nodes[id])
    ensures AtHome(z, homes)
  {
    hide Below;
    assert forall id :: id in z.nodes <==> id in y.nodes;
  }

  predicate SameLooks(m: ColNode, n: ColNode) {
    m.kind == n.kind && m.usagePage == n.usagePage && m.usage == n.usage
  }

  ghost predicate ReportsAgree(rs: seq<ParsedReport>, homes: Homes) {
    forall k, i :: 0 <= k < |rs| && 0 <= i < |rs[k].fields| ==> Agrees(rs[k].fields[i].chain, homes)
  }

  lemma {:induction false} AddReportsHome(b: Builder, rs: seq<ParsedReport>, n: nat, dir: Direction, homes: Homes)
    requires n <= |rs| && AtHome(b, homes)
    requires ReportsAgree(rs, homes)
    ensures AtHome(AddReports(b, rs, n, dir), homes)
    decreases n
  {
    hide AtHome, AddReport, Agrees;
    if n > 0 {
      AddReportsHome(b, rs, n - 1, dir, homes);
      AddReportHome(AddReports(b, rs, n - 1, dir), rs[n - 1], dir, homes);
    }
  }

  lemma DescriptorHome(d: Descriptor, homes: Homes)
    requires AllAgree(d, homes)
    ensures AtHome(FromDescriptor(d), homes)
  {
    hide AddReports, Agrees;
    assert AtHome(EMPTY_BUILDER, homes);
    DirectionAgrees(d, Input, homes);
    DirectionAgrees(d, Output, homes);
    DirectionAgrees(d, Feature, homes);
    hide AtHome;
    var b1 := AddReports(EMPTY_BUILDER, d.inputs, |d.inputs|, Input);
    var b2 := AddReports(b1, d.outputs, |d.outputs|, Output);
    AddReportsHome(EMPTY_BUILDER, d.inputs, |d.inputs|, Input, homes);
    AddReportsHome(b1, d.outputs, |d.outputs|, Output, homes);
    AddReportsHome(b2, d.features, |d.features|, Feature, homes);
  }

  lemma DirectionAgrees(d: Descriptor, dir: Direction, homes: Homes)
    requires AllAgree(d, homes)
    ensures ReportsAgree(d.Reports(dir), homes)
  {
    hide Agrees;
    var rs := d.Reports(dir);
    forall k, i | 0 <= k < |rs| && 0 <= i < |rs[k].fields| ensures Agrees(rs[k].fields[i].chain, homes) {
      assert FieldAt(d, dir, k, i);
    }
  }

  // --------------------------------------------------- walking built nodes

  // x is a report of this node, listed under the node's home.
  ghost predicate ItemOfNode(b: Builder, homes: Homes, id: ColId, x: Item) {
    id in b.nodes && id in homes && x.path == AssociationsIn(homes[id]) && x.report in b.nodes[id].Reports(x.dir)
  }

  lemma OwnItemsMeaning(c: Collection, path: seq<Association>, n: ColNode, x: Item)
    requires Mirrors(c, n)
    ensures x in OwnItems(c, path) <==> x.path == path && x.report in n.Reports(x.dir)
  {
    hide ReportItems;
    ReportItemsMeaning(path, Input, c.inputs, x);
    ReportItemsMeaning(path, Output, c.outputs, x);
    ReportItemsMeaning(path, Feature, c.features, x);
  }

  lemma ReportItemsMeaning(path: seq<Association>, dir: Direction, rs: seq<Report>, x: Item)
    ensures x in ReportItems(path, dir, rs) <==> x.path == path && x.dir == dir && x.report in rs
  {
    if x.path == path && x.dir == dir && x.report in rs {
      var i :| 0 <= i < |rs| && rs[i] == x.report;
      assert ReportItems(path, dir, rs)[i] == x;
    }
  }

  lemma AssociationsLast(chain: seq<HidCollection>, c: HidCollection)
    ensures AssociationsIn(chain + [c]) == AssociationsIn(chain) + [AssociationIn(c)]
  {
  }

  // The nodes hang where the walk finds them below `above`.
  ghost predicate HangBelow(b: Builder, homes: Homes, ids: seq<ColId>, above: seq<Association>) {
    forall i :: 0 <= i < |ids| ==> Hangs(homes, ids[i], above)
  }

  predicate Hangs(homes: Homes, id: ColId, above: seq<Association>) {
    id in homes && homes[id] != [] && AssociationsIn(homes[id]) == above + [AssociationIn(Last(homes[id]))]
  }

  lemma ChildrenHang(b: Builder, homes: Homes, y: ColId)
    requires AtHome(b, homes) && y in b.nodes && y in homes
    ensures HangBelow(b, homes, b.nodes[y].children, AssociationsIn(homes[y]))
  {
    forall i | 0 <= i < |b.nodes[y].children|
      ensures Hangs(homes, b.nodes[y].children[i], AssociationsIn(homes[y]))
    {
      var c := b.nodes[y].children[i];
      assert Below(homes, y, c);
      AssociationsLast(homes[y], Last(homes[c]));
    }
  }

  lemma RootsHang(b: Builder, homes: Homes)
    requires AtHome(b, homes)
    ensures HangBelow(b, homes, b.roots, [])
  {
    forall i | 0 <= i < |b.roots|
      ensures Hangs(homes, b.roots[i], [])
    {
      assert homes[b.roots[i]] == [] + [Last(homes[b.roots[i]])];
      AssociationsLast([], Last(homes[b.roots[i]]));
    }
  }

  // The walk lists the reports of every node under exactly the node's home.
  lemma {:induction false} WalkFindsHomes(b: Builder, homes: Homes, ids: seq<ColId>, low: nat,
      above: seq<Association>, x: Item)
    requires Ordered(b) && AtHome(b, homes) && Above(b, ids, low) && HangBelow(b, homes, ids, above)
    ensures x in Items(BuildNodes(b, ids, low), above)
      <==> exists id :: id in Preorder(b, ids, low) && ItemOfNode(b, homes, id, x)
    decreases |b.nodes| - low, |ids|
  {
    hide Ordered, Above, AtHome, HangBelow, ItemOfNode, Items, OwnItems, AssociationOf, Preorder, BuildNodes,
      AssociationsIn;
    if ids == [] {
      NothingBuilt(b, low, above);
    } else {
      FirstNode(b, homes, ids, low, above, x);
      var y := ids[0];
      var path := AssociationsIn(homes[y]);
      var c := BuildNodes(b, ids, low)[0];
      var children, rest := b.nodes[y].children, ids[1..];
      var deep := b.rank[y] + 1;
      ChildrenHang(b, homes, y);
      WalkFindsHomes(b, homes, children, deep, path, x);
      WalkFindsHomes(b, homes, rest, low, above, x);
      ItemsFirst(c, BuildNodes(b, rest, low), above);
      assert x in Items(BuildNodes(b, ids, low), above) <==>
        x in OwnItems(c, path) || x in Items(c.children, path) || x in Items(BuildNodes(b, rest, low), above);
      assert forall id :: id in Preorder(b, ids, low) <==>
        id == y || id in Preorder(b, children, deep) || id in Preorder(b, rest, low);
    }
  }

  lemma NothingBuilt(b: Builder, low: nat, above: seq<Association>)
    requires Ordered(b) && Above(b, [], low)
    ensures Items(BuildNodes(b, [], low), above) == [] && Preorder(b, [], low) == []
  {
  }

  lemma FirstNode(b: Builder, homes: Homes, ids: seq<ColId>, low: nat, above: seq<Association>, x: Item)
    requires Ordered(b) && AtHome(b, homes) && Above(b, ids, low) && HangBelow(b, homes, ids, above) && ids != []
    ensures var y := ids[0]; var rest := ids[1..];
      && y in b.nodes && y in b.rank && y in homes && homes[y] != [] && low <= b.rank[y] < |b.nodes|
      && Above(b, b.nodes[y].children, b.rank[y] + 1) && Above(b, rest, low) && HangBelow(b, homes, rest, above)
      && (var cs := BuildNodes(b, ids, low);
          && cs != [] && cs == [cs[0]] + BuildNodes(b, rest, low)
          && cs[0].children == BuildNodes(b, b.nodes[y].children, b.rank[y] + 1)
          && above + [AssociationOf(cs[0])] == AssociationsIn(homes[y])
          && (x in OwnItems(cs[0], AssociationsIn(homes[y])) <==> ItemOfNode(b, homes, y, x)))
      && Preorder(b, ids, low) == [y] + Preorder(b, b.nodes[y].children, b.rank[y] + 1) + Preorder(b, rest, low)
  {
    hide Looks, Ordered, Above;
    VisitsFirst(b, ids, low, ids[0]);
    FirstHangs(b, homes, ids, above);
    hide Ordered, Above, OwnItems, AssociationsIn, Visits, AtHome, HangBelow, AssociationOf;
    var cs := BuildNodes(b, ids, low);
    OwnItemsMeaning(cs[0], AssociationsIn(homes[ids[0]]), b.nodes[ids[0]], x);
    SameAssociation(cs[0], b.nodes[ids[0]], Last(homes[ids[0]]));
  }

  lemma FirstHangs(b: Builder, homes: Homes, ids: seq<ColId>, above: seq<Association>)
    requires AtHome(b, homes) && HangBelow(b, homes, ids, above) && ids != [] && ids[0] in b.nodes
    ensures Hangs(homes, ids[0], above) && Looks(b.nodes[ids[0]], Last(homes[ids[0]]))
    ensures HangBelow(b, homes, ids[1..], above)
  {
  }

  lemma SameAssociation(c: Collection, n: ColNode, h: HidCollection)
    requires Mirrors(c, n) && Looks(n, h)
    ensures AssociationOf(c) == AssociationIn(h)
  {
  }

  // ------------------------------------------------------ the tree's own map

  // Some report with this key has a field whose chain, its own or borrowed, holds a.
  ghost predicate Contributes(d: Descriptor, key: Key, a: Association) {
    exists k, i :: ContributesAt(d, key, k, i) && a in AssociationsIn(Resolved(d.Reports(key.dir)[k].fields, i))
  }

  predicate ContributesAt(d: Descriptor, key: Key, k: int, i: int) {
    && FieldAt(d, key.dir, k, i) && d.Reports(key.dir)[k].id == key.id
    && Resolved(d.Reports(key.dir)[k].fields, i) != []
  }

  lemma {:induction false} ReportsForMeaning(rs: seq<ParsedReport>, n: nat, id: ColId, r: Report)
    requires n <= |rs|
    ensures r in ReportsFor(rs, n, id) <==> exists k :: 0 <= k < n && r in Share(rs[k], id)
    decreases n
  {
    hide Share;
    if n > 0 {
      ReportsForMeaning(rs, n - 1, id, r);
    }
  }

  // A collection gets a report from a parsed one iff some field of it lands there.
  lemma ShareMeaning(r: ParsedReport, id: ColId)
    ensures Share(r, id) != [] <==> exists i :: 0 <= i < |r.fields| && LandsIn(r.fields, i, id)
    ensures Share(r, id) != [] ==> |Share(r, id)| == 1 && Share(r, id)[0].id == r.id
  {
    hide LandsIn, Aggregate, Positions;
    BucketKeepsOrder(r.fields, |r.fields|, id);
    var ps := Positions(r.fields, |r.fields|, id);
    if ps != [] {
      assert ps[0] in ps;
    }
  }

  // Some field of a report with this key lands in a collection under this path.
  ghost predicate LandedUnder(d: Descriptor, key: Key, path: seq<Association>) {
    exists k, i :: ContributesAt(d, key, k, i) && path == AssociationsIn(Resolved(d.Reports(key.dir)[k].fields, i))
  }

  // Where the reports of the built tree come from.
  lemma ItemIffLanded(d: Descriptor, homes: Homes, key: Key, path: seq<Association>)
    requires AllAgree(d, homes)
    ensures Ordered(FromDescriptor(d))
    ensures (exists x :: x in Items(Build(FromDescriptor(d)), []) && x.Of() == key && x.path == path)
      <==> LandedUnder(d, key, path)
  {
    hide FromDescriptor, Visits, AllAgree, AtHome, Items, Build, AssociationsIn, Resolved, Share;
    var b := FromDescriptor(d);
    DescriptorPlaced(d);
    DescriptorHome(d, homes);
    if x: Item :| x in Items(Build(b), []) && x.Of() == key && x.path == path {
      ItemIsLanded(d, homes, x);
    }
    if k, i :| ContributesAt(d, key, k, i) && path == AssociationsIn(Resolved(d.Reports(key.dir)[k].fields, i)) {
      var x := LandedIsItem(d, homes, key, k, i);
      assert x in Items(Build(b), []) && x.Of() == key && x.path == path;
    }
  }

  lemma BuiltItems(d: Descriptor, homes: Homes, x: Item)
    requires AllAgree(d, homes)
    ensures Ordered(FromDescriptor(d))
    ensures x in Items(Build(FromDescriptor(d)), []) <==> exists id :: ItemOfNode(FromDescriptor(d), homes, id, x)
  {
    hide FromDescriptor, Visits, AllAgree, AtHome, Items, ItemOfNode;
    var b := FromDescriptor(d);
    DescriptorPlaced(d);
    DescriptorHome(d, homes);
    RootsHang(b, homes);
    WalkFindsHomes(b, homes, b.roots, 0, [], x);
    BareItems();
    forall id ensures id in Preorder(b, b.roots, 0) <==> id in b.nodes {
      PreorderCounts(b, b.roots, 0, id);
      assert id in Preorder(b, b.roots, 0) <==> multiset(Preorder(b, b.roots, 0))[id] > 0;
    }
    NodesAreNodes(b, homes, x);
    assert b.roots == [] ==> Preorder(b, b.roots, 0) == [];
  }

  lemma NodesAreNodes(b: Builder, homes: Homes, x: Item)
    ensures forall id :: ItemOfNode(b, homes, id, x) ==> id in b.nodes
  {
  }

  lemma BareItems()
    ensures Items([BARE_COLLECTION], []) == []
  {
    assert [BARE_COLLECTION][1..] == [];
  }

  lemma ItemIsLanded(d: Descriptor, homes: Homes, x: Item)
    requires AllAgree(d, homes) && Ordered(FromDescriptor(d)) && x in Items(Build(FromDescriptor(d)), [])
    ensures LandedUnder(d, x.Of(), x.path)
  {
    hide FromDescriptor, AllAgree, Items, Build, AssociationsIn, Resolved, Share, ReportsFor, Ordered;
    BuiltItems(d, homes, x);
    var b := FromDescriptor(d);
    var id :| ItemOfNode(b, homes, id, x);
    DescriptorPlaced(d);
    var rs := d.Reports(x.dir);
    assert Held(b, id, x.dir) == ReportsFor(rs, |rs|, id);
    ReportsForMeaning(rs, |rs|, id, x.report);
    var k :| 0 <= k < |rs| && x.report in Share(rs[k], id);
    ShareMeaning(rs[k], id);
    var i :| 0 <= i < |rs[k].fields| && LandsIn(rs[k].fields, i, id);
    LandedAtHome(d, homes, x.dir, k, i, id);
    assert ContributesAt(d, x.Of(), k, i);
  }

  lemma LandedAtHome(d: Descriptor, homes: Homes, dir: Direction, k: int, i: int, id: ColId)
    requires AllAgree(d, homes) && FieldAt(d, dir, k, i) && LandsIn(d.Reports(dir)[k].fields, i, id)
    ensures id in homes && homes[id] == Resolved(d.Reports(dir)[k].fields, i)
  {
    hide Resolved;
    var fs := d.Reports(dir)[k].fields;
    DirectionAgrees(d, dir, homes);
    ResolvedAgrees(fs, i, homes);
    var chain := Resolved(fs, i);
    assert chain[..|chain|] == chain;
  }

  lemma LandedIsItem(d: Descriptor, homes: Homes, key: Key, k: int, i: int) returns (x: Item)
    requires AllAgree(d, homes) && ContributesAt(d, key, k, i)
    ensures Ordered(FromDescriptor(d)) && x in Items(Build(FromDescriptor(d)), [])
    ensures x.Of() == key && x.path == AssociationsIn(Resolved(d.Reports(key.dir)[k].fields, i))
  {
    hide FromDescriptor, AllAgree, Items, Build, AssociationsIn, Resolved, Share, ReportsFor, Ordered;
    var b := FromDescriptor(d);
    var rs := d.Reports(key.dir);
    var chain := Resolved(rs[k].fields, i);
    var id := Last(chain).id;
    assert LandsIn(rs[k].fields, i, id);
    ShareMeaning(rs[k], id);
    x := Item(AssociationsIn(chain), key.dir, Share(rs[k], id)[0]);
    ReportsForMeaning(rs, |rs|, id, x.report);
    DescriptorPlaced(d);
    assert Held(b, id, key.dir) == ReportsFor(rs, |rs|, id);
    LandedAtHome(d, homes, key.dir, k, i, id);
    assert ItemOfNode(b, homes, id, x);
    BuiltItems(d, homes, x);
  }

  // The map walked from the built tree associates with a report exactly the
  // collections on the chains, own or borrowed, of its fields.
  lemma TreeMapIsExact(d: Descriptor, key: Key, a: Association)
    requires ConsistentChains(d)
    ensures Ordered(FromDescriptor(d))
    ensures var m := TreeMap(Build(FromDescriptor(d)));
      (key in m && a in m[key]) <==> Contributes(d, key, a)
  {
    hide FromDescriptor, AllAgree, Items, Build, AssociationsIn, Resolved, Ordered, Gather, ConsistentChains;
    var homes := HomesExist(d);
    BuiltInOrder(d);
    var items := Items(Build(FromDescriptor(d)), []);
    GatherMeaning(items, key, a);
    if n :| 0 <= n < |items| && items[n].Of() == key && a in items[n].path {
      ItemIffLanded(d, homes, key, items[n].path);
      assert items[n] in items;
    }
    if Contributes(d, key, a) {
      var k, i :| ContributesAt(d, key, k, i) && a in AssociationsIn(Resolved(d.Reports(key.dir)[k].fields, i));
      var x := LandedIsItem(d, homes, key, k, i);
      assert x in items;
    }
  }

  lemma BuiltInOrder(d: Descriptor)
    ensures Ordered(FromDescriptor(d))
  {
    hide FromDescriptor, Ordered;
    DescriptorPlaced(d);
  }

  // ----------------------------------------------- the parsed descriptor's map

  lemma {:induction false} DistinctMeaning(known: seq<Association>, more: seq<Association>, a: Association)
    ensures a in Distinct(known, more) <==> a in known || a in more
    decreases |more|
  {
    if more != [] {
      DistinctMeaning(if more[0] in known then known else known + [more[0]], more[1..], a);
    }
  }

  lemma {:induction false} AddFieldsMeaning(m: ReportMap, k: Key, fs: seq<HidField>, n: nat, key: Key, a: Association)
    requires n <= |fs|
    ensures a in Entry(AddFields(m, k, fs, n), key)
      <==> a in Entry(m, key)
           || (key == k && exists i :: 0 <= i < n && !fs[i].Constant? && a in AssociationsIn(fs[i].chain))
    decreases n
  {
    hide Distinct, AssociationsIn;
    if n > 0 {
      AddFieldsMeaning(m, k, fs, n - 1, key, a);
      if !fs[n - 1].Constant? {
        DistinctMeaning(Entry(AddFields(m, k, fs, n - 1), k), AssociationsIn(fs[n - 1].chain), a);
      }
    }
  }

  predicate OwnAt(rs: seq<ParsedReport>, j: int, i: int, key: Key, a: Association) {
    && 0 <= j < |rs| && rs[j].id == key.id && 0 <= i < |rs[j].fields|
    && !rs[j].fields[i].Constant? && a in AssociationsIn(rs[j].fields[i].chain)
  }

  lemma {:induction false} AddParsedMeaning(m: ReportMap, rs: seq<ParsedReport>, n: nat, dir: Direction, key: Key,
      a: Association)
    requires n <= |rs|
    ensures a in Entry(AddParsed(m, rs, n, dir), key)
      <==> a in Entry(m, key) || (key.dir == dir && exists j, i :: j < n && OwnAt(rs, j, i, key, a))
    decreases n
  {
    hide AddFields, AssociationsIn, Entry;
    if n > 0 {
      AddParsedMeaning(m, rs, n - 1, dir, key, a);
      var fs := rs[n - 1].fields;
      AddFieldsMeaning(AddParsed(m, rs, n - 1, dir), Key(rs[n - 1].id, dir), fs, |fs|, key, a);
      if i :| 0 <= i < |fs| && !fs[i].Constant? && a in AssociationsIn(fs[i].chain) {
        assert rs[n - 1].id == key.id ==> OwnAt(rs, n - 1, i, key, a);
      }
    }
  }

  // The parsed map associates with a report the collections of its own variable and
  // array fields, and nothing else.
  lemma ParsedMapIsExact(d: Descriptor, key: Key, a: Association)
    ensures a in Entry(ParsedMap(d), key) <==> exists j, i :: OwnAt(d.Reports(key.dir), j, i, key, a)
  {
    hide AddParsed, OwnAt;
    var m1 := AddParsed(map[], d.inputs, |d.inputs|, Input);
    var m2 := AddParsed(m1, d.outputs, |d.outputs|, Output);
    AddParsedMeaning(map[], d.inputs, |d.inputs|, Input, key, a);
    AddParsedMeaning(m1, d.outputs, |d.outputs|, Output, key, a);
    AddParsedMeaning(m2, d.features, |d.features|, Feature, key, a);
    var rs := d.Reports(key.dir);
    if j, i :| OwnAt(rs, j, i, key, a) {
      OwnInRange(rs, j, i, key, a);
    }
    assert Entry(map[], key) == [];
  }

  lemma OwnInRange(rs: seq<ParsedReport>, j: int, i: int, key: Key, a: Association)
    requires OwnAt(rs, j, i, key, a)
    ensures j < |rs|
  {
  }

  // ------------------------------------------------------------ main theorem

  // Whatever the parsed descriptor associates with a report, the tree built from it
  // associates too, so the fallback protects every report the full parse protects.
  lemma FallbackCovers(d: Descriptor, key: Key)
    requires ConsistentChains(d)
    ensures Ordered(FromDescriptor(d))
    ensures var m := TreeMap(Build(FromDescriptor(d)));
      forall a :: a in Entry(ParsedMap(d), key) ==> key in m && a in m[key]
  {
    hide FromDescriptor, Build, Ordered, TreeMap, ParsedMap, Entry, ConsistentChains;
    BuiltInOrder(d);
    forall a | a in Entry(ParsedMap(d), key)
      ensures var m := TreeMap(Build(FromDescriptor(d))); key in m && a in m[key]
    {
      ParsedMapIsExact(d, key, a);
      var j, i :| OwnAt(d.Reports(key.dir), j, i, key, a);
      OwnContributes(d, key, a, j, i);
      TreeMapIsExact(d, key, a);
    }
  }

  lemma OwnContributes(d: Descriptor, key: Key, a: Association, j: int, i: int)
    requires OwnAt(d.Reports(key.dir), j, i, key, a)
    ensures Contributes(d, key, a)
  {
    var fs := d.Reports(key.dir)[j].fields;
    assert fs[i].chain != [];
    assert Resolved(fs, i) == fs[i].chain;
    assert ContributesAt(d, key, j, i);
  }

  lemma FallbackProtects(d: Descriptor, key: Key, vendor: U16, product: U16)
    requires ConsistentChains(d) && Protected(Policy(ParsedMap(d), vendor, product), key)
    ensures Ordered(FromDescriptor(d))
    ensures Protected(Policy(TreeMap(Build(FromDescriptor(d))), vendor, product), key)
  {
    hide FromDescriptor, Build, Ordered, TreeMap, ParsedMap, ConsistentChains, IsReportBlocked, IsAlwaysProtected;
    FallbackCovers(d, key);
    var p, q := Policy(ParsedMap(d), vendor, product), Policy(TreeMap(Build(FromDescriptor(d))), vendor, product);
    var a :| a in p.associations[key] && Guards(p, a, key);
    assert a in Entry(ParsedMap(d), key);
    assert Guards(q, a, key);
  }

  // ------------------------------------------- devices blocked as a whole

  // Some field of a report with this key has a chain, its own or borrowed.
  ghost predicate Lands(d: Descriptor, key: Key) {
    exists k, i :: ContributesAt(d, key, k, i)
  }

  // Some variable or array field of a report with this key has a chain of its own.
  ghost predicate HasOwnChain(d: Descriptor, key: Key) {
    exists j, i :: OwnChainAt(d.Reports(key.dir), j, i, key)
  }

  predicate OwnChainAt(rs: seq<ParsedReport>, j: int, i: int, key: Key) {
    && 0 <= j < |rs| && rs[j].id == key.id && 0 <= i < |rs[j].fields|
    && !rs[j].fields[i].Constant? && rs[j].fields[i].chain != []
  }

  // Pruning hides a device that is blocked as a whole, with its raw descriptor and the
  // tree built from it, exactly when each report that the tree holds has a variable or
  // array field with a chain of its own.
  lemma BlockedDescriptorIsHidden(info: DeviceInfo, d: Descriptor)
    requires DeviceIsBlocked(info.vendor, info.product) && info.descriptor == Some(d) && ConsistentChains(d)
    requires Ordered(FromDescriptor(d)) && info.collections == Build(FromDescriptor(d))
    ensures PruneDeviceInfo(info).None? <==> forall key :: Lands(d, key) ==> HasOwnChain(d, key)
  {
    hide DeviceIsBlocked, ParsedMap, PruneDeviceInfo, Build, FromDescriptor, Ordered, Items, Lands, HasOwnChain,
      Associated;
    BlockedDeviceIsHidden(info);
    forall key ensures Lands(d, key) <==> exists x :: x in Items(info.collections, []) && x.Of() == key {
      LandsIffItem(d, key);
    }
    forall key ensures Associated(ParsedMap(d), key) <==> HasOwnChain(d, key) {
      AssociatedIffOwn(d, key);
    }
    forall x | x in Items(info.collections, []) ensures Lands(d, x.Of()) {
    }
  }

  lemma LandsIffItem(d: Descriptor, key: Key)
    requires ConsistentChains(d)
    ensures Ordered(FromDescriptor(d))
    ensures Lands(d, key) <==> exists x :: x in Items(Build(FromDescriptor(d)), []) && x.Of() == key
  {
    hide ConsistentChains, AllAgree, FromDescriptor, Build, Ordered, Items, ContributesAt;
    var homes := HomesExist(d);
    BuiltInOrder(d);
    if k, i :| ContributesAt(d, key, k, i) {
      var x := LandedIsItem(d, homes, key, k, i);
    }
    if x :| x in Items(Build(FromDescriptor(d)), []) && x.Of() == key {
      ItemIsLanded(d, homes, x);
    }
  }

  lemma AssociatedIffOwn(d: Descriptor, key: Key)
    ensures Associated(ParsedMap(d), key) <==> HasOwnChain(d, key)
  {
    hide ParsedMap;
    var m := ParsedMap(d);
    var rs := d.Reports(key.dir);
    if Associated(m, key) {
      ParsedMapIsExact(d, key, m[key][0]);
      var j, i :| OwnAt(rs, j, i, key, m[key][0]);
      assert OwnChainAt(rs, j, i, key);
    }
    if j, i :| OwnChainAt(rs, j, i, key) {
      var a := AssociationsIn(rs[j].fields[i].chain)[0];
      assert OwnAt(rs, j, i, key, a);
      ParsedMapIsExact(d, key, a);
    }
  }

  // A report of one constant field.
  const PADDING := Constant(Bits(0, 8), [HidCollection(1, 1, Some(Usage(0xff00, 1)))])
  const PADDED := Descriptor([ParsedReport(0, [PADDING])], [], [])
  const PADDED_TREE := [Collection(1, Some(0xff00), Some(1), [], [Report(0, [ConstantField(PADDING)])], [], [])]

  // A device that is blocked as a whole and that pruning returns unchanged.
  lemma BlockedDeviceLeft()
    ensures Ordered(FromDescriptor(PADDED)) && DeviceIsBlocked(0x1d50, 0x60fc)
    ensures var info := DeviceInfo(0x1d50, 0x60fc, None, None, Build(FromDescriptor(PADDED)), Some(PADDED));
      PruneDeviceInfo(info) == Some(info)
  {
    hide Prune, Items, Visible, IsReportBlocked;
    PaddedTree();
    PaddedMap();
    var p := Policy(ParsedMap(PADDED), 0x1d50, 0x60fc);
    assert BlocksDevice(RULES[6], 0x1d50, 0x60fc);
    assert Populated(PADDED_TREE);
    PruneNothing(PADDED_TREE, [], p);
  }

  lemma PaddedMap()
    ensures ParsedMap(PADDED) == map[]
  {
    assert AddFields(map[], Key(0, Input), [PADDING], 1) == map[];
    assert AddParsed(map[], PADDED.inputs, 0, Input) == map[];
    assert AddParsed(map[], PADDED.inputs, 1, Input) == map[];
  }

  lemma PaddedTree()
    ensures Ordered(FromDescriptor(PADDED)) && Build(FromDescriptor(PADDED)) == PADDED_TREE
  {
    BuiltInOrder(PADDED);
    PaddedBuilder();
    var b := FromDescriptor(PADDED);
    assert BuildNodes(b, [], 1) == [] && BuildNodes(b, [], 0) == [];
    assert b.nodes[1].children == [] && [1 as ColId][1..] == [];
  }

  lemma PaddedBuilder()
    ensures var b := FromDescriptor(PADDED);
      && b.nodes == map[1 := ColNode(1, Some(0xff00), Some(1), [], [Report(0, [ConstantField(PADDING)])], [], [])]
      && b.roots == [1] && b.rank == map[1 := 0]
  {
    var fs, r := [PADDING], PADDED.inputs[0];
    assert Resolved(fs, 0) == PADDING.chain;
    var b1 := EnsureAt(EMPTY_BUILDER, PADDING.chain, 0);
    assert EnsureFrom(b1, PADDING.chain, 1) == b1;
    assert EnsureFields(EMPTY_BUILDER, fs, 0) == EMPTY_BUILDER;
    assert EnsureFields(EMPTY_BUILDER, fs, 1) == b1;
    assert b1.nodes == map[1 := NewNode(PADDING.chain[0])];
    assert Bucket(fs, 0, 1) == [] && Bucket(fs, 1, 1) == fs;
    assert Taken(fs) == 1 && fs[1..] == [] && Aggregate([]) == [];
    assert Aggregate(fs) == [ConstantField(PADDING)];
    assert r.fields == fs && |r.fields| == 1;
    assert Share(r, 1) == [Report(0, [ConstantField(PADDING)])];
    assert AddReports(EMPTY_BUILDER, PADDED.inputs, 0, Input) == EMPTY_BUILDER;
    var b2 := AddReport(EMPTY_BUILDER, r, Input);
    assert AddReports(EMPTY_BUILDER, PADDED.inputs, 1, Input) == b2;
    assert b2.nodes == map[1 := WithShare(NewNode(PADDING.chain[0]), Input, Share(r, 1))];
    assert AddReports(b2, PADDED.outputs, 0, Output) == b2 && AddReports(b2, PADDED.features, 0, Feature) == b2;
    assert NewNode(PADDING.chain[0]).inputs + [Share(r, 1)[0]] == Share(r, 1);
    assert FromDescriptor(PADDED) == b2;
  }
}
