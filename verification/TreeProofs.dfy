// The built forest holds every collection exactly once, and every field with a
// chain in exactly one report of its innermost collection.
module TreeProofs {
  import opened Common
  import opened Hid
  import opened Fields
  import opened Tree

  // How often the walk from `ids` comes to x.
  ghost function Visits(b: Builder, ids: seq<ColId>, low: nat, x: ColId): nat
    requires Ordered(b) && Above(b, ids, low)
    decreases |b.nodes| - low, |ids|
  {
    if ids == [] then 0
    else (if ids[0] == x then 1 else 0) + Visits(b, b.nodes[ids[0]].children, b.rank[ids[0]] + 1, x)
         + Visits(b, ids[1..], low, x)
  }

  // Every node is reached from the roots, and only once.
  ghost predicate Placed(b: Builder) {
    Ordered(b) && forall x :: Visits(b, b.roots, 0, x) == if x in b.nodes then 1 else 0
  }

  lemma {:induction false} LowIrrelevant(b: Builder, ids: seq<ColId>, low: nat, other: nat, x: ColId)
    requires Ordered(b) && Above(b, ids, low) && Above(b, ids, other)
    ensures Visits(b, ids, low, x) == Visits(b, ids, other, x)
    decreases |ids|
  {
    if ids != [] {
      LowIrrelevant(b, ids[1..], low, other, x);
    }
  }

  lemma {:induction false} VisitsLast(b: Builder, ids: seq<ColId>, id: ColId, low: nat, x: ColId)
    requires Ordered(b) && Above(b, ids, low) && Above(b, [id], low)
    ensures Above(b, ids + [id], low)
    ensures Visits(b, ids + [id], low, x) == Visits(b, ids, low, x) + Visits(b, [id], low, x)
    decreases |ids|
  {
    hide Ordered;
    if ids == [] {
      assert ids + [id] == [id];
    } else {
      assert (ids + [id])[1..] == ids[1..] + [id];
      VisitsLast(b, ids[1..], id, low, x);
    }
  }

  function NewChild(parent: Option<ColId>, y: ColId, id: ColId): seq<ColId> {
    if parent == Some(y) then [id] else []
  }

  // z is b with one new childless node, under `parent` if that is given.
  ghost predicate Grown(b: Builder, z: Builder, parent: Option<ColId>, id: ColId) {
    && id !in b.nodes && z.nodes.Keys == b.nodes.Keys + {id}
    && id in z.nodes && z.nodes[id].children == []
    && z.rank == b.rank[id := |b.nodes|]
    && (parent.Some? ==> parent.value in b.nodes)
    && (forall y :: y in b.nodes ==> z.nodes[y].children == b.nodes[y].children + NewChild(parent, y, id))
    && z.roots == b.roots + if parent.None? then [id] else []
  }

  lemma AboveConcat(b: Builder, xs: seq<ColId>, ys: seq<ColId>, low: nat)
    requires Above(b, xs, low) && Above(b, ys, low)
    ensures Above(b, xs + ys, low)
  {
  }

  lemma GrownIsOrdered(b: Builder, z: Builder, parent: Option<ColId>, id: ColId)
    requires Ordered(b) && Grown(b, z, parent, id)
    ensures Ordered(z) && Above(z, [id], 0)
    ensures |z.nodes| == |b.nodes| + 1
  {
    hide Above, Grown;
    GrownRanks(b, z, parent, id);
    forall y | y in z.nodes ensures Above(z, z.nodes[y].children, z.rank[y] + 1) {
      ChildrenAbove(b, z, parent, id, y);
    }
    RootsAbove(b, z, parent, id);
    NewNodeAbove(b, z, parent, id, id);
  }

  lemma GrownRanks(b: Builder, z: Builder, parent: Option<ColId>, id: ColId)
    requires Ordered(b) && Grown(b, z, parent, id)
    ensures |z.nodes| == |b.nodes| + 1 && z.rank.Keys == z.nodes.Keys
    ensures forall y :: y in z.nodes ==> z.rank[y] < |z.nodes|
  {
    hide Above;
    assert |z.nodes.Keys| == |b.nodes.Keys| + 1;
  }

  lemma RootsAbove(b: Builder, z: Builder, parent: Option<ColId>, id: ColId)
    requires Ordered(b) && Grown(b, z, parent, id)
    ensures Above(z, z.roots, 0)
  {
    hide Above, NewChild;
    StillAbove(b, z, parent, id, b.roots, 0);
    NewNodeAbove(b, z, parent, id, id);
    NothingAbove(z, 0);
    AboveConcat(z, b.roots, if parent.None? then [id] else [], 0);
  }

  lemma ChildrenAbove(b: Builder, z: Builder, parent: Option<ColId>, id: ColId, y: ColId)
    requires Ordered(b) && Grown(b, z, parent, id) && y in z.nodes
    ensures y in z.rank && Above(z, z.nodes[y].children, z.rank[y] + 1)
  {
    hide Above, NewChild;
    if y != id {
      StillAbove(b, z, parent, id, b.nodes[y].children, b.rank[y] + 1);
      NewNodeAbove(b, z, parent, id, y);
      AboveConcat(z, b.nodes[y].children, NewChild(parent, y, id), b.rank[y] + 1);
    } else {
      NothingAbove(z, z.rank[y] + 1);
    }
  }

  lemma NothingAbove(b: Builder, low: nat)
    ensures Above(b, [], low)
  {
  }

  lemma NewNodeAbove(b: Builder, z: Builder, parent: Option<ColId>, id: ColId, y: ColId)
    requires Ordered(b) && Grown(b, z, parent, id)
    ensures Above(z, [id], 0)
    ensures y in b.nodes ==> Above(z, NewChild(parent, y, id), b.rank[y] + 1)
  {
  }

  lemma StillAbove(b: Builder, z: Builder, parent: Option<ColId>, id: ColId, ids: seq<ColId>, low: nat)
    requires Ordered(b) && Grown(b, z, parent, id) && Above(b, ids, low)
    ensures Above(z, ids, low)
  {
  }

  // The walk through the old nodes meets the new one as often as its parent.
  lemma {:induction false} GrownVisits(
      b: Builder, z: Builder, parent: Option<ColId>, id: ColId, ids: seq<ColId>, low: nat, x: ColId)
    requires Ordered(b) && Ordered(z) && Grown(b, z, parent, id) && Above(b, ids, low) && Above(z, ids, low)
    ensures Visits(z, ids, low, x)
      == Visits(b, ids, low, x) + if x == id && parent.Some? then Visits(b, ids, low, parent.value) else 0
    decreases |b.nodes| - low, |ids|
  {
    hide Ordered, Above, Grown, Visits;
    if ids == [] {
      VisitsNothing(b, low);
      VisitsNothing(z, low);
    } else {
      var y := ids[0];
      OldNode(b, z, parent, id, ids, low);
      var children := b.nodes[y].children;
      StillAbove(b, z, parent, id, children, b.rank[y] + 1);
      GrownVisits(b, z, parent, id, children, b.rank[y] + 1, x);
      GrownVisits(b, z, parent, id, ids[1..], low, x);
      VisitsFirst(b, ids, low, x);
      VisitsFirst(z, ids, low, x);
      if parent.Some? {
        VisitsFirst(b, ids, low, parent.value);
      }
      if parent == Some(y) {
        VisitsLast(z, children, id, b.rank[y] + 1, x);
        LeafVisits(z, id, b.rank[y] + 1, x);
      } else {
        assert children + [] == children;
      }
    }
  }

  lemma VisitsNothing(b: Builder, low: nat)
    requires Ordered(b) && Above(b, [], low)
    ensures forall x :: Visits(b, [], low, x) == 0
  {
  }

  lemma VisitsFirst(b: Builder, ids: seq<ColId>, low: nat, x: ColId)
    requires Ordered(b) && Above(b, ids, low) && ids != []
    ensures ids[0] in b.nodes && ids[0] in b.rank && Above(b, b.nodes[ids[0]].children, b.rank[ids[0]] + 1)
    ensures Above(b, ids[1..], low) && low <= b.rank[ids[0]] < |b.nodes|
    ensures Visits(b, ids, low, x) == (if ids[0] == x then 1 else 0)
      + Visits(b, b.nodes[ids[0]].children, b.rank[ids[0]] + 1, x) + Visits(b, ids[1..], low, x)
  {
  }

  lemma OldNode(b: Builder, z: Builder, parent: Option<ColId>, id: ColId, ids: seq<ColId>, low: nat)
    requires Ordered(b) && Ordered(z) && Grown(b, z, parent, id) && Above(b, ids, low) && Above(z, ids, low)
    requires ids != []
    ensures var y := ids[0];
      && y in b.nodes && y in z.nodes && y in b.rank && y in z.rank && z.rank[y] == b.rank[y] && y != id
      && low <= b.rank[y] < |b.nodes|
      && Above(b, b.nodes[y].children, b.rank[y] + 1) && Above(b, ids[1..], low) && Above(z, ids[1..], low)
      && z.nodes[y].children == b.nodes[y].children + NewChild(parent, y, id)
      && (parent == Some(y) ==> Above(z, [id], b.rank[y] + 1))
      && id in z.nodes && z.nodes[id].children == [] && id in z.rank
  {
    hide NewChild;
  }

  lemma LeafVisits(z: Builder, id: ColId, low: nat, x: ColId)
    requires Ordered(z) && Above(z, [id], low) && id in z.nodes && z.nodes[id].children == []
    ensures Visits(z, [id], low, x) == if x == id then 1 else 0
  {
    hide Ordered;
  }

  lemma GrownIsPlaced(b: Builder, z: Builder, parent: Option<ColId>, id: ColId)
    requires Placed(b) && Grown(b, z, parent, id)
    ensures Placed(z)
  {
    GrownIsOrdered(b, z, parent, id);
    StillAbove(b, z, parent, id, b.roots, 0);
    forall x ensures Visits(z, z.roots, 0, x) == if x in z.nodes then 1 else 0 {
      PlacedOnce(b, z, parent, id, x);
    }
  }

  lemma PlacedOnce(b: Builder, z: Builder, parent: Option<ColId>, id: ColId, x: ColId)
    requires Placed(b) && Grown(b, z, parent, id) && Ordered(z)
    requires Above(b, b.roots, 0) && Above(z, b.roots, 0) && Above(z, [id], 0) && Above(z, z.roots, 0)
    ensures Visits(z, z.roots, 0, x) == if x in z.nodes then 1 else 0
  {
    hide Visits, Ordered, Above;
    GrownVisits(b, z, parent, id, b.roots, 0, x);
    assert Visits(b, b.roots, 0, x) == if x in b.nodes then 1 else 0;
    if parent.None? {
      VisitsLast(z, b.roots, id, 0, x);
      LeafVisits(z, id, 0, x);
    } else {
      assert Visits(b, b.roots, 0, parent.value) == 1;
      assert b.roots + [] == b.roots;
    }
  }

  lemma ChildrenAreNodes(b: Builder, p: ColId)
    requires Ordered(b) && p in b.nodes
    ensures forall c :: c in b.nodes[p].children ==> c in b.nodes
  {
    assert Above(b, b.nodes[p].children, b.rank[p] + 1);
  }

  lemma EnsureAtGrows(b: Builder, chain: seq<HidCollection>, i: nat)
    requires Ordered(b) && i < |chain| && chain[i].id !in b.nodes && (i > 0 ==> chain[i - 1].id in b.nodes)
    ensures Grown(b, EnsureAt(b, chain, i), if i == 0 then None else Some(chain[i - 1].id), chain[i].id)
  {
    if i > 0 {
      ChildrenAreNodes(b, chain[i - 1].id);
    }
  }

  // What one more chain leaves as it was.
  ghost predicate Extends(b: Builder, z: Builder) {
    && b.nodes.Keys <= z.nodes.Keys
    && (forall y :: y in b.nodes ==> SameReports(b.nodes[y], z.nodes[y]))
    && (forall y :: y in z.nodes && y !in b.nodes ==> NoReports(z.nodes[y]))
  }

  predicate SameReports(m: ColNode, n: ColNode) {
    m.inputs == n.inputs && m.outputs == n.outputs && m.features == n.features
  }

  predicate NoReports(n: ColNode) {
    n.inputs == [] && n.outputs == [] && n.features == []
  }

  lemma ExtendsTransitive(b: Builder, y: Builder, z: Builder)
    requires Extends(b, y) && Extends(y, z)
    ensures Extends(b, z)
  {
  }

  lemma EnsureAtExtends(b: Builder, chain: seq<HidCollection>, i: nat)
    requires i < |chain|
    ensures Extends(b, EnsureAt(b, chain, i)) && chain[i].id in EnsureAt(b, chain, i).nodes
  {
  }

  lemma {:induction false} EnsureFromKeeps(b: Builder, chain: seq<HidCollection>, i: nat)
    requires Placed(b) && i <= |chain| && (i > 0 ==> chain[i - 1].id in b.nodes)
    ensures var z := EnsureFrom(b, chain, i);
      && Placed(z) && Extends(b, z)
      && (forall j :: i <= j < |chain| ==> chain[j].id in z.nodes)
    decreases |chain| - i
  {
    hide Placed, EnsureAt;
    if i < |chain| {
      var y := EnsureAt(b, chain, i);
      EnsureAtPlaced(b, chain, i);
      EnsureAtExtends(b, chain, i);
      EnsureFromKeeps(y, chain, i + 1);
      ExtendsTransitive(b, y, EnsureFrom(b, chain, i));
    }
  }

  lemma EnsureAtPlaced(b: Builder, chain: seq<HidCollection>, i: nat)
    requires Placed(b) && i < |chain| && (i > 0 ==> chain[i - 1].id in b.nodes)
    ensures Placed(EnsureAt(b, chain, i))
  {
    hide Visits, Grown, Link;
    if chain[i].id !in b.nodes {
      EnsureAtGrows(b, chain, i);
      GrownIsPlaced(b, EnsureAt(b, chain, i), if i == 0 then None else Some(chain[i - 1].id), chain[i].id);
    }
  }

  lemma {:induction false} EnsureFieldsKeeps(b: Builder, fs: seq<HidField>, n: nat)
    requires Placed(b) && n <= |fs|
    ensures var z := EnsureFields(b, fs, n);
      Placed(z) && Extends(b, z) && Covers(fs, n, z.nodes.Keys)
    decreases n
  {
    hide Placed, Resolved, EnsureFrom;
    if n > 0 {
      var y := EnsureFields(b, fs, n - 1);
      EnsureFieldsKeeps(b, fs, n - 1);
      EnsureFromKeeps(y, Resolved(fs, n - 1), 0);
      ExtendsTransitive(b, y, EnsureFields(b, fs, n));
      assert y.nodes.Keys <= EnsureFields(b, fs, n).nodes.Keys;
    }
  }

  // The collections on the chains of the first n fields are among these.
  ghost predicate Covers(fs: seq<HidField>, n: nat, nodes: set<ColId>)
    requires n <= |fs|
  {
    forall i, j :: 0 <= i < n && 0 <= j < |Resolved(fs, i)| ==> Resolved(fs, i)[j].id in nodes
  }

  // Reports hung onto nodes move nothing.
  ghost predicate SameShape(b: Builder, z: Builder) {
    && z.nodes.Keys == b.nodes.Keys && z.roots == b.roots && z.rank == b.rank
    && (forall y :: y in b.nodes ==> z.nodes[y].children == b.nodes[y].children)
  }

  lemma ShapeOrdered(b: Builder, z: Builder)
    requires Ordered(b) && SameShape(b, z)
    ensures Ordered(z)
  {
    assert |z.nodes.Keys| == |b.nodes.Keys|;
    forall y | y in z.nodes ensures Above(z, z.nodes[y].children, z.rank[y] + 1) {
      assert Above(b, b.nodes[y].children, b.rank[y] + 1);
    }
  }

  lemma {:induction false} ShapeVisits(b: Builder, z: Builder, ids: seq<ColId>, low: nat, x: ColId)
    requires Ordered(b) && Ordered(z) && SameShape(b, z) && Above(b, ids, low) && Above(z, ids, low)
    ensures Visits(z, ids, low, x) == Visits(b, ids, low, x)
    decreases |b.nodes| - low, |ids|
  {
    if ids == [] {
      assert Visits(z, ids, low, x) == 0;
    } else {
      hide Visits;
      VisitsFirst(b, ids, low, x);
      VisitsFirst(z, ids, low, x);
      ShapeVisits(b, z, b.nodes[ids[0]].children, b.rank[ids[0]] + 1, x);
      ShapeVisits(b, z, ids[1..], low, x);
    }
  }

  lemma ShapePlaced(b: Builder, z: Builder)
    requires Placed(b) && SameShape(b, z)
    ensures Placed(z)
  {
    ShapeOrdered(b, z);
    forall x ensures Visits(z, z.roots, 0, x) == if x in z.nodes then 1 else 0 {
      ShapeVisits(b, z, b.roots, 0, x);
    }
  }

  // ------------------------------------------------- where reports land

  // All that parsed reports of one direction contribute to a collection.
  function ReportsFor(rs: seq<ParsedReport>, n: nat, id: ColId): seq<Report>
    requires n <= |rs|
  {
    if n == 0 then [] else ReportsFor(rs, n - 1, id) + Share(rs[n - 1], id)
  }

  function When(now: bool, rs: seq<Report>): seq<Report> {
    if now then rs else []
  }

  function Held(b: Builder, id: ColId, dir: Direction): seq<Report> {
    if id in b.nodes then b.nodes[id].Reports(dir) else []
  }

  lemma {:induction false} BucketHasNode(fs: seq<HidField>, n: nat, id: ColId, nodes: set<ColId>)
    requires n <= |fs| && Bucket(fs, n, id) != []
    requires Covers(fs, n, nodes)
    ensures id in nodes
    decreases n
  {
    hide Resolved;
    if !LandsIn(fs, n - 1, id) {
      BucketHasNode(fs, n - 1, id, nodes);
    }
  }

  lemma AddReportKeeps(b: Builder, r: ParsedReport, dir: Direction)
    requires Placed(b)
    ensures Placed(AddReport(b, r, dir))
    ensures forall id, e :: Held(AddReport(b, r, dir), id, e) == Held(b, id, e) + When(e == dir, Share(r, id))
  {
    hide EnsureFields, Placed, Share;
    var y := EnsureFields(b, r.fields, |r.fields|);
    var z := AddReport(b, r, dir);
    EnsureFieldsKeeps(b, r.fields, |r.fields|);
    assert SameShape(y, z);
    ShapePlaced(y, z);
    forall id, e ensures Held(z, id, e) == Held(b, id, e) + When(e == dir, Share(r, id)) {
      SharedOut(b, y, r, dir, id, e);
    }
  }

  lemma SharedOut(b: Builder, y: Builder, r: ParsedReport, dir: Direction, id: ColId, e: Direction)
    requires Extends(b, y)
    requires Covers(r.fields, |r.fields|, y.nodes.Keys)
    ensures (if id in y.nodes then WithShare(y.nodes[id], dir, Share(r, id)).Reports(e) else [])
      == Held(b, id, e) + When(e == dir, Share(r, id))
  {
    hide Share, Resolved;
    ShareIsOne(r, id);
    if id !in y.nodes {
      ShareNeedsNode(r, id, y.nodes.Keys);
    }
  }

  lemma ShareIsOne(r: ParsedReport, id: ColId)
    ensures |Share(r, id)| <= 1
  {
    hide Bucket, Aggregate;
  }

  lemma ShareNeedsNode(r: ParsedReport, id: ColId, nodes: set<ColId>)
    requires id !in nodes
    requires Covers(r.fields, |r.fields|, nodes)
    ensures Share(r, id) == []
  {
    hide Resolved, Aggregate;
    if Bucket(r.fields, |r.fields|, id) != [] {
      BucketHasNode(r.fields, |r.fields|, id, nodes);
    }
  }

  lemma {:induction false} AddReportsKeeps(b: Builder, rs: seq<ParsedReport>, n: nat, dir: Direction)
    requires Placed(b) && n <= |rs|
    ensures Placed(AddReports(b, rs, n, dir))
    ensures forall id, e ::
      Held(AddReports(b, rs, n, dir), id, e) == Held(b, id, e) + When(e == dir, ReportsFor(rs, n, id))
    decreases n
  {
    hide Placed, Share, AddReport, Held;
    if n > 0 {
      var y := AddReports(b, rs, n - 1, dir);
      AddReportsKeeps(b, rs, n - 1, dir);
      AddReportKeeps(y, rs[n - 1], dir);
      forall id, e
        ensures Held(AddReports(b, rs, n, dir), id, e) == Held(b, id, e) + When(e == dir, ReportsFor(rs, n, id))
      {
        assert Held(y, id, e) == Held(b, id, e) + When(e == dir, ReportsFor(rs, n - 1, id));
        assert Held(b, id, e) + (ReportsFor(rs, n - 1, id) + Share(rs[n - 1], id))
            == Held(b, id, e) + ReportsFor(rs, n - 1, id) + Share(rs[n - 1], id);
      }
    }
  }

  // The builder after a whole descriptor: ordered, every node once, and each node
  // holds exactly the shares of its descriptor's reports, in order.
  lemma DescriptorPlaced(d: Descriptor)
    ensures Placed(FromDescriptor(d))
    ensures forall id, dir :: Held(FromDescriptor(d), id, dir) == ReportsFor(d.Reports(dir), |d.Reports(dir)|, id)
  {
    hide Placed, AddReports, ReportsFor, Held;
    EmptyPlaced();
    var b1 := AddReports(EMPTY_BUILDER, d.inputs, |d.inputs|, Input);
    AddReportsKeeps(EMPTY_BUILDER, d.inputs, |d.inputs|, Input);
    var b2 := AddReports(b1, d.outputs, |d.outputs|, Output);
    AddReportsKeeps(b1, d.outputs, |d.outputs|, Output);
    AddReportsKeeps(b2, d.features, |d.features|, Feature);
    forall id, dir ensures Held(FromDescriptor(d), id, dir) == ReportsFor(d.Reports(dir), |d.Reports(dir)|, id) {
      assert Held(EMPTY_BUILDER, id, dir) == [];
      assert Held(b1, id, dir) == if dir == Input then ReportsFor(d.inputs, |d.inputs|, id) else [];
      assert Held(b2, id, dir) == if dir == Feature then [] else ReportsFor(d.Reports(dir), |d.Reports(dir)|, id);
    }
  }

  lemma EmptyPlaced()
    ensures Placed(EMPTY_BUILDER)
    ensures forall id, dir :: Held(EMPTY_BUILDER, id, dir) == []
  {
  }

  // ------------------------------------------------------------ the forest

  lemma CountsAdd<T>(first: T, a: seq<T>, c: seq<T>, x: T)
    ensures multiset([first] + a + c)[x] == (if first == x then 1 else 0) + multiset(a)[x] + multiset(c)[x]
  {
  }

  lemma PreorderFirst(b: Builder, ids: seq<ColId>, low: nat)
    requires Ordered(b) && Above(b, ids, low) && ids != []
    requires ids[0] in b.nodes && ids[0] in b.rank && Above(b, b.nodes[ids[0]].children, b.rank[ids[0]] + 1)
    requires Above(b, ids[1..], low)
    ensures Preorder(b, ids, low)
      == [ids[0]] + Preorder(b, b.nodes[ids[0]].children, b.rank[ids[0]] + 1) + Preorder(b, ids[1..], low)
  {
    hide Ordered, Above;
  }

  lemma PreorderNothing(b: Builder, low: nat)
    requires Ordered(b) && Above(b, [], low)
    ensures Preorder(b, [], low) == []
  {
  }

  lemma {:induction false} PreorderCounts(b: Builder, ids: seq<ColId>, low: nat, x: ColId)
    requires Ordered(b) && Above(b, ids, low)
    ensures multiset(Preorder(b, ids, low))[x] == Visits(b, ids, low, x)
    decreases |b.nodes| - low, |ids|
  {
    hide Ordered, Above, Preorder, Visits;
    if ids == [] {
      VisitsNothing(b, low);
      PreorderNothing(b, low);
    } else {
      VisitsFirst(b, ids, low, x);
      PreorderFirst(b, ids, low);
      CountsAdd(ids[0], Preorder(b, b.nodes[ids[0]].children, b.rank[ids[0]] + 1), Preorder(b, ids[1..], low), x);
      PreorderCounts(b, b.nodes[ids[0]].children, b.rank[ids[0]] + 1, x);
      PreorderCounts(b, ids[1..], low, x);
    }
  }

  predicate Mirrors(c: Collection, n: ColNode) {
    && c.kind == n.kind && c.usagePage == n.usagePage && c.usage == n.usage
    && c.inputs == n.inputs && c.outputs == n.outputs && c.features == n.features
  }

  ghost predicate MirrorsAll(b: Builder, cs: seq<Collection>, ids: seq<ColId>) {
    |cs| == |ids| && forall k :: 0 <= k < |ids| ==> ids[k] in b.nodes && Mirrors(cs[k], b.nodes[ids[k]])
  }

  lemma {:induction false} ForestMirrors(b: Builder, ids: seq<ColId>, low: nat)
    requires Ordered(b) && Above(b, ids, low)
    ensures MirrorsAll(b, Flatten(BuildNodes(b, ids, low)), Preorder(b, ids, low))
    decreases |b.nodes| - low, |ids|
  {
    hide Ordered, Above;
    if ids != [] {
      VisitsFirst(b, ids, low, ids[0]);
      ForestMirrors(b, b.nodes[ids[0]].children, b.rank[ids[0]] + 1);
      ForestMirrors(b, ids[1..], low);
      FlattenFirst(b, ids, low);
    }
  }

  lemma FlattenFirst(b: Builder, ids: seq<ColId>, low: nat)
    requires Ordered(b) && Above(b, ids, low) && ids != []
    requires ids[0] in b.nodes && ids[0] in b.rank && Above(b, b.nodes[ids[0]].children, b.rank[ids[0]] + 1)
    requires Above(b, ids[1..], low)
    ensures var cs := BuildNodes(b, ids, low); var below := BuildNodes(b, b.nodes[ids[0]].children, b.rank[ids[0]] + 1);
      && cs != [] && Mirrors(cs[0], b.nodes[ids[0]])
      && Flatten(cs) == [cs[0]] + Flatten(below) + Flatten(BuildNodes(b, ids[1..], low))
  {
    hide Ordered, Above;
    var cs := BuildNodes(b, ids, low);
    assert cs[1..] == BuildNodes(b, ids[1..], low);
  }

  lemma CountedOnce<T>(s: seq<T>)
    requires forall x :: multiset(s)[x] <= 1
    ensures forall i, j :: 0 <= i < j < |s| ==> s[i] != s[j]
  {
    forall i, j | 0 <= i < j < |s| ensures s[i] != s[j] {
      assert s == s[..j] + s[j..];
      assert s[i] in s[..j] && s[j] in s[j..];
      assert multiset(s)[s[i]] == multiset(s[..j])[s[i]] + multiset(s[j..])[s[i]];
    }
  }

  // `build` puts every collection id of the descriptor at exactly one place of the
  // forest, with that collection's own data and reports.
  lemma BuildPlacesEachOnce(d: Descriptor)
    ensures var b := FromDescriptor(d);
      && Placed(b)
      && (var order := Preorder(b, b.roots, 0);
          && (forall i, j :: 0 <= i < j < |order| ==> order[i] != order[j])
          && (forall id :: id in order <==> NamedIn(d, id))
          && (order != [] ==> MirrorsAll(b, Flatten(Build(b)), order))
          && (order == [] ==> Build(b) == [BARE_COLLECTION]))
  {
    hide Visits, FromDescriptor, NamedIn, Above, MirrorsAll, Flatten;
    DescriptorPlaced(d);
    var b := FromDescriptor(d);
    var order := Preorder(b, b.roots, 0);
    forall x ensures multiset(order)[x] == if x in b.nodes then 1 else 0 {
      PreorderCounts(b, b.roots, 0, x);
    }
    CountedOnce(order);
    ForestMirrors(b, b.roots, 0);
    DescriptorNodes(d);
    forall x ensures x in order <==> NamedIn(d, x) {
      assert x in order <==> multiset(order)[x] > 0;
    }
    assert b.roots != [] ==> order != [];
  }

  // ------------------------------------------------------- which nodes exist

  function ChainIds(chain: seq<HidCollection>): set<ColId> {
    set j | 0 <= j < |chain| :: chain[j].id
  }

  function FieldIds(fs: seq<HidField>, n: nat): set<ColId>
    requires n <= |fs|
  {
    if n == 0 then {} else FieldIds(fs, n - 1) + ChainIds(Resolved(fs, n - 1))
  }

  function ReportIds(rs: seq<ParsedReport>, n: nat): set<ColId>
    requires n <= |rs|
  {
    if n == 0 then {} else ReportIds(rs, n - 1) + FieldIds(rs[n - 1].fields, |rs[n - 1].fields|)
  }

  // The id stands on the chain of some field of some report.
  ghost predicate NamedIn(d: Descriptor, id: ColId) {
    exists dir, k, i, j :: NamedAt(d, dir, k, i, j, id)
  }

  predicate NamedAt(d: Descriptor, dir: Direction, k: int, i: int, j: int, id: ColId) {
    && 0 <= k < |d.Reports(dir)| && 0 <= i < |d.Reports(dir)[k].fields|
    && 0 <= j < |Resolved(d.Reports(dir)[k].fields, i)|
    && Resolved(d.Reports(dir)[k].fields, i)[j].id == id
  }

  lemma {:induction false} EnsureFromNodes(b: Builder, chain: seq<HidCollection>, i: nat)
    requires i <= |chain|
    ensures EnsureFrom(b, chain, i).nodes.Keys == b.nodes.Keys + ChainIds(chain[i..])
    decreases |chain| - i
  {
    hide EnsureAt, ChainIds;
    if i < |chain| {
      var y := EnsureAt(b, chain, i);
      EnsureFromNodes(y, chain, i + 1);
      EnsureAtNodes(b, chain, i);
      assert chain[i..] == [chain[i]] + chain[i + 1..];
      ChainIdsFirst(chain[i], chain[i + 1..]);
    } else {
      NoIds();
      assert chain[i..] == [];
    }
  }

  lemma NoIds()
    ensures ChainIds([]) == {}
  {
  }

  lemma EnsureAtNodes(b: Builder, chain: seq<HidCollection>, i: nat)
    requires i < |chain|
    ensures EnsureAt(b, chain, i).nodes.Keys == b.nodes.Keys + {chain[i].id}
  {
  }

  lemma ChainIdsFirst(c: HidCollection, chain: seq<HidCollection>)
    ensures ChainIds([c] + chain) == {c.id} + ChainIds(chain)
  {
    var whole := [c] + chain;
    assert whole[0] == c;
    forall x | x in {c.id} + ChainIds(chain) ensures x in ChainIds(whole) {
      if x != c.id {
        var j :| 0 <= j < |chain| && chain[j].id == x;
        assert whole[j + 1].id == x;
      }
    }
  }

  lemma {:induction false} FieldNodes(b: Builder, fs: seq<HidField>, n: nat)
    requires n <= |fs|
    ensures EnsureFields(b, fs, n).nodes.Keys == b.nodes.Keys + FieldIds(fs, n)
    decreases n
  {
    hide Resolved, EnsureFrom, ChainIds;
    if n > 0 {
      FieldNodes(b, fs, n - 1);
      EnsureFromNodes(EnsureFields(b, fs, n - 1), Resolved(fs, n - 1), 0);
      assert Resolved(fs, n - 1)[0..] == Resolved(fs, n - 1);
    }
  }

  lemma {:induction false} ReportNodes(b: Builder, rs: seq<ParsedReport>, n: nat, dir: Direction)
    requires n <= |rs|
    ensures AddReports(b, rs, n, dir).nodes.Keys == b.nodes.Keys + ReportIds(rs, n)
    decreases n
  {
    hide EnsureFields, FieldIds, Share;
    if n > 0 {
      ReportNodes(b, rs, n - 1, dir);
      FieldNodes(AddReports(b, rs, n - 1, dir), rs[n - 1].fields, |rs[n - 1].fields|);
    }
  }

  lemma {:induction false} FieldIdsMeaning(fs: seq<HidField>, n: nat, id: ColId)
    requires n <= |fs|
    ensures id in FieldIds(fs, n)
      <==> exists i, j :: 0 <= i < n && 0 <= j < |Resolved(fs, i)| && Resolved(fs, i)[j].id == id
    decreases n
  {
    hide Resolved;
    if n > 0 {
      FieldIdsMeaning(fs, n - 1, id);
      if id in ChainIds(Resolved(fs, n - 1)) {
        var j :| 0 <= j < |Resolved(fs, n - 1)| && Resolved(fs, n - 1)[j].id == id;
      }
    }
  }

  lemma {:induction false} ReportIdsMeaning(rs: seq<ParsedReport>, n: nat, id: ColId)
    requires n <= |rs|
    ensures id in ReportIds(rs, n) <==> exists k :: 0 <= k < n && id in FieldIds(rs[k].fields, |rs[k].fields|)
    decreases n
  {
    hide FieldIds;
    if n > 0 {
      ReportIdsMeaning(rs, n - 1, id);
    }
  }

  lemma DescriptorNodes(d: Descriptor)
    ensures forall id :: id in FromDescriptor(d).nodes <==> NamedIn(d, id)
  {
    forall id ensures id in FromDescriptor(d).nodes <==> NamedIn(d, id) {
      NodeIffNamed(d, id);
    }
  }

  function DirectionIds(d: Descriptor, dir: Direction): set<ColId> {
    ReportIds(d.Reports(dir), |d.Reports(dir)|)
  }

  lemma NodeIffNamed(d: Descriptor, id: ColId)
    ensures id in FromDescriptor(d).nodes <==> NamedIn(d, id)
  {
    hide AddReports, FieldIds, ReportIds, Resolved;
    var b1 := AddReports(EMPTY_BUILDER, d.inputs, |d.inputs|, Input);
    var b2 := AddReports(b1, d.outputs, |d.outputs|, Output);
    ReportNodes(EMPTY_BUILDER, d.inputs, |d.inputs|, Input);
    ReportNodes(b1, d.outputs, |d.outputs|, Output);
    ReportNodes(b2, d.features, |d.features|, Feature);
    assert id in FromDescriptor(d).nodes.Keys <==> exists dir :: id in DirectionIds(d, dir) by {
      assert DirectionIds(d, Input) == ReportIds(d.inputs, |d.inputs|);
      assert DirectionIds(d, Output) == ReportIds(d.outputs, |d.outputs|);
      assert DirectionIds(d, Feature) == ReportIds(d.features, |d.features|);
    }
    forall dir ensures id in DirectionIds(d, dir) <==> exists k, i, j :: NamedAt(d, dir, k, i, j, id) {
      DirectionMeaning(d, dir, id);
    }
    if dir: Direction :| id in DirectionIds(d, dir) {
      var k, i, j :| NamedAt(d, dir, k, i, j, id);
    }
    if NamedIn(d, id) {
      var dir, k, i, j :| NamedAt(d, dir, k, i, j, id);
      assert id in DirectionIds(d, dir);
    }
  }

  lemma DirectionMeaning(d: Descriptor, dir: Direction, id: ColId)
    ensures id in DirectionIds(d, dir) <==> exists k, i, j :: NamedAt(d, dir, k, i, j, id)
  {
    hide FieldIds, ReportIds, Resolved;
    var rs := d.Reports(dir);
    ReportIdsMeaning(rs, |rs|, id);
    forall k | 0 <= k < |rs|
      ensures id in FieldIds(rs[k].fields, |rs[k].fields|) <==> exists i, j :: NamedAt(d, dir, k, i, j, id)
    {
      var fs := rs[k].fields;
      FieldIdsMeaning(fs, |fs|, id);
      if i, j :| 0 <= i < |fs| && 0 <= j < |Resolved(fs, i)| && Resolved(fs, i)[j].id == id {
        assert NamedAt(d, dir, k, i, j, id);
      }
    }
  }

  // ------------------------------------------------ fields in their buckets

  // Positions of the first n fields that land in a collection.
  function Positions(fs: seq<HidField>, n: nat, id: ColId): seq<nat>
    requires n <= |fs|
  {
    if n == 0 then [] else Positions(fs, n - 1, id) + if LandsIn(fs, n - 1, id) then [n - 1] else []
  }

  // A bucket holds exactly the fields that land in its collection, in order.
  lemma BucketKeepsOrder(fs: seq<HidField>, n: nat, id: ColId)
    requires n <= |fs|
    ensures var ps := Positions(fs, n, id);
      && |Bucket(fs, n, id)| == |ps|
      && (forall k :: 0 <= k < |ps| ==> ps[k] < n && Bucket(fs, n, id)[k] == fs[ps[k]])
      && (forall k, l :: 0 <= k < l < |ps| ==> ps[k] < ps[l])
      && (forall i: nat :: i < n ==> (i in ps <==> LandsIn(fs, i, id)))
  {
    hide LandsIn, Bucket, Positions;
    BucketFollows(fs, n, id);
    PositionsOrdered(fs, n, id);
  }

  lemma {:induction false} BucketFollows(fs: seq<HidField>, n: nat, id: ColId)
    requires n <= |fs|
    ensures var ps := Positions(fs, n, id);
      |Bucket(fs, n, id)| == |ps| && forall k :: 0 <= k < |ps| ==> ps[k] < n && Bucket(fs, n, id)[k] == fs[ps[k]]
    decreases n
  {
    hide LandsIn;
    if n > 0 {
      BucketFollows(fs, n - 1, id);
    }
  }

  lemma {:induction false} PositionsOrdered(fs: seq<HidField>, n: nat, id: ColId)
    requires n <= |fs|
    ensures var ps := Positions(fs, n, id);
      && (forall k :: 0 <= k < |ps| ==> ps[k] < n)
      && (forall k, l :: 0 <= k < l < |ps| ==> ps[k] < ps[l])
      && (forall i: nat :: i < n ==> (i in ps <==> LandsIn(fs, i, id)))
    decreases n
  {
    hide LandsIn;
    if n > 0 {
      PositionsOrdered(fs, n - 1, id);
    }
  }

  // A field with a chain lands in one collection, a field without in none.
  lemma FieldLandsOnce(fs: seq<HidField>, i: nat)
    requires i < |fs|
    ensures Resolved(fs, i) != [] ==>
      (forall id :: LandsIn(fs, i, id) <==> id == Resolved(fs, i)[|Resolved(fs, i)| - 1].id)
    ensures Resolved(fs, i) == [] ==> forall id :: !LandsIn(fs, i, id)
    ensures Resolved(fs, i) == [] <==> forall k :: 0 <= k < |fs| ==> fs[k].chain == []
  {
    if Resolved(fs, i) == [] {
      EarlierEmpty(fs, i);
      LaterEmpty(fs, i + 1);
    } else if forall k :: 0 <= k < |fs| ==> fs[k].chain == [] {
      EarlierEmpty(fs, i);
      LaterEmpty(fs, i + 1);
    }
  }

  lemma {:induction false} EarlierEmpty(fs: seq<HidField>, i: nat)
    requires i <= |fs|
    ensures Earlier(fs, i) == [] <==> forall k :: 0 <= k < i ==> fs[k].chain == []
    decreases i
  {
    if i > 0 {
      EarlierEmpty(fs, i - 1);
    }
  }

  lemma {:induction false} LaterEmpty(fs: seq<HidField>, i: nat)
    requires i <= |fs|
    ensures Later(fs, i) == [] <==> forall k :: i <= k < |fs| ==> fs[k].chain == []
    decreases |fs| - i
  {
    if i < |fs| {
      LaterEmpty(fs, i + 1);
    }
  }

  // ------------------------------------------------------------ borrowed chains

  // The k-th field has collections and is the one the i-th goes by: itself, or else the
  // nearest before it, or, if nobody before it has any, the nearest after.
  ghost predicate Lends(fs: seq<HidField>, i: nat, k: nat)
    requires i < |fs| && k < |fs|
  {
    && fs[k].chain != []
    && (k < i ==> forall m :: k < m <= i ==> fs[m].chain == [])
    && (k > i ==> forall m :: 0 <= m < k ==> fs[m].chain == [])
  }

  lemma {:induction false} EarlierLends(fs: seq<HidField>, i: nat, k: nat)
    requires k < i <= |fs| && fs[k].chain != [] && forall m :: k < m < i ==> fs[m].chain == []
    ensures Earlier(fs, i) == fs[k].chain
    decreases i
  {
    if k < i - 1 {
      EarlierLends(fs, i - 1, k);
    }
  }

  lemma {:induction false} EarlierNone(fs: seq<HidField>, i: nat)
    requires i <= |fs| && forall m :: 0 <= m < i ==> fs[m].chain == []
    ensures Earlier(fs, i) == []
    decreases i
  {
    if i > 0 {
      EarlierNone(fs, i - 1);
    }
  }

  lemma {:induction false} LaterLends(fs: seq<HidField>, i: nat, k: nat)
    requires i <= k < |fs| && fs[k].chain != [] && forall m :: i <= m < k ==> fs[m].chain == []
    ensures Later(fs, i) == fs[k].chain
    decreases k - i
  {
    if i < k {
      LaterLends(fs, i + 1, k);
    }
  }

  lemma {:induction false} LaterNone(fs: seq<HidField>, i: nat)
    requires i <= |fs| && forall m :: i <= m < |fs| ==> fs[m].chain == []
    ensures Later(fs, i) == []
    decreases |fs| - i
  {
    if i < |fs| {
      LaterNone(fs, i + 1);
    }
  }

  // A field goes by its own collections, those of the nearest field before it, or those of
  // the nearest after it, in this order, and by none only if no field has any.
  lemma BorrowsNearest(fs: seq<HidField>, i: nat)
    requires i < |fs|
    ensures forall k :: 0 <= k < |fs| && Lends(fs, i, k) ==> Resolved(fs, i) == fs[k].chain
    ensures Resolved(fs, i) == [] <==> forall k :: 0 <= k < |fs| ==> fs[k].chain == []
  {
    forall k | 0 <= k < |fs| && Lends(fs, i, k) ensures Resolved(fs, i) == fs[k].chain {
      if k < i {
        EarlierLends(fs, i, k);
      } else if k > i {
        EarlierNone(fs, i);
        LaterLends(fs, i + 1, k);
      }
    }
    if forall k :: 0 <= k < |fs| ==> fs[k].chain == [] {
      EarlierNone(fs, i);
      LaterNone(fs, i + 1);
    } else {
      var k := SomeLender(fs, i);
    }
  }

  lemma SomeLender(fs: seq<HidField>, i: nat) returns (k: nat)
    requires i < |fs| && exists k :: 0 <= k < |fs| && fs[k].chain != []
    ensures k < |fs| && Lends(fs, i, k)
  {
    k := i;
    while k > 0 && fs[k].chain == []
      invariant k <= i && forall m :: k < m <= i ==> fs[m].chain == []
    {
      k := k - 1;
    }
    if fs[k].chain == [] {
      k := i + 1;
      while k < |fs| && fs[k].chain == []
        invariant i < k <= |fs| && forall m :: 0 <= m < k ==> fs[m].chain == []
      {
        k := k + 1;
      }
    }
  }
}
