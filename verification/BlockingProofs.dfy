// Pruning keeps exactly the unprotected reports, in place and in order, and the
// fallback map protects all that the full parse protects.
module BlockingProofs {
  import opened Common
  import opened Hid
  import opened Fields
  import opened Tree
  import opened TreeProofs
  import opened Blocklist
  import opened ReportBlocking

  // ------------------------------------------------------------ the walk

  lemma {:induction false} GatherMeaning(items: seq<Item>, k: Key, a: Association)
    ensures a in Gather(items, k) <==> exists i :: 0 <= i < |items| && items[i].Of() == k && a in items[i].path
    decreases |items|
  {
    if items != [] {
      GatherMeaning(items[1..], k, a);
    }
  }

  lemma {:induction false} GatherConcat(s: seq<Item>, t: seq<Item>, k: Key)
    ensures Gather(s + t, k) == Gather(s, k) + Gather(t, k)
    decreases |s|
  {
    if s == [] {
      assert s + t == t;
    } else {
      assert (s + t)[1..] == s[1..] + t;
      GatherConcat(s[1..], t, k);
    }
  }

  // ------------------------------------------------------------- pruning

  function Visible(items: seq<Item>, p: Policy): seq<Item> {
    if items == [] then []
    else (if Protected(p, items[0].Of()) then [] else [items[0]]) + Visible(items[1..], p)
  }

  lemma {:induction false} VisibleConcat(s: seq<Item>, t: seq<Item>, p: Policy)
    ensures Visible(s + t, p) == Visible(s, p) + Visible(t, p)
    decreases |s|
  {
    hide Protected;
    if s == [] {
      assert s + t == t;
    } else {
      assert (s + t)[1..] == s[1..] + t;
      VisibleConcat(s[1..], t, p);
    }
  }

  lemma {:induction false} VisibleReports(path: seq<Association>, dir: Direction, rs: seq<Report>, p: Policy)
    ensures ReportItems(path, dir, PruneReports(rs, dir, p)) == Visible(ReportItems(path, dir, rs), p)
    decreases |rs|
  {
    hide Protected;
    if rs != [] {
      VisibleReports(path, dir, rs[1..], p);
      assert ReportItems(path, dir, rs)[1..] == ReportItems(path, dir, rs[1..]);
    }
  }

  function Pruned(c: Collection, p: Policy): Collection {
    c.(children := Prune(c.children, p), inputs := PruneReports(c.inputs, Input, p),
       outputs := PruneReports(c.outputs, Output, p), features := PruneReports(c.features, Feature, p))
  }

  lemma VisibleOwn(c: Collection, path: seq<Association>, p: Policy)
    ensures OwnItems(Pruned(c, p), path) == Visible(OwnItems(c, path), p)
  {
    hide Prune, PruneReports, Visible, ReportItems;
    VisibleReports(path, Input, c.inputs, p);
    VisibleReports(path, Output, c.outputs, p);
    VisibleReports(path, Feature, c.features, p);
    VisibleConcat(ReportItems(path, Input, c.inputs) + ReportItems(path, Output, c.outputs),
                  ReportItems(path, Feature, c.features), p);
    VisibleConcat(ReportItems(path, Input, c.inputs), ReportItems(path, Output, c.outputs), p);
  }

  lemma PruneFirst(cs: seq<Collection>, p: Policy)
    requires cs != []
    ensures Prune(cs, p) == (if Bare(Pruned(cs[0], p)) then [] else [Pruned(cs[0], p)]) + Prune(cs[1..], p)
  {
  }

  lemma ItemsFirst(c: Collection, cs: seq<Collection>, above: seq<Association>)
    ensures var path := above + [AssociationOf(c)];
      Items([c] + cs, above) == OwnItems(c, path) + Items(c.children, path) + Items(cs, above)
  {
    assert ([c] + cs)[1..] == cs;
  }

  // Pruning keeps exactly the reports with an unprotected key, under the same
  // collections and in the same order.
  lemma {:induction false} PruneKeepsVisible(cs: seq<Collection>, above: seq<Association>, p: Policy)
    ensures Items(Prune(cs, p), above) == Visible(Items(cs, above), p)
    decreases cs
  {
    hide Items, Prune, OwnItems, Visible, AssociationOf, Pruned;
    if cs == [] {
      NothingToPrune(above, p);
    } else {
      var c := cs[0];
      var path := above + [AssociationOf(c)];
      PrunedSame(c, p);
      PruneKeepsVisible(c.children, path, p);
      PruneKeepsVisible(cs[1..], above, p);
      PruneFirst(cs, p);
      ItemsFirst(Pruned(c, p), Prune(cs[1..], p), above);
      ItemsFirst(c, cs[1..], above);
      assert [c] + cs[1..] == cs;
      VisibleOwn(c, path, p);
      VisibleConcat(OwnItems(c, path) + Items(c.children, path), Items(cs[1..], above), p);
      VisibleConcat(OwnItems(c, path), Items(c.children, path), p);
      if Bare(Pruned(c, p)) {
        BareHasNothing(Pruned(c, p), path);
        assert [] + Prune(cs[1..], p) == Prune(cs[1..], p);
      }
    }
  }

  lemma NothingToPrune(above: seq<Association>, p: Policy)
    ensures Items(Prune([], p), above) == Visible(Items([], above), p)
  {
  }

  lemma PrunedSame(c: Collection, p: Policy)
    ensures AssociationOf(Pruned(c, p)) == AssociationOf(c) && Pruned(c, p).children == Prune(c.children, p)
  {
    hide Prune, PruneReports;
  }

  lemma BareHasNothing(c: Collection, path: seq<Association>)
    requires Bare(c)
    ensures OwnItems(c, path) == [] && Items(c.children, path) == []
  {
  }

  // Every collection has a report somewhere below it.
  predicate Populated(cs: seq<Collection>)
    decreases cs
  {
    cs == [] || (!Bare(cs[0]) && Populated(cs[0].children) && Populated(cs[1..]))
  }

  lemma {:induction false} PruneLeavesNoneBare(cs: seq<Collection>, p: Policy)
    ensures Populated(Prune(cs, p))
    decreases cs
  {
    hide PruneReports, Protected;
    if cs != [] {
      PruneFirst(cs, p);
      PruneLeavesNoneBare(cs[0].children, p);
      PruneLeavesNoneBare(cs[1..], p);
      var rest := Prune(cs[1..], p);
      if Bare(Pruned(cs[0], p)) {
        assert [] + rest == rest;
      } else {
        assert ([Pruned(cs[0], p)] + rest)[1..] == rest;
      }
    }
  }

  // The subtree of every collection of a populated forest holds a report.
  lemma {:induction false} PopulatedHasItems(cs: seq<Collection>, above: seq<Association>)
    requires Populated(cs) && cs != []
    ensures Items(cs, above) != []
    ensures forall i :: 0 <= i < |cs| ==> Items([cs[i]], above) != []
    decreases cs
  {
    var c := cs[0];
    var path := above + [AssociationOf(c)];
    if c.children != [] {
      PopulatedHasItems(c.children, path);
    }
    ItemsFirst(c, [], above);
    assert [c] + [] == [c];
    forall i | 0 <= i < |cs| ensures Items([cs[i]], above) != [] {
      if i > 0 {
        PopulatedHasItems(cs[1..], above);
        assert cs[i] == cs[1..][i - 1];
      }
    }
  }

  predicate AllVisible(items: seq<Item>, p: Policy) {
    forall i :: 0 <= i < |items| ==> !Protected(p, items[i].Of())
  }

  lemma {:induction false} VisibleMeaning(items: seq<Item>, p: Policy)
    ensures AllVisible(Visible(items, p), p)
    ensures forall x :: x in Visible(items, p) <==> x in items && !Protected(p, x.Of())
    decreases |items|
  {
    hide Protected;
    if items != [] {
      VisibleMeaning(items[1..], p);
    }
  }

  lemma {:induction false} PruneReportsNothing(path: seq<Association>, dir: Direction, rs: seq<Report>, p: Policy)
    requires AllVisible(ReportItems(path, dir, rs), p)
    ensures PruneReports(rs, dir, p) == rs
    decreases |rs|
  {
    hide Protected;
    if rs != [] {
      assert !Protected(p, ReportItems(path, dir, rs)[0].Of());
      assert ReportItems(path, dir, rs)[1..] == ReportItems(path, dir, rs[1..]);
      PruneReportsNothing(path, dir, rs[1..], p);
    }
  }

  lemma AllVisibleParts(s: seq<Item>, t: seq<Item>, p: Policy)
    requires AllVisible(s + t, p)
    ensures AllVisible(s, p) && AllVisible(t, p)
  {
    hide Protected;
    forall i | 0 <= i < |s| ensures !Protected(p, s[i].Of()) {
      assert (s + t)[i] == s[i];
    }
    forall i | 0 <= i < |t| ensures !Protected(p, t[i].Of()) {
      assert (s + t)[|s| + i] == t[i];
    }
  }

  // A populated forest without protected reports is left as it is.
  lemma {:induction false} PruneNothing(cs: seq<Collection>, above: seq<Association>, p: Policy)
    requires Populated(cs) && AllVisible(Items(cs, above), p)
    ensures Prune(cs, p) == cs
    decreases cs
  {
    hide AllVisible, Protected, ReportItems;
    if cs != [] {
      var c := cs[0];
      var path := above + [AssociationOf(c)];
      AllVisibleParts(OwnItems(c, path) + Items(c.children, path), Items(cs[1..], above), p);
      AllVisibleParts(OwnItems(c, path), Items(c.children, path), p);
      var ins, outs, feats := ReportItems(path, Input, c.inputs), ReportItems(path, Output, c.outputs),
        ReportItems(path, Feature, c.features);
      AllVisibleParts(ins + outs, feats, p);
      AllVisibleParts(ins, outs, p);
      PruneReportsNothing(path, Input, c.inputs, p);
      PruneReportsNothing(path, Output, c.outputs, p);
      PruneReportsNothing(path, Feature, c.features, p);
      PruneNothing(c.children, path, p);
      PruneNothing(cs[1..], above, p);
      PruneFirst(cs, p);
      assert Pruned(c, p) == c;
      assert [c] + cs[1..] == cs;
    }
  }

  lemma PruneTwice(cs: seq<Collection>, p: Policy, q: Policy)
    requires forall x :: x in Visible(Items(cs, []), p) ==> !Protected(q, x.Of())
    ensures Prune(Prune(cs, p), q) == Prune(cs, p)
  {
    hide Protected, Items, Prune, Visible;
    PruneKeepsVisible(cs, [], p);
    PruneLeavesNoneBare(cs, p);
    assert AllVisible(Items(Prune(cs, p), []), q);
    PruneNothing(Prune(cs, p), [], q);
  }

  lemma {:induction false} GatherVisible(items: seq<Item>, p: Policy, k: Key)
    requires !Protected(p, k)
    ensures Gather(Visible(items, p), k) == Gather(items, k)
    decreases |items|
  {
    hide Protected;
    if items != [] {
      GatherVisible(items[1..], p, k);
      GatherConcat(if Protected(p, items[0].Of()) then [] else [items[0]], Visible(items[1..], p), k);
      assert Gather([items[0]], k) == if items[0].Of() == k then items[0].path else [];
    }
  }

  // The map rebuilt from the pruned tree says the same of every report left in it.
  lemma RebuiltMapAgrees(cs: seq<Collection>, p: Policy, k: Key)
    requires p.associations == TreeMap(cs) && !Protected(p, k)
    ensures !Protected(p.(associations := TreeMap(Prune(cs, p))), k)
  {
    hide Items, Prune, Visible, Gather, IsReportBlocked, IsAlwaysProtected;
    PruneKeepsVisible(cs, [], p);
    GatherVisible(Items(cs, []), p, k);
    VisibleMeaning(Items(cs, []), p);
    var q := p.(associations := TreeMap(Prune(cs, p)));
    if k in q.associations {
      assert k in TreeMap(cs) && q.associations[k] == TreeMap(cs)[k];
      assert forall a :: Guards(q, a, k) == Guards(p, a, k);
    }
  }

  // Pruning again changes nothing, though the association map is rebuilt from the
  // pruned tree when there is no raw descriptor.
  lemma PruneDeviceIsIdempotent(info: DeviceInfo)
    requires PruneDeviceInfo(info).Some?
    ensures PruneDeviceInfo(PruneDeviceInfo(info).value) == PruneDeviceInfo(info)
  {
    hide Protected, Items, Prune, Visible, TreeMap, ParsedMap;
    var p := PolicyOf(info);
    var left := Prune(info.collections, p);
    var q := PolicyOf(info.(collections := left));
    VisibleMeaning(Items(info.collections, []), p);
    forall x | x in Visible(Items(info.collections, []), p) ensures !Protected(q, x.Of()) {
      if info.descriptor.None? {
        RebuiltMapAgrees(info.collections, p, x.Of());
        assert q == p.(associations := TreeMap(left));
      }
    }
    PruneTwice(info.collections, p, q);
  }

  // A device is hidden exactly when it has no unprotected report to show.
  lemma HiddenIffNothingVisible(info: DeviceInfo)
    ensures PruneDeviceInfo(info).None?
      <==> forall x :: x in Items(info.collections, []) ==> Protected(PolicyOf(info), x.Of())
  {
    hide Protected, Items, Prune, Visible, PolicyOf;
    var p := PolicyOf(info);
    var left := Prune(info.collections, p);
    PruneKeepsVisible(info.collections, [], p);
    VisibleMeaning(Items(info.collections, []), p);
    NoCollectionsNoItems(info.collections);
    PruneLeavesNoneBare(info.collections, p);
    NoCollectionsNoItems(left);
    if left != [] {
      PopulatedHasItems(left, []);
      assert Items(left, [])[0] in Visible(Items(info.collections, []), p);
    }
    PruneEmpty(p);
  }

  lemma NoCollectionsNoItems(cs: seq<Collection>)
    ensures cs == [] ==> Items(cs, []) == []
  {
  }

  lemma PruneEmpty(p: Policy)
    ensures Prune([], p) == []
  {
  }

  // ------------------------------------------------ page, reader and writer

  lemma BlockedIffProtected(p: Policy, id: Byte)
    ensures id in BlockedInputIds(p) <==> Protected(p, Key(id, Input))
  {
    hide Guards;
    assert Key(id, Input).id == id;
    if id in BlockedInputIds(p) {
      var k :| k in p.associations && k.dir == Input && Protected(p, k) && k.id == id;
      assert k == Key(id, Input);
    }
  }

  // A page sees an input report exactly when the reader would deliver it, and an
  // output or feature report exactly when the write path would take it, for every
  // report that the association map knows.
  lemma VisibleIffUsable(info: DeviceInfo, x: Item)
    requires x in Items(info.collections, []) && x.Of() in PolicyOf(info).associations
    ensures PruneDeviceInfo(info).Some? && x in Items(PruneDeviceInfo(info).value.collections, [])
      <==> !SendRefused(info, x.Of())
    ensures x.dir == Input ==> (ReaderDrops(info, x.report.id) <==> SendRefused(info, x.Of()))
  {
    hide Items, Prune, Visible, Guards, TreeMap, ParsedMap;
    var p := PolicyOf(info);
    PruneKeepsVisible(info.collections, [], p);
    VisibleMeaning(Items(info.collections, []), p);
    HiddenIffNothingVisible(info);
    NoCollectionsNoItems(info.collections);
    BlockedIffProtected(p, x.report.id);
    if x.dir == Input {
      assert x.Of() in p.associations && x.Of().dir == Input && x.Of().id == x.report.id;
    }
  }

  // The reader and the write path refuse the same input reports, known or not, except
  // that the reader of a protected interface without collections delivers nothing.
  lemma ReaderAgreesWithWritePath(info: DeviceInfo, id: Byte)
    ensures ReaderDrops(info, id) <==> SendRefused(info, Key(id, Input)) || InterfaceProtected(info, Input)
  {
    hide Protected, PolicyOf, AlwaysProtected, InterfaceProtected;
    var m := PolicyOf(info).associations;
    BlockedIffProtected(PolicyOf(info), id);
    ProtectedIsKnown(PolicyOf(info), Key(id, Input));
    DeclaredIffKnown(m, id);
  }

  lemma ProtectedIsKnown(p: Policy, k: Key)
    ensures Protected(p, k) ==> k in p.associations
  {
  }

  lemma DeclaredIffKnown(m: ReportMap, id: Byte)
    ensures id in Declared(m) <==> Key(id, Input) in m
  {
    assert Key(id, Input).id == id;
    if id in Declared(m) {
      var k :| k in m && k.dir == Input && k.id == id;
      assert k == Key(id, Input);
    }
  }

  // The map of the tree knows every report of the tree.
  lemma TreeMapKnows(cs: seq<Collection>, x: Item)
    requires x in Items(cs, [])
    ensures x.Of() in TreeMap(cs)
    ensures forall a :: a in x.path ==> a in TreeMap(cs)[x.Of()]
  {
    hide Items, Gather;
    forall a | a in x.path ensures a in Gather(Items(cs, []), x.Of()) {
      GatherMeaning(Items(cs, []), x.Of(), a);
    }
  }

  lemma {:induction false} PathsAreLong(cs: seq<Collection>, above: seq<Association>)
    ensures forall x :: x in Items(cs, above) ==> x.path != []
    decreases cs
  {
    if cs != [] {
      var path := above + [AssociationOf(cs[0])];
      PathsAreLong(cs[0].children, path);
      PathsAreLong(cs[1..], above);
    }
  }

  // The association map has some collection for this report.
  predicate Associated(m: ReportMap, k: Key) {
    k in m && m[k] != []
  }

  // Pruning hides a device that the blocklist names as a whole exactly when the
  // association map has a collection for each of its reports; the map of the tree
  // always has, the one of a raw descriptor may know less than the tree shows.
  lemma BlockedDeviceIsHidden(info: DeviceInfo)
    requires DeviceIsBlocked(info.vendor, info.product)
    ensures PruneDeviceInfo(info).None?
      <==> forall x :: x in Items(info.collections, []) ==> Associated(PolicyOf(info).associations, x.Of())
    ensures info.descriptor.None? ==> PruneDeviceInfo(info).None?
  {
    hide Items, DeviceIsBlocked, TreeMap, IsReportBlocked, IsAlwaysProtected, ParsedMap, PruneDeviceInfo;
    var p := PolicyOf(info);
    HiddenIffNothingVisible(info);
    forall x | x in Items(info.collections, []) ensures Protected(p, x.Of()) <==> Associated(p.associations, x.Of()) {
      if Associated(p.associations, x.Of()) {
        var a := p.associations[x.Of()][0];
        BlockedDeviceBlocksReports(info.vendor, info.product, a.page, a.usage, x.report.id, x.dir);
        assert Guards(p, a, x.Of());
      }
    }
    if info.descriptor.None? {
      forall x | x in Items(info.collections, []) ensures Associated(p.associations, x.Of()) {
        TreeMapKnows(info.collections, x);
        PathsAreLong(info.collections, []);
        assert x.path[0] in p.associations[x.Of()];
      }
    }
  }

  // A report the map does not know, one of constant fields only, is always shown; it
  // is refused at run time exactly when a top-level collection is always protected.
  lemma UnknownReportIsShown(info: DeviceInfo, x: Item)
    requires x in Items(info.collections, []) && x.Of() !in PolicyOf(info).associations
    ensures PruneDeviceInfo(info).Some? && x in Items(PruneDeviceInfo(info).value.collections, [])
    ensures SendRefused(info, x.Of()) <==> AlwaysProtected(info, x.dir)
    ensures info.descriptor.Some?
  {
    hide Items, Prune, Visible, Guards, ParsedMap, AlwaysProtected;
    var p := PolicyOf(info);
    PruneKeepsVisible(info.collections, [], p);
    VisibleMeaning(Items(info.collections, []), p);
    HiddenIffNothingVisible(info);
    NoCollectionsNoItems(info.collections);
    TreeMapKnows(info.collections, x);
  }
}
