// `CollectionTreeBuilder` as it works: a map of nodes and a list of roots changed in
// place, and buckets filled while the fields are walked.
module TreeBuilder {
  import opened Common
  import opened Hid
  import opened Fields
  import opened FieldsConversion
  import opened Tree
  import opened TreeProofs

  lemma {:induction false} BuildLast(b: Builder, ids: seq<ColId>, id: ColId, low: nat)
    requires Ordered(b) && Above(b, ids, low) && Above(b, [id], low)
    ensures Above(b, ids + [id], low)
    ensures BuildNodes(b, ids + [id], low) == BuildNodes(b, ids, low) + BuildNodes(b, [id], low)
    decreases |ids|
  {
    hide Ordered;
    if ids == [] {
      assert ids + [id] == [id];
    } else {
      assert (ids + [id])[1..] == ids[1..] + [id];
      BuildLast(b, ids[1..], id, low);
    }
  }

  lemma {:induction false} BuildLowIrrelevant(b: Builder, ids: seq<ColId>, low: nat, other: nat)
    requires Ordered(b) && Above(b, ids, low) && Above(b, ids, other)
    ensures BuildNodes(b, ids, low) == BuildNodes(b, ids, other)
    decreases |ids|
  {
    if ids != [] {
      BuildLowIrrelevant(b, ids[1..], low, other);
    }
  }

  // The buckets hold, key by key, the fields seen so far.
  ghost predicate BucketsOk(fs: seq<HidField>, n: nat, keys: seq<ColId>, buckets: seq<seq<HidField>>,
      index: map<ColId, nat>)
    requires n <= |fs|
  {
    && |keys| == |buckets|
    && (forall k :: 0 <= k < |keys| ==> buckets[k] == Bucket(fs, n, keys[k]) && buckets[k] != [])
    && (forall k :: 0 <= k < |keys| ==> keys[k] in index && index[keys[k]] == k)
    && (forall id :: id in index <==> Bucket(fs, n, id) != [])
    && (forall id :: id in index ==> index[id] < |keys| && keys[index[id]] == id)
  }

  // The nodes once the first n buckets have been handed out.
  function SharedNodes(nodes: map<ColId, ColNode>, r: ParsedReport, dir: Direction, served: seq<ColId>)
    : map<ColId, ColNode>
  {
    map id | id in nodes :: if id in served then WithShare(nodes[id], dir, Share(r, id)) else nodes[id]
  }

  lemma AllServed(b: Builder, r: ParsedReport, dir: Direction, keys: seq<ColId>)
    requires forall id :: id in keys <==> Bucket(r.fields, |r.fields|, id) != []
    ensures SharedNodes(b.nodes, r, dir, keys) == map id | id in b.nodes :: WithShare(b.nodes[id], dir, Share(r, id))
  {
    hide Aggregate, Bucket;
  }

  lemma NoneServed(nodes: map<ColId, ColNode>, r: ParsedReport, dir: Direction)
    ensures SharedNodes(nodes, r, dir, []) == nodes
  {
  }

  // Handing out the next bucket adds one report to its collection.
  lemma ServeNext(nodes: map<ColId, ColNode>, r: ParsedReport, dir: Direction, keys: seq<ColId>, k: nat,
      bucket: seq<HidField>)
    requires k < |keys| && bucket == Bucket(r.fields, |r.fields|, keys[k]) && bucket != []
    requires forall j :: 0 <= j < k ==> keys[j] != keys[k]
    ensures var before := SharedNodes(nodes, r, dir, keys[..k]);
      SharedNodes(nodes, r, dir, keys[..k + 1]) ==
        if keys[k] in before
        then before[keys[k] := before[keys[k]].Add(dir, Report(r.id, Aggregate(bucket)))]
        else before
  {
    hide Aggregate, Bucket;
    ItemsExist(bucket);
    assert Share(r, keys[k]) == [Report(r.id, Aggregate(bucket))];
    assert keys[..k + 1] == keys[..k] + [keys[k]];
    hide Share;
  }

  class CollectionTreeBuilder {
    var nodes: map<ColId, ColNode>
    var rootIds: seq<ColId>
    ghost var rank: map<ColId, nat>

    ghost function View(): Builder
      reads this
    {
      Builder(nodes, rootIds, rank)
    }

    constructor ()
      ensures View() == EMPTY_BUILDER
    {
      nodes, rootIds, rank := map[], [], map[];
    }

    method EnsureChain(chain: seq<HidCollection>)
      modifies this
      ensures View() == Tree.EnsureChain(old(View()), chain)
    {
      var i := 0;
      while i < |chain|
        invariant 0 <= i <= |chain|
        invariant EnsureFrom(View(), chain, i) == EnsureFrom(old(View()), chain, 0)
      {
        EnsureOne(chain, i);
        i := i + 1;
      }
    }

    // One turn of the loop.
    method EnsureOne(chain: seq<HidCollection>, i: nat)
      requires i < |chain|
      modifies this
      ensures View() == EnsureAt(old(View()), chain, i)
    {
      var id := chain[i].id;
      if id !in nodes {
        rank := rank[id := |nodes|];
        if i == 0 {
          rootIds := rootIds + [id];
        }
        if i > 0 {
          var parent := chain[i - 1].id;
          if parent in nodes && id !in nodes[parent].children {
            nodes := nodes[parent := nodes[parent].(children := nodes[parent].children + [id])];
          }
        }
        nodes := nodes[id := NewNode(chain[i])];
      }
    }

    method AddReport(r: ParsedReport, dir: Direction)
      modifies this
      ensures View() == Tree.AddReport(old(View()), r, dir)
    {
      hide Aggregate, Resolved, EnsureFrom, Bucket, LandsIn, SharedNodes, Share, WithShare;
      var fs := r.fields;
      var keys: seq<ColId>, buckets: seq<seq<HidField>> := CollectBuckets(fs);
      ghost var b := View();
      NoneServed(b.nodes, r, dir);
      for k := 0 to |buckets|
        invariant rootIds == b.roots && rank == b.rank
        invariant nodes == SharedNodes(b.nodes, r, dir, keys[..k])
      {
        var items, _ := ConvertFieldsAggregate(buckets[k]);
        ServeNext(b.nodes, r, dir, keys, k, buckets[k]);
        if keys[k] in nodes {
          nodes := nodes[keys[k] := nodes[keys[k]].Add(dir, Report(r.id, items))];
        }
      }
      assert keys[..|keys|] == keys;
      AllServed(b, r, dir, keys);
    }

    // Makes the nodes of every field's chain and sorts the fields into buckets.
    method CollectBuckets(fs: seq<HidField>) returns (keys: seq<ColId>, buckets: seq<seq<HidField>>)
      modifies this
      ensures View() == EnsureFields(old(View()), fs, |fs|)
      ensures |keys| == |buckets|
      ensures forall k :: 0 <= k < |keys| ==> buckets[k] == Bucket(fs, |fs|, keys[k]) && buckets[k] != []
      ensures forall id :: id in keys <==> Bucket(fs, |fs|, id) != []
      ensures forall k, l :: 0 <= k < l < |keys| ==> keys[k] != keys[l]
    {
      hide Resolved, EnsureFrom, Bucket;
      keys, buckets := [], [];
      NoBuckets(fs);
      var index: map<ColId, nat> := map[];
      for n := 0 to |fs|
        invariant View() == EnsureFields(old(View()), fs, n)
        invariant BucketsOk(fs, n, keys, buckets, index)
      {
        var chain := ResolveChain(fs, n);
        EnsureChain(chain);
        if chain != [] {
          var key := chain[|chain| - 1].id;
          BucketsGrow(fs, n, keys, buckets, index, key);
          if key !in index {
            index := index[key := |buckets|];
            keys := keys + [key];
            buckets := buckets + [[]];
          }
          var slot := index[key];
          assert buckets[slot] + [fs[n]] == [fs[n]] || buckets[slot] != [];
          buckets := buckets[slot := buckets[slot] + [fs[n]]];
        } else {
          BucketsStay(fs, n, keys, buckets, index);
        }
      }
    }

    method BuildNode(id: ColId) returns (c: Option<Collection>)
      requires Ordered(View())
      ensures id !in nodes ==> c == None
      ensures id in nodes ==> Above(View(), [id], 0) && c.Some? && [c.value] == BuildNodes(View(), [id], 0)
      decreases if id in rank && rank[id] < |nodes| then |nodes| - rank[id] else 0
    {
      if id !in nodes {
        return None;
      }
      var n := nodes[id];
      ghost var b := View();
      ghost var low := rank[id] + 1;
      assert Above(b, n.children, low) && rank[id] < |nodes|;
      hide Ordered;
      var children := [];
      for i := 0 to |n.children|
        invariant children == BuildNodes(b, n.children[..i], low)
      {
        var child := BuildNode(n.children[i]);
        BuildLowIrrelevant(b, [n.children[i]], 0, low);
        BuildLast(b, n.children[..i], n.children[i], low);
        assert n.children[..i + 1] == n.children[..i] + [n.children[i]];
        if child.Some? {
          children := children + [child.value];
        }
      }
      assert n.children[..|n.children|] == n.children;
      assert Above(b, [id], 0);
      c := Some(Collection(n.kind, n.usagePage, n.usage, children, n.inputs, n.outputs, n.features));
      assert [id][1..] == [];
    }

    method Build() returns (forest: seq<Collection>)
      requires Ordered(View())
      ensures forest == Tree.Build(View())
    {
      ghost var b := View();
      forest := [];
      for i := 0 to |rootIds|
        invariant |forest| == i
        invariant Above(b, rootIds[..i], 0) && forest == BuildNodes(b, rootIds[..i], 0)
      {
        var root := BuildNode(rootIds[i]);
        BuildLast(b, rootIds[..i], rootIds[i], 0);
        assert rootIds[..i + 1] == rootIds[..i] + [rootIds[i]];
        if root.Some? {
          forest := forest + [root.value];
        }
      }
      assert rootIds[..|rootIds|] == rootIds;
      if forest == [] {
        forest := [BARE_COLLECTION];
      }
    }
  }

  // The field's own chain, or the nearest one before it, or the nearest one after.
  method ResolveChain(fs: seq<HidField>, i: nat) returns (chain: seq<HidCollection>)
    requires i < |fs|
    ensures chain == Resolved(fs, i)
    ensures forall k :: 0 <= k < |fs| && Lends(fs, i, k) ==> chain == fs[k].chain
    ensures chain == [] <==> forall k :: 0 <= k < |fs| ==> fs[k].chain == []
  {
    BorrowsNearest(fs, i);
    if fs[i].chain != [] {
      return fs[i].chain;
    }
    chain := [];
    var k := i;
    while k > 0 && chain == []
      invariant 0 <= k <= i
      invariant if chain == [] then Earlier(fs, i) == Earlier(fs, k) else Earlier(fs, i) == chain
    {
      k := k - 1;
      chain := fs[k].chain;
    }
    k := i + 1;
    ghost var earlier := chain;
    while k < |fs| && chain == []
      invariant i + 1 <= k <= |fs| && (earlier != [] ==> chain == earlier)
      invariant earlier == [] ==> if chain == [] then Later(fs, i + 1) == Later(fs, k) else Later(fs, i + 1) == chain
    {
      chain := fs[k].chain;
      k := k + 1;
    }
  }

  lemma ItemsExist(bucket: seq<HidField>)
    requires bucket != []
    ensures Aggregate(bucket) != []
  {
  }

  lemma NoBuckets(fs: seq<HidField>)
    ensures BucketsOk(fs, 0, [], [], map[])
  {
  }

  lemma BucketsStay(fs: seq<HidField>, n: nat, keys: seq<ColId>, buckets: seq<seq<HidField>>, index: map<ColId, nat>)
    requires n < |fs| && Resolved(fs, n) == [] && BucketsOk(fs, n, keys, buckets, index)
    ensures BucketsOk(fs, n + 1, keys, buckets, index)
  {
    hide Resolved;
    assert forall id :: Bucket(fs, n + 1, id) == Bucket(fs, n, id);
  }

  // The next field joins the bucket of its innermost collection, a new one if need be.
  lemma BucketsGrow(
      fs: seq<HidField>, n: nat, keys: seq<ColId>, buckets: seq<seq<HidField>>, index: map<ColId, nat>, key: ColId)
    requires n < |fs| && LandsIn(fs, n, key) && BucketsOk(fs, n, keys, buckets, index)
    ensures |keys| == |buckets| && (key in index ==> index[key] < |buckets|)
    ensures key in index ==>
      BucketsOk(fs, n + 1, keys, buckets[index[key] := buckets[index[key]] + [fs[n]]], index)
    ensures key !in index ==>
      BucketsOk(fs, n + 1, keys + [key], buckets + [[fs[n]]], index[key := |keys|])
  {
    if key in index {
      OldBucket(fs, n, keys, buckets, index, key);
    } else {
      NewBucket(fs, n, keys, buckets, index, key);
    }
  }

  lemma OldBucket(
      fs: seq<HidField>, n: nat, keys: seq<ColId>, buckets: seq<seq<HidField>>, index: map<ColId, nat>, key: ColId)
    requires n < |fs| && LandsIn(fs, n, key) && BucketsOk(fs, n, keys, buckets, index) && key in index
    ensures BucketsOk(fs, n + 1, keys, buckets[index[key] := buckets[index[key]] + [fs[n]]], index)
  {
    NextBuckets(fs, n, key);
    hide LandsIn, Bucket;
  }

  lemma NewBucket(
      fs: seq<HidField>, n: nat, keys: seq<ColId>, buckets: seq<seq<HidField>>, index: map<ColId, nat>, key: ColId)
    requires n < |fs| && LandsIn(fs, n, key) && BucketsOk(fs, n, keys, buckets, index) && key !in index
    ensures BucketsOk(fs, n + 1, keys + [key], buckets + [[fs[n]]], index[key := |keys|])
  {
    NextBuckets(fs, n, key);
    hide LandsIn, Bucket;
    assert Bucket(fs, n, key) == [];
  }

  lemma NextBuckets(fs: seq<HidField>, n: nat, key: ColId)
    requires n < |fs| && LandsIn(fs, n, key)
    ensures Bucket(fs, n + 1, key) == Bucket(fs, n, key) + [fs[n]]
    ensures forall id :: id != key ==> Bucket(fs, n + 1, id) == Bucket(fs, n, id)
  {
    hide Resolved;
  }

  // A whole descriptor, built as the daemon builds it.
  method ParseReportDescriptor(d: Descriptor) returns (forest: seq<Collection>)
    ensures Ordered(FromDescriptor(d)) && forest == Tree.Build(FromDescriptor(d))
  {
    hide Ordered, Tree.AddReport;
    var tree := new CollectionTreeBuilder();
    AddAll(tree, d.inputs, Input);
    AddAll(tree, d.outputs, Output);
    AddAll(tree, d.features, Feature);
    DescriptorPlaced(d);
    forest := tree.Build();
  }

  method AddAll(tree: CollectionTreeBuilder, rs: seq<ParsedReport>, dir: Direction)
    modifies tree
    ensures tree.View() == AddReports(old(tree.View()), rs, |rs|, dir)
  {
    hide Tree.AddReport;
    for n := 0 to |rs|
      invariant tree.View() == AddReports(old(tree.View()), rs, n, dir)
    {
      tree.AddReport(rs[n], dir);
    }
  }
}
