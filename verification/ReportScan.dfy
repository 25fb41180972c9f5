// The loops that fill the association maps and the set of blocked input ids.
module ReportScan {
  import opened Common
  import opened Hid
  import opened Fields
  import opened Tree
  import opened Blocklist
  import opened ReportBlocking
  import opened BlockingProofs

  function InsertAll(m: ReportMap, items: seq<Item>): ReportMap
    decreases |items|
  {
    if items == [] then m
    else InsertAll(m[items[0].Of() := Entry(m, items[0].Of()) + items[0].path], items[1..])
  }

  lemma {:induction false} InsertAllMeaning(m: ReportMap, items: seq<Item>)
    ensures forall k :: k in InsertAll(m, items) <==> k in m || exists x :: x in items && x.Of() == k
    ensures forall k :: Entry(InsertAll(m, items), k) == Entry(m, k) + Gather(items, k)
    decreases |items|
  {
    if items != [] {
      var next := m[items[0].Of() := Entry(m, items[0].Of()) + items[0].path];
      InsertAllMeaning(next, items[1..]);
      assert forall k :: Entry(next, k) == Entry(m, k) + if items[0].Of() == k then items[0].path else [];
    }
  }

  lemma InsertAllIsMap(items: seq<Item>)
    ensures InsertAll(map[], items) == MapOf(items)
  {
    InsertAllMeaning(map[], items);
    var z, q := InsertAll(map[], items), MapOf(items);
    forall k | k in z ensures k in q && z[k] == q[k] {
      assert Entry(z, k) == [] + Gather(items, k);
    }
  }

  lemma {:induction false} InsertAllConcat(m: ReportMap, s: seq<Item>, t: seq<Item>)
    ensures InsertAll(m, s + t) == InsertAll(InsertAll(m, s), t)
    decreases |s|
  {
    if s == [] {
      assert s + t == t;
    } else {
      assert (s + t)[1..] == s[1..] + t;
      InsertAllConcat(m[s[0].Of() := Entry(m, s[0].Of()) + s[0].path], s[1..], t);
    }
  }

  lemma {:induction false} ItemsLast(cs: seq<Collection>, c: Collection, above: seq<Association>)
    ensures Items(cs + [c], above) == Items(cs, above) + Items([c], above)
    decreases |cs|
  {
    hide OwnItems;
    if cs == [] {
      assert cs + [c] == [c];
    } else {
      assert (cs + [c])[1..] == cs[1..] + [c];
      ItemsLast(cs[1..], c, above);
    }
  }

  class ReportCollectionMap {
    var entries: ReportMap

    constructor ()
      ensures entries == map[]
    {
      entries := map[];
    }

    method Extend(k: Key, path: seq<Association>)
      modifies this
      ensures entries == old(entries)[k := Entry(old(entries), k) + path]
    {
      if k !in entries {
        entries := entries[k := []];
      }
      entries := entries[k := entries[k] + path];
    }

    method ExtendReports(path: seq<Association>, dir: Direction, rs: seq<Report>)
      modifies this
      ensures entries == InsertAll(old(entries), ReportItems(path, dir, rs))
    {
      ghost var items := ReportItems(path, dir, rs);
      for i := 0 to |rs|
        invariant InsertAll(old(entries), items) == InsertAll(entries, items[i..])
      {
        Extend(Key(rs[i].id, dir), path);
        assert items[i..][1..] == items[i + 1..];
      }
    }

    // One collection of the tree and all below it.
    method Walk(c: Collection, above: seq<Association>)
      modifies this
      ensures entries == InsertAll(old(entries), Items([c], above))
      decreases c
    {
      hide InsertAll, Items, ReportItems;
      var path := above + [AssociationOf(c)];
      ghost var own := OwnItems(c, path);
      ExtendReports(path, Input, c.inputs);
      ExtendReports(path, Output, c.outputs);
      ExtendReports(path, Feature, c.features);
      InsertAllConcat(old(entries), ReportItems(path, Input, c.inputs) + ReportItems(path, Output, c.outputs),
                      ReportItems(path, Feature, c.features));
      InsertAllConcat(old(entries), ReportItems(path, Input, c.inputs), ReportItems(path, Output, c.outputs));
      ghost var m := entries;
      NoItems(m, path);
      for i := 0 to |c.children|
        invariant entries == InsertAll(m, Items(c.children[..i], path))
      {
        Walk(c.children[i], path);
        ItemsLast(c.children[..i], c.children[i], path);
        InsertAllConcat(m, Items(c.children[..i], path), Items([c.children[i]], path));
        assert c.children[..i + 1] == c.children[..i] + [c.children[i]];
      }
      assert c.children[..|c.children|] == c.children;
      WalkedItems(c, above);
      InsertAllConcat(old(entries), own, Items(c.children, path));
    }
  }

  lemma NoItems(m: ReportMap, above: seq<Association>)
    ensures InsertAll(m, Items([], above)) == m
  {
  }

  lemma WalkedItems(c: Collection, above: seq<Association>)
    ensures var path := above + [AssociationOf(c)]; Items([c], above) == OwnItems(c, path) + Items(c.children, path)
  {
    ItemsFirst(c, [], above);
    assert [c] + [] == [c];
    assert Items([], above) == [];
  }

  method MapFromCollectionTree(cs: seq<Collection>) returns (m: ReportMap)
    ensures m == TreeMap(cs)
  {
    hide InsertAll, Items;
    var collected := new ReportCollectionMap();
    NoItems(map[], []);
    for i := 0 to |cs|
      invariant collected.entries == InsertAll(map[], Items(cs[..i], []))
    {
      collected.Walk(cs[i], []);
      ItemsLast(cs[..i], cs[i], []);
      InsertAllConcat(map[], Items(cs[..i], []), Items([cs[i]], []));
      assert cs[..i + 1] == cs[..i] + [cs[i]];
    }
    assert cs[..|cs|] == cs;
    InsertAllIsMap(Items(cs, []));
    m := collected.entries;
  }

  // ---------------------------------------------- the parsed descriptor

  method MapFromParsedDescriptor(d: Descriptor) returns (m: ReportMap)
    ensures m == ParsedMap(d)
  {
    hide AddParsed;
    m := AddParsedReports(map[], d.inputs, Input);
    m := AddParsedReports(m, d.outputs, Output);
    m := AddParsedReports(m, d.features, Feature);
  }

  method AddParsedReports(start: ReportMap, rs: seq<ParsedReport>, dir: Direction) returns (m: ReportMap)
    ensures m == AddParsed(start, rs, |rs|, dir)
  {
    hide AssociationsIn, Distinct;
    m := start;
    for n := 0 to |rs|
      invariant m == AddParsed(start, rs, n, dir)
    {
      var key := Key(rs[n].id, dir);
      var fs := rs[n].fields;
      ghost var before := m;
      for i := 0 to |fs|
        invariant m == AddFields(before, key, fs, i)
      {
        if !fs[i].Constant? {
          var list := AddDistinct(Entry(m, key), fs[i].chain);
          m := m[key := list];
        }
      }
    }
  }

  // Appends each association that is not in the list yet.
  method AddDistinct(known: seq<Association>, chain: seq<HidCollection>) returns (list: seq<Association>)
    ensures list == Distinct(known, AssociationsIn(chain))
  {
    hide AssociationIn;
    ghost var more := AssociationsIn(chain);
    list := known;
    for j := 0 to |chain|
      invariant Distinct(known, more) == Distinct(list, more[j..])
    {
      var a := AssociationIn(chain[j]);
      assert more[j..][0] == a && more[j..][1..] == more[j + 1..];
      if a !in list {
        list := list + [a];
      }
    }
  }

  // -------------------------------------------------------- the reader's set

  method ComputeBlockedInputIds(p: Policy) returns (ids: set<Byte>)
    ensures forall id :: id in ids <==> Protected(p, Key(id, Input))
  {
    hide Guards;
    ids := {};
    var rest := p.associations.Keys;
    while rest != {}
      invariant rest <= p.associations.Keys
      invariant forall id :: id in ids <==> Key(id, Input) !in rest && Protected(p, Key(id, Input))
      decreases |rest|
    {
      var k :| k in rest;
      if k.dir == Input && Protected(p, k) {
        ids := ids + {k.id};
      }
      rest := rest - {k};
    }
  }
}
