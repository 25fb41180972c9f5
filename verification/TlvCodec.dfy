// The encoder and the decoders as they run: bytes appended to a buffer, a cursor
// advanced over the data.  Each method is proved to do what `Tlv` says.
module TlvCodec {
  import opened Common
  import opened Hid
  import opened Tlv
  import opened TlvProofs

  // ------------------------------------------------------------- encoder

  class Buffer {
    var bytes: seq<Byte>

    constructor ()
      ensures bytes == []
    {
      bytes := [];
    }

    method Push(b: Byte)
      modifies this
      ensures bytes == old(bytes) + [b]
    {
      bytes := bytes + [b];
    }

    method Extend(s: seq<Byte>)
      modifies this
      ensures bytes == old(bytes) + s
    {
      bytes := bytes + s;
    }

    method WriteVarint(n: U32)
      modifies this
      ensures bytes == old(bytes) + EncVarint(n)
    {
      var value: nat := n;
      while value >= 0x80
        invariant bytes + EncVarint(value) == old(bytes) + EncVarint(n)
      {
        Push(value % 0x80 + 0x80);
        value := value / 0x80;
      }
      Push(value);
    }

    method WriteNode(tag: Byte, value: seq<Byte>)
      modifies this
      ensures bytes == old(bytes) + EncNode(tag, value)
    {
      Push(tag);
      WriteVarint(AsU32(|value|));
      Extend(value);
    }

    method EncodeField(f: Field)
      modifies this
      ensures bytes == old(bytes) + EncNode(TAG_FIELD, FieldValue(f))
    {
      hide Le, EncVarint, EncAttributes, EncUsages, EncStrings, PackBits, FieldBits, EncNode;
      var value := new Buffer();
      var flags := EncodeFieldFlags(f);
      value.Extend(Le(flags, 2));
      value.WriteVarint(f.reportSize);
      value.WriteVarint(f.reportCount);
      value.WriteAttributes(f.attributes);
      value.EncodeFieldUsages(f);
      value.EncodeFieldStrings(f.strings);
      assert value.bytes == FieldValue(f);
      WriteNode(TAG_FIELD, value.bytes);
    }

    method WriteAttributes(a: Attributes)
      modifies this
      ensures bytes == old(bytes) + EncAttributes(a)
    {
      hide Le, ToU32, EncUnit;
      Extend(Le(ToU32(a.logicalMinimum), 4));
      Extend(Le(ToU32(a.logicalMaximum), 4));
      Extend(Le(ToU32(a.physicalMinimum), 4));
      Extend(Le(ToU32(a.physicalMaximum), 4));
      WriteUnit(a.unit);
    }

    method WriteUnit(u: Unit)
      modifies this
      ensures bytes == old(bytes) + EncUnit(u)
    {
      hide ToU8, UnitTagFrom;
      var tag := UnitSystemToTag(u.system);
      Push(ToU8(u.exponent));
      Push(tag);
      Push(ToU8(u.length));
      Push(ToU8(u.mass));
      Push(ToU8(u.time));
      Push(ToU8(u.temperature));
      Push(ToU8(u.current));
      Push(ToU8(u.luminosity));
    }

    method EncodeFieldUsages(f: Field)
      modifies this
      ensures bytes == old(bytes) + EncUsages(f)
    {
      hide Le, EncVarint, EncU32s;
      EmptyEncodings();
      if f.isRange {
        Extend(Le(f.usageMinimum.GetOr(0), 4));
        Extend(Le(f.usageMaximum.GetOr(0), 4));
      } else if f.usages.Some? {
        var us := f.usages.value;
        WriteVarint(AsU32(|us|));
        ghost var start := bytes;
        for i := 0 to |us|
          invariant bytes == start + EncU32s(us[..i])
        {
          Extend(Le(us[i], 4));
          U32sAppend(us[..i], us[i]);
          assert us[..i + 1] == us[..i] + [us[i]];
        }
        assert us[..|us|] == us;
      } else {
        WriteVarint(0);
      }
    }

    method EncodeFieldStrings(ss: seq<seq<Byte>>)
      modifies this
      ensures bytes == old(bytes) + EncStrings(ss)
    {
      hide EncVarint, AsU32;
      WriteVarint(AsU32(|ss|));
      ghost var start := bytes;
      for i := 0 to |ss|
        invariant bytes == start + EncStringList(ss[..i])
      {
        WriteVarint(AsU32(|ss[i]|));
        Extend(ss[i]);
        StringListAppend(ss[..i], ss[i]);
        assert ss[..i + 1] == ss[..i] + [ss[i]];
      }
      assert ss[..|ss|] == ss;
    }

    method EncodeReport(tag: Byte, r: Report)
      modifies this
      ensures bytes == old(bytes) + EncNode(tag, ReportValue(r))
    {
      hide EncNode, EncFields, FieldValue;
      EmptyEncodings();
      var value := new Buffer();
      value.Push(r.id);
      for i := 0 to |r.items|
        invariant value.bytes == [r.id] + EncFields(r.items[..i])
        invariant bytes == old(bytes)
      {
        value.EncodeField(r.items[i]);
        FieldsAppend(r.items[..i], r.items[i]);
        assert r.items[..i + 1] == r.items[..i] + [r.items[i]];
      }
      assert r.items[..|r.items|] == r.items;
      WriteNode(tag, value.bytes);
    }

    method EncodeReports(tag: Byte, rs: seq<Report>)
      modifies this
      ensures bytes == old(bytes) + EncReports(tag, rs)
    {
      hide EncNode, EncReports, ReportValue;
      EmptyEncodings();
      for i := 0 to |rs|
        invariant bytes == old(bytes) + EncReports(tag, rs[..i])
      {
        EncodeReport(tag, rs[i]);
        ReportsAppend(tag, rs[..i], rs[i]);
        assert rs[..i + 1] == rs[..i] + [rs[i]];
      }
      assert rs[..|rs|] == rs;
    }

    method EncodeCollection(c: Collection)
      modifies this
      ensures bytes == old(bytes) + EncNode(TAG_COLLECTION, CollectionValue(c))
      decreases c, 0
    {
      hide EncNode, EncCollections, EncReports, Le;
      var value := new Buffer();
      var presence: Byte := 0;
      if c.usagePage.Some? {
        presence := presence + 1;
      }
      if c.usage.Some? {
        presence := presence + 2;
      }
      value.Push(presence);
      if c.usagePage.Some? {
        value.Extend(Le(c.usagePage.value, 2));
      }
      if c.usage.Some? {
        value.Extend(Le(c.usage.value, 2));
      }
      value.Push(c.kind);
      assert value.bytes == CollectionHead(c);
      value.EncodeAll(c.children);
      value.EncodeReports(TAG_INPUT_REPORT, c.inputs);
      value.EncodeReports(TAG_OUTPUT_REPORT, c.outputs);
      value.EncodeReports(TAG_FEATURE_REPORT, c.features);
      assert value.bytes == CollectionValue(c);
      WriteNode(TAG_COLLECTION, value.bytes);
    }

    // The loop of `serialize` over the roots, and of a collection over its children.
    method EncodeAll(cs: seq<Collection>)
      modifies this
      ensures bytes == old(bytes) + EncCollections(cs)
      decreases cs, 1
    {
      hide EncNode, EncCollections, CollectionValue;
      EmptyEncodings();
      for i := 0 to |cs|
        invariant bytes == old(bytes) + EncCollections(cs[..i])
      {
        EncodeCollection(cs[i]);
        CollectionsAppend(cs[..i], cs[i]);
        assert cs[..i + 1] == cs[..i] + [cs[i]];
      }
      assert cs[..|cs|] == cs;
    }
  }

  method EncodeFieldFlags(f: Field) returns (flags: U16)
    ensures flags == PackBits(FieldBits(f))
  {
    var bits := FieldBits(f);
    var sum := 0;
    var weight := 1;
    for i := 0 to |bits|
      invariant sum == PackBits(bits[..i]) && weight == Power2(i)
    {
      PackAppend(bits[..i], bits[i]);
      assert bits[..i + 1] == bits[..i] + [bits[i]];
      if bits[i] {
        sum := sum + weight;
      }
      weight := 2 * weight;
    }
    assert bits[..|bits|] == bits;
    BitsRoundTrip(bits);
    assert Power2(10) == 1024 by {
      assert Power2(5) == 32;
    }
    flags := sum;
  }

  method UnitSystemToTag(system: string) returns (tag: Byte)
    ensures tag == UnitTagFrom(system, 0)
  {
    for i := 0 to |UNIT_SYSTEMS|
      invariant UnitTagFrom(system, 0) == UnitTagFrom(system, i)
    {
      if UNIT_SYSTEMS[i] == system {
        return i;
      }
    }
    tag := 6;
  }

  lemma EmptyEncodings()
    ensures EncFields([]) == [] && EncCollections([]) == [] && EncU32s([]) == []
    ensures forall tag :: EncReports(tag, []) == []
    ensures AsU32(0) == 0
  {
  }

  lemma {:induction false} PackAppend(bits: seq<bool>, b: bool)
    ensures PackBits(bits + [b]) == PackBits(bits) + if b then Power2(|bits|) else 0
  {
    if bits == [] {
      assert [b][1..] == [];
    } else {
      assert (bits + [b])[1..] == bits[1..] + [b];
      PackAppend(bits[1..], b);
    }
  }

  lemma {:induction false} U32sAppend(us: seq<U32>, u: U32)
    ensures EncU32s(us + [u]) == EncU32s(us) + Le(u, 4)
    decreases |us|
  {
    hide Le;
    if us == [] {
      assert [u][1..] == [];
    } else {
      assert (us + [u])[1..] == us[1..] + [u];
      U32sAppend(us[1..], u);
    }
  }

  lemma {:induction false} StringListAppend(ss: seq<seq<Byte>>, s: seq<Byte>)
    ensures EncStringList(ss + [s]) == EncStringList(ss) + EncVarint(AsU32(|s|)) + s
    decreases |ss|
  {
    hide EncVarint, AsU32;
    if ss == [] {
      assert [s][1..] == [];
    } else {
      assert (ss + [s])[1..] == ss[1..] + [s];
      StringListAppend(ss[1..], s);
    }
  }

  lemma {:induction false} FieldsAppend(fs: seq<Field>, f: Field)
    ensures EncFields(fs + [f]) == EncFields(fs) + EncNode(TAG_FIELD, FieldValue(f))
    decreases |fs|
  {
    hide EncNode, FieldValue;
    if fs == [] {
      assert [f][1..] == [];
    } else {
      assert (fs + [f])[1..] == fs[1..] + [f];
      FieldsAppend(fs[1..], f);
    }
  }

  lemma {:induction false} ReportsAppend(tag: Byte, rs: seq<Report>, r: Report)
    ensures EncReports(tag, rs + [r]) == EncReports(tag, rs) + EncNode(tag, ReportValue(r))
    decreases |rs|
  {
    hide EncNode, ReportValue;
    if rs == [] {
      assert [r][1..] == [];
    } else {
      assert (rs + [r])[1..] == rs[1..] + [r];
      ReportsAppend(tag, rs[1..], r);
    }
  }

  lemma {:induction false} CollectionsAppend(cs: seq<Collection>, c: Collection)
    ensures EncCollections(cs + [c]) == EncCollections(cs) + EncNode(TAG_COLLECTION, CollectionValue(c))
    decreases |cs|
  {
    hide EncNode, CollectionValue;
    if cs == [] {
      assert [c][1..] == [];
    } else {
      assert (cs + [c])[1..] == cs[1..] + [c];
      CollectionsAppend(cs[1..], c);
    }
  }

  // ------------------------------------------------------------- decoder

  // The shared cursor of the nested readers.  Out of bounds reads end as `Crash`.
  class Decoder {
    const dialect: Dialect
    const data: seq<Byte>
    var off: nat

    constructor (dialect: Dialect, data: seq<Byte>)
      ensures this.dialect == dialect && this.data == data && off == 0
    {
      this.dialect, this.data, off := dialect, data, 0;
    }

    method ReadVarint() returns (r: Read<U32>)
      modifies this
      ensures r == DecVarint(data, old(off)) && (r.Got? ==> off == r.next)
    {
      hide AsU32, Or, Shifted;
      var result: U32, shift: nat := 0, 0;
      while off < |data|
        invariant DecVarint(data, old(off)) == VarintFrom(data, off, result, shift)
        decreases Left(data, off)
      {
        var byte := data[off];
        off := off + 1;
        result := AsU32(Or(result, Shifted(byte % 0x80, shift)));
        if byte < 0x80 {
          return Got(result, off);
        }
        shift := shift + 7;
      }
      r := Crash;
    }

    method ReadU32() returns (r: Read<U32>)
      modifies this
      ensures off == old(off) + 4 || r == Crash
      ensures r == if old(off) + 4 > |data| then Crash else Got(U32At(data, old(off)), old(off) + 4)
    {
      hide U32At;
      if off + 4 > |data| {
        return Crash;
      }
      off := off + 4;
      r := Got(U32At(data, off - 4), off);
    }

    method ReadFixed(end: nat) returns (r: Read<Fixed>)
      modifies this
      ensures r == DecFixed(dialect, data, old(off), end) && (r.Got? ==> off == r.next)
    {
      hide AttributesAt, UnpackBits, U16At, DecVarint;
      if dialect.Rust? && off + 2 > end {
        return Short;
      }
      if off + 2 > |data| {
        return Crash;
      }
      var bits := UnpackBits(U16At(data, off), 10);
      off := off + 2;
      var size := ReadVarint();
      if !size.Got? {
        return Crash;
      }
      var count := ReadVarint();
      if !count.Got? {
        return Crash;
      }
      if dialect.Rust? && off + 16 > end {
        return Short;
      }
      if off + 24 > |data| {
        return Crash;
      }
      off := off + 24;
      r := Got(Fixed(bits, size.value, count.value, AttributesAt(data, off - 24, bits)), off);
    }

    method ReadUsages(end: nat, isRange: bool) returns (r: Read<Usages>)
      modifies this
      ensures r == DecUsages(dialect, data, old(off), end, isRange) && (r.Got? ==> off == r.next)
    {
      hide U32At, DecVarint, UsageList;
      if isRange {
        if dialect.Rust? && off + 8 > end {
          return Short;
        }
        var low := ReadU32();
        if low.Crash? {
          return Crash;
        }
        var high := ReadU32();
        if high.Crash? {
          return Crash;
        }
        return Got(Usages(None, Some(low.value), Some(high.value)), off);
      }
      var count := ReadVarint();
      if !count.Got? {
        return Crash;
      }
      var total: nat := count.value;
      if dialect.Rust? && off + 4 * total > end {
        return Short;
      }
      var start := off;
      var list: seq<U32> := [];
      for i := 0 to total
        invariant off == start + 4 * i && |list| == i
        invariant i > 0 ==> off <= |data|
        invariant off <= |data| ==> list == U32sAt(data, start, i)
      {
        var next := ReadU32();
        if next.Crash? {
          return Crash;
        }
        U32sAtNext(data, start, i);
        list := list + [next.value];
      }
      r := Got(Usages(UsageList(dialect, list), None, None), off);
    }

    method ReadStrings(end: nat) returns (r: Read<seq<seq<Byte>>>)
      modifies this
      ensures r == DecStrings(dialect, data, old(off), end) && (r.Got? ==> off == r.next)
    {
      hide DecVarint, Clamped;
      var count := ReadVarint();
      if !count.Got? {
        return Crash;
      }
      var strings: seq<seq<Byte>> := [];
      ghost var whole := DecStringList(dialect, data, off, end, count.value);
      PrefixNone(whole);
      for i := 0 to count.value
        invariant Prefixed(whole, strings, DecStringList(dialect, data, off, end, count.value - i))
      {
        var n := ReadVarint();
        if !n.Got? {
          return Crash;
        }
        if dialect.Rust? && off + n.value > end {
          return Short;
        }
        if dialect.Rust? && off + n.value > |data| {
          return Crash;
        }
        var text := Clamped(data, off, off + n.value);
        PrefixMore(whole, strings, text, DecStringList(dialect, data, off + n.value, end, count.value - i - 1));
        strings := strings + [text];
        off := off + n.value;
      }
      r := Got(strings, off);
      assert strings + [] == strings;
    }

    method ReadField(end: nat) returns (r: Read<Field>)
      modifies this
      ensures r == DecField(dialect, data, old(off), end) && (r.Got? ==> off == r.next)
    {
      hide DecFixed, DecUsages, DecStrings, FieldOf;
      var x := ReadFixed(end);
      if x.Short? {
        off := end;
        return Got(DEFAULT_FIELD, end);
      }
      if !x.Got? {
        return Crash;
      }
      var u := ReadUsages(end, x.value.bits[2]);
      if u.Short? {
        off := end;
        return Got(DEFAULT_FIELD, end);
      }
      if !u.Got? {
        return Crash;
      }
      var strings := ReadStrings(end);
      if strings.Short? {
        off := end;
        return Got(DEFAULT_FIELD, end);
      }
      if !strings.Got? {
        return Crash;
      }
      r := Got(FieldOf(x.value, u.value, strings.value), off);
    }

    method ReadNode() returns (r: Read<Node>)
      modifies this
      ensures r == DecNode(dialect, data, old(off)) && (r.Got? ==> off == r.next)
      decreases Left(data, off), 0
    {
      hide DecCollection, DecReport, DecField, DecVarint;
      if off >= |data| {
        return Crash;
      }
      var tag := data[off];
      off := off + 1;
      var len := ReadVarint();
      if !len.Got? {
        return Crash;
      }
      var end := off + len.value;
      if tag == TAG_COLLECTION {
        var c := ReadCollection(end);
        if !c.Got? {
          return c.Failure();
        }
        r := Got(CollectionNode(c.value), end);
      } else if tag == TAG_INPUT_REPORT || tag == TAG_OUTPUT_REPORT || tag == TAG_FEATURE_REPORT {
        var report := ReadReport(end);
        if !report.Got? {
          return report.Failure();
        }
        r := Got(ReportNode(report.value), end);
      } else if tag == TAG_FIELD {
        var field := ReadField(end);
        if !field.Got? {
          return Crash;
        }
        r := Got(FieldNode(field.value), end);
      } else {
        r := Got(if dialect.Rust? then FieldNode(DEFAULT_FIELD) else NoNode, end);
      }
      off := end;
    }

    method ReadReport(end: nat) returns (r: Read<Report>)
      modifies this
      ensures r == DecReport(dialect, data, old(off), end) && (r.Got? ==> off == r.next)
      decreases Left(data, off), 2
    {
      hide DecNode;
      if off >= |data| {
        return Crash;
      }
      var report := Report(data[off], []);
      off := off + 1;
      while off < end
        invariant off > old(off)
        invariant DecReport(dialect, data, old(off), end) == DecItems(dialect, data, off, end, report)
        decreases end - off
      {
        var node := ReadNode();
        if !node.Got? {
          return node.Failure();
        }
        if dialect.Js? && (node.value.CollectionNode? || node.value.ReportNode?) {
          return Foreign;
        }
        if node.value.FieldNode? {
          report := report.(items := report.items + [node.value.field]);
        }
      }
      r := Got(report, off);
    }

    method ReadOptional(present: bool) returns (r: Read<Option<U16>>)
      modifies this
      ensures r == DecOptional(data, old(off), present) && (r.Got? ==> off == r.next)
    {
      hide U16At;
      if !present {
        return Got(None, off);
      }
      if off + 2 > |data| {
        return Crash;
      }
      off := off + 2;
      r := Got(Some(U16At(data, off - 2)), off);
    }

    method ReadCollection(end: nat) returns (r: Read<Collection>)
      modifies this
      ensures r == DecCollection(dialect, data, old(off), end) && (r.Got? ==> off == r.next)
      decreases Left(data, off), 2
    {
      hide DecNode, DecOptional, UnpackBits, Attach;
      if off >= |data| {
        return Crash;
      }
      var presence := UnpackBits(data[off], 2);
      off := off + 1;
      var page := ReadOptional(presence[0]);
      if !page.Got? {
        return Crash;
      }
      var usage := ReadOptional(presence[1]);
      if !usage.Got? {
        return Crash;
      }
      if off >= |data| {
        return Crash;
      }
      var c := Collection(data[off], page.value, usage.value, [], [], [], []);
      off := off + 1;
      while off < end
        invariant off > old(off)
        invariant DecCollection(dialect, data, old(off), end) == DecBody(dialect, data, off, end, c)
        decreases end - off
      {
        if off >= |data| {
          NothingToRead(dialect, data, off);
          return Crash;
        }
        var tag := data[off];
        var node := ReadNode();
        if !node.Got? {
          return node.Failure();
        }
        c := Attach(c, tag, node.value);
      }
      r := Got(c, off);
    }

    // `deserialize` and `decodeCollectionsTlv` after base64.
    method ReadRoots() returns (r: Read<seq<Collection>>)
      modifies this
      ensures r == DecRoots(dialect, data, old(off), []) && (r.Got? ==> off == r.next)
    {
      hide DecNode;
      var roots: seq<Collection> := [];
      while off < |data|
        invariant DecRoots(dialect, data, old(off), []) == DecRoots(dialect, data, off, roots)
        decreases |data| - off
      {
        var node := ReadNode();
        if !node.Got? {
          return node.Failure();
        }
        if node.value.CollectionNode? {
          roots := roots + [node.value.collection];
        }
      }
      r := Got(roots, off);
    }
  }

  lemma NothingToRead(d: Dialect, data: seq<Byte>, off: nat)
    requires off >= |data|
    ensures DecNode(d, data, off) == Crash
  {
  }

  ghost predicate Prefixed(whole: Read<seq<seq<Byte>>>, done: seq<seq<Byte>>, rest: Read<seq<seq<Byte>>>) {
    match rest
    case Got(ss, next) => whole == Got(done + ss, next)
    case _ => whole == rest
  }

  lemma PrefixNone(whole: Read<seq<seq<Byte>>>)
    ensures Prefixed(whole, [], whole)
  {
    if whole.Got? {
      assert [] + whole.value == whole.value;
    }
  }

  lemma PrefixMore(whole: Read<seq<seq<Byte>>>, done: seq<seq<Byte>>, s: seq<Byte>, rest: Read<seq<seq<Byte>>>)
    requires rest.Got? ==> Prefixed(whole, done, Got([s] + rest.value, rest.next))
    requires !rest.Got? ==> Prefixed(whole, done, rest)
    ensures Prefixed(whole, done + [s], rest)
  {
    if rest.Got? {
      assert done + ([s] + rest.value) == done + [s] + rest.value;
    }
  }

  lemma {:induction false} U32sAtNext(data: seq<Byte>, start: nat, i: nat)
    requires start + 4 * i + 4 <= |data|
    ensures U32sAt(data, start, i + 1) == U32sAt(data, start, i) + [U32At(data, start + 4 * i)]
    decreases i
  {
    hide U32At;
    if i > 0 {
      U32sAtNext(data, start + 4, i - 1);
    }
  }

  // ---------------------------------------------------- both ends together

  method Serialize(forest: seq<Collection>) returns (blob: seq<Byte>)
    ensures blob == EncCollections(forest)
  {
    var buffer := new Buffer();
    buffer.EncodeAll(forest);
    blob := buffer.bytes;
  }

  // Whatever forest a blob was made from, its normal form comes out.
  method Deserialize(dialect: Dialect, blob: seq<Byte>) returns (forest: Option<seq<Collection>>)
    ensures forall cs :: Encodable(cs) && EncCollections(cs) == blob ==> forest == Some(NormCollections(dialect, cs))
  {
    hide EncCollections, DecRoots, NormCollections, Encodable;
    var decoder := new Decoder(dialect, blob);
    var r := decoder.ReadRoots();
    forest := if r.Got? then Some(r.value) else None;
    forall cs | Encodable(cs) && EncCollections(cs) == blob ensures forest == Some(NormCollections(dialect, cs)) {
      RoundTrip(dialect, cs);
    }
  }
}
