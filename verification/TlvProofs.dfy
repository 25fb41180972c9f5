// The laws of the descriptor codec: decoding what was encoded gives the normal
// form, in either dialect, and reads exactly the bytes written at every level.
module TlvProofs {
  import opened Common
  import opened Hid
  import opened Tlv

  // `s` stands in `data` at `off`.
  predicate At(data: seq<Byte>, off: nat, s: seq<Byte>)
    ensures At(data, off, s) ==> off + |s| <= |data| || s == []
    decreases |s|
  {
    s == [] || (off < |data| && data[off] == s[0] && At(data, off + 1, s[1..]))
  }

  lemma {:induction false} AtSlice(data: seq<Byte>, off: nat, s: seq<Byte>)
    requires off + |s| <= |data|
    ensures At(data, off, s) <==> data[off..off + |s|] == s
    decreases |s|
  {
    if s != [] {
      AtSlice(data, off + 1, s[1..]);
      assert data[off..off + |s|] == [data[off]] + data[off + 1..off + |s|];
      assert s == [s[0]] + s[1..];
    }
  }

  lemma {:induction false} AtSplit(data: seq<Byte>, off: nat, a: seq<Byte>, b: seq<Byte>)
    requires At(data, off, a + b)
    ensures At(data, off, a) && At(data, off + |a|, b)
    decreases |a|
  {
    if a == [] {
      assert a + b == b;
    } else {
      assert (a + b)[1..] == a[1..] + b;
      AtSplit(data, off + 1, a[1..], b);
    }
  }

  lemma AtFirst(data: seq<Byte>, off: nat, b: Byte, s: seq<Byte>)
    requires At(data, off, [b] + s)
    ensures off < |data| && data[off] == b && At(data, off + 1, s)
  {
    assert ([b] + s)[1..] == s;
  }

  // ------------------------------------------------------------- numbers

  ghost predicate Fits(n: nat, room: nat) {
    room > 0 && (n < 0x80 || Fits(n / 0x80, room - 1))
  }

  lemma {:induction false} OrZero(b: nat)
    ensures Or(0, b) == b
    decreases b
  {
    if b > 0 {
      OrZero(b / 2);
    }
  }

  // A number below 2^k and a multiple of 2^k share no bit.
  lemma {:induction false} OrDisjoint(a: nat, b: nat, k: nat)
    requires a < Power2(k)
    ensures Or(a, b * Power2(k)) == a + b * Power2(k)
    decreases k
  {
    if k == 0 {
      OrZero(b);
    } else {
      var high := b * Power2(k - 1);
      assert b * Power2(k) == 2 * high;
      OrDisjoint(a / 2, b, k - 1);
    }
  }

  lemma SevenMore(k: nat)
    ensures Power2(k + 7) == 0x80 * Power2(k)
  {
    assert Power2(k + 2) == 4 * Power2(k);
    assert Power2(k + 4) == 4 * Power2(k + 2);
    assert Power2(k + 6) == 4 * Power2(k + 4);
  }

  // What the bytes so far say and what the rest says add up.
  lemma {:induction false} VarintReads(data: seq<Byte>, off: nat, n: nat, room: nat, result: U32, shift: nat)
    requires Fits(n, room) && At(data, off, EncVarint(n)) && shift + 7 * room <= 35
    requires result < Power2(shift) && result + n * Power2(shift) < U32_LIMIT
    ensures |EncVarint(n)| <= room
    ensures VarintFrom(data, off, result, shift) == Got(result + n * Power2(shift), off + |EncVarint(n)|)
    decreases room
  {
    hide Or, Power2;
    var low := n % 0x80;
    assert n * Power2(shift) == low * Power2(shift) + n / 0x80 * (0x80 * Power2(shift)) by {
      Distribute(Power2(shift), low, n / 0x80);
    }
    OrDisjoint(result, low, shift);
    assert shift % 32 == shift;
    assert Shifted(low, shift) == low * Power2(shift);
    if n < 0x80 {
      AtFirst(data, off, n, []);
    } else {
      AtFirst(data, off, low + 0x80, EncVarint(n / 0x80));
      SevenMore(shift);
      Below(result, low, Power2(shift));
      VarintReads(data, off + 1, n / 0x80, room - 1, result + low * Power2(shift), shift + 7);
    }
  }

  lemma Distribute(scale: nat, low: nat, high: nat)
    ensures (low + 0x80 * high) * scale == low * scale + high * (0x80 * scale)
  {
  }

  lemma Below(result: nat, low: nat, scale: nat)
    requires result < scale && low < 0x80
    ensures result + low * scale < 0x80 * scale
  {
    assert low * scale <= 0x7f * scale;
  }

  lemma {:induction false} VarintFits(n: nat)
    requires n < U32_LIMIT
    ensures Fits(n, 5)
  {
    assert Fits(n / 0x80 / 0x80 / 0x80 / 0x80, 1);
    assert Fits(n / 0x80 / 0x80 / 0x80, 2);
    assert Fits(n / 0x80 / 0x80, 3);
    assert Fits(n / 0x80, 4);
  }

  // Every u32 survives the trip and takes at most five bytes.
  lemma VarintRoundTrip(data: seq<Byte>, off: nat, n: U32)
    requires At(data, off, EncVarint(n))
    ensures DecVarint(data, off) == Got(n, off + |EncVarint(n)|)
    ensures 1 <= |EncVarint(n)| <= 5
  {
    hide At, VarintFrom, Fits, Or, Shifted;
    VarintFits(n);
    assert Power2(0) == 1;
    VarintReads(data, off, n, 5, 0, 0);
  }

  lemma {:induction false} LeRoundTrip(n: nat, k: nat)
    ensures |Le(n, k)| == k
    ensures n < Power256(k) ==> FromLe(Le(n, k)) == n
  {
    if k > 0 {
      LeRoundTrip(n / 0x100, k - 1);
      assert Le(n, k)[1..] == Le(n / 0x100, k - 1);
    }
  }

  function Power256(k: nat): nat {
    if k == 0 then 1 else 0x100 * Power256(k - 1)
  }

  lemma Powers()
    ensures Power256(1) == 0x100 && Power256(2) == U16_LIMIT && Power256(4) == U32_LIMIT
  {
    assert Power256(3) == 0x100 * Power256(2);
  }

  lemma Le2(data: seq<Byte>, off: nat, n: U16)
    requires At(data, off, Le(n, 2))
    ensures |Le(n, 2)| == 2 && U16At(data, off) == n
  {
    LeRoundTrip(n, 2);
    Powers();
    AtSlice(data, off, Le(n, 2));
  }

  lemma Le4(data: seq<Byte>, off: nat, n: U32)
    requires At(data, off, Le(n, 4))
    ensures |Le(n, 4)| == 4 && U32At(data, off) == n
  {
    LeRoundTrip(n, 4);
    Powers();
    AtSlice(data, off, Le(n, 4));
  }

  lemma LeLength(n: nat, k: nat)
    ensures |Le(n, k)| == k
  {
    LeRoundTrip(n, k);
  }

  lemma {:induction false} BitsRoundTrip(bits: seq<bool>)
    ensures UnpackBits(PackBits(bits), |bits|) == bits
    ensures PackBits(bits) < Power2(|bits|)
  {
    if bits != [] {
      BitsRoundTrip(bits[1..]);
      assert PackBits(bits) / 2 == PackBits(bits[1..]);
    }
  }

  lemma {:induction false} UnitTagRoundTrip(system: string, i: nat)
    requires i <= |UNIT_SYSTEMS| && system !in UNIT_SYSTEMS[..i]
    ensures UnitSystemFromTag(UnitTagFrom(system, i)) == if system in UNIT_SYSTEMS then system else "reserved"
    decreases |UNIT_SYSTEMS| - i
  {
    if i < |UNIT_SYSTEMS| && UNIT_SYSTEMS[i] != system {
      UnitTagRoundTrip(system, i + 1);
    }
  }

  lemma ByteAt(data: seq<Byte>, off: nat, s: seq<Byte>, i: nat)
    requires i < |s| && off + |s| <= |data| && At(data, off, s)
    ensures data[off + i] == s[i]
  {
    AtSlice(data, off, s);
    assert data[off + i] == data[off..off + |s|][i];
  }

  lemma UnitReads(data: seq<Byte>, off: nat, u: Unit)
    requires At(data, off, EncUnit(u))
    ensures |EncUnit(u)| == 8 && UnitAt(data, off) == NormUnit(u)
  {
    hide At, UnitTagFrom, UnitSystemFromTag, ToU8, FromU8;
    var s := EncUnit(u);
    ByteAt(data, off, s, 0);
    ByteAt(data, off, s, 1);
    ByteAt(data, off, s, 2);
    ByteAt(data, off, s, 3);
    ByteAt(data, off, s, 4);
    ByteAt(data, off, s, 5);
    ByteAt(data, off, s, 6);
    ByteAt(data, off, s, 7);
    UnitTagRoundTrip(u.system, 0);
  }

  lemma I32Reads(data: seq<Byte>, off: nat, v: I32)
    requires At(data, off, Le(ToU32(v), 4))
    ensures |Le(ToU32(v), 4)| == 4 && I32At(data, off) == v
  {
    Le4(data, off, ToU32(v));
  }

  lemma AttributesRead(data: seq<Byte>, off: nat, f: Field)
    requires At(data, off, EncAttributes(f.attributes))
    ensures |EncAttributes(f.attributes)| == 24
    ensures AttributesAt(data, off, FieldBits(f)) == f.attributes.(unit := NormUnit(f.attributes.unit))
  {
    hide At, Le, I32At, UnitAt, NormUnit, EncUnit;
    var a := f.attributes;
    var x0, x1 := Le(ToU32(a.logicalMinimum), 4), Le(ToU32(a.logicalMaximum), 4);
    var x2, x3 := Le(ToU32(a.physicalMinimum), 4), Le(ToU32(a.physicalMaximum), 4);
    AtSplit(data, off, x0 + x1 + x2 + x3, EncUnit(a.unit));
    AtSplit(data, off, x0 + x1 + x2, x3);
    AtSplit(data, off, x0 + x1, x2);
    AtSplit(data, off, x0, x1);
    I32Reads(data, off, a.logicalMinimum);
    I32Reads(data, off + 4, a.logicalMaximum);
    I32Reads(data, off + 8, a.physicalMinimum);
    I32Reads(data, off + 12, a.physicalMaximum);
    UnitReads(data, off + 16, a.unit);
  }

  // -------------------------------------------------------------- fields

  lemma FlagsRead(data: seq<Byte>, off: nat, f: Field)
    requires At(data, off, Le(PackBits(FieldBits(f)), 2))
    ensures |Le(PackBits(FieldBits(f)), 2)| == 2 && UnpackBits(U16At(data, off), 10) == FieldBits(f)
  {
    BitsRoundTrip(FieldBits(f));
    assert Power2(10) == 1024 by {
      assert Power2(5) == 32;
    }
    Le2(data, off, PackBits(FieldBits(f)));
  }

  function FixedBytes(f: Field): seq<Byte> {
    Le(PackBits(FieldBits(f)), 2) + EncVarint(f.reportSize) + EncVarint(f.reportCount) + EncAttributes(f.attributes)
  }

  lemma FixedReads(d: Dialect, data: seq<Byte>, off: nat, end: nat, f: Field)
    requires At(data, off, FixedBytes(f)) && off + |FixedBytes(f)| <= end
    ensures DecFixed(d, data, off, end)
      == Got(Fixed(FieldBits(f), f.reportSize, f.reportCount, NormField(d, f).attributes), off + |FixedBytes(f)|)
  {
    hide At, Le, EncVarint, PackBits, FieldBits, DecVarint, AttributesAt, EncAttributes, UnpackBits, U16At, NormUnit;
    var flags, size, count := Le(PackBits(FieldBits(f)), 2), EncVarint(f.reportSize), EncVarint(f.reportCount);
    AtSplit(data, off, flags + size + count, EncAttributes(f.attributes));
    AtSplit(data, off, flags + size, count);
    AtSplit(data, off, flags, size);
    FlagsRead(data, off, f);
    VarintRoundTrip(data, off + 2, f.reportSize);
    VarintRoundTrip(data, off + 2 + |size|, f.reportCount);
    AttributesRead(data, off + 2 + |size| + |count|, f);
  }

  lemma {:induction false} U32sRead(data: seq<Byte>, off: nat, us: seq<U32>)
    requires At(data, off, EncU32s(us))
    ensures |EncU32s(us)| == 4 * |us| && (us == [] || off + 4 * |us| <= |data|)
    ensures off + 4 * |us| <= |data| ==> U32sAt(data, off, |us|) == us
    decreases |us|
  {
    if us != [] {
      AtSplit(data, off, Le(us[0], 4), EncU32s(us[1..]));
      Le4(data, off, us[0]);
      U32sRead(data, off + 4, us[1..]);
    }
  }

  function NormUsages(d: Dialect, f: Field): Usages {
    var n := NormField(d, f);
    Usages(n.usages, n.usageMinimum, n.usageMaximum)
  }

  lemma {:induction false} U32sLength(us: seq<U32>)
    ensures |EncU32s(us)| == 4 * |us|
    decreases |us|
  {
    if us != [] {
      LeLength(us[0], 4);
      U32sLength(us[1..]);
    }
  }

  lemma UsagesRead(d: Dialect, data: seq<Byte>, off: nat, end: nat, f: Field)
    requires At(data, off, EncUsages(f)) && off + |EncUsages(f)| <= end && |EncUsages(f)| < U32_LIMIT
    ensures DecUsages(d, data, off, end, f.isRange) == Got(NormUsages(d, f), off + |EncUsages(f)|)
  {
    hide At, Le, EncVarint, EncU32s, DecVarint, U32At, U32sAt;
    if f.isRange {
      var low, high := f.usageMinimum.GetOr(0), f.usageMaximum.GetOr(0);
      AtSplit(data, off, Le(low, 4), Le(high, 4));
      Le4(data, off, low);
      Le4(data, off + 4, high);
    } else {
      var us := f.usages.GetOr([]);
      U32sLength(us);
      AtSplit(data, off, EncVarint(|us|), EncU32s(us));
      U32sRead(data, off + |EncVarint(|us|)|, us);
      VarintRoundTrip(data, off, |us|);
    }
  }

  lemma {:induction false} StringListLength(ss: seq<seq<Byte>>)
    ensures |ss| <= |EncStringList(ss)|
    ensures forall i :: 0 <= i < |ss| ==> |ss[i]| <= |EncStringList(ss)|
    decreases |ss|
  {
    if ss != [] {
      StringListLength(ss[1..]);
    }
  }

  lemma {:induction false} StringListReads(d: Dialect, data: seq<Byte>, off: nat, end: nat, ss: seq<seq<Byte>>)
    requires At(data, off, EncStringList(ss)) && off + |EncStringList(ss)| <= end && |EncStringList(ss)| < U32_LIMIT
    ensures DecStringList(d, data, off, end, |ss|) == Got(ss, off + |EncStringList(ss)|)
    decreases |ss|
  {
    hide At, EncVarint, DecVarint, VarintFrom;
    StringListLength(ss);
    if ss != [] {
      var head := EncVarint(|ss[0]|);
      AtSplit(data, off, head + ss[0], EncStringList(ss[1..]));
      AtSplit(data, off, head, ss[0]);
      VarintRoundTrip(data, off, |ss[0]|);
      AtSlice(data, off + |head|, ss[0]);
      StringListReads(d, data, off + |head| + |ss[0]|, end, ss[1..]);
      assert ss == [ss[0]] + ss[1..];
    }
  }

  lemma StringsRead(d: Dialect, data: seq<Byte>, off: nat, end: nat, ss: seq<seq<Byte>>)
    requires At(data, off, EncStrings(ss)) && off + |EncStrings(ss)| <= end && |EncStrings(ss)| < U32_LIMIT
    ensures DecStrings(d, data, off, end) == Got(ss, off + |EncStrings(ss)|)
  {
    hide At, EncVarint, DecVarint, EncStringList, DecStringList;
    StringListLength(ss);
    var head := EncVarint(|ss|);
    AtSplit(data, off, head, EncStringList(ss));
    StringListReads(d, data, off + |head|, end, ss);
    VarintRoundTrip(data, off, |ss|);
  }

  lemma FieldParts(f: Field)
    ensures FieldValue(f) == FixedBytes(f) + EncUsages(f) + EncStrings(f.strings)
  {
    hide Le, PackBits, FieldBits, EncVarint, EncAttributes, EncUsages, EncStrings;
  }

  // A field's value is read back in full, whatever the end of its node says beyond it.
  lemma FieldReads(d: Dialect, data: seq<Byte>, off: nat, end: nat, f: Field)
    requires At(data, off, FieldValue(f)) && off + |FieldValue(f)| <= end && |FieldValue(f)| < U32_LIMIT
    ensures DecField(d, data, off, end) == Got(NormField(d, f), off + |FieldValue(f)|)
  {
    hide At, FixedBytes, EncUsages, EncStrings, DecFixed, DecUsages, DecStrings, NormUnit, UsageList, EncVarint,
      Le, EncAttributes, PackBits, UnpackBits, U16At, AttributesAt, DecVarint, EncUnit, U32sAt, EncU32s,
      EncStringList, VarintFrom;
    FieldParts(f);
    AtSplit(data, off, FixedBytes(f) + EncUsages(f), EncStrings(f.strings));
    AtSplit(data, off, FixedBytes(f), EncUsages(f));
    var at := off + |FixedBytes(f)|;
    FixedReads(d, data, off, end, f);
    UsagesRead(d, data, at, end, f);
    StringsRead(d, data, at + |EncUsages(f)|, end, f.strings);
    assert FieldOf(Fixed(FieldBits(f), f.reportSize, f.reportCount, NormField(d, f).attributes),
                   NormUsages(d, f), f.strings)
        == NormField(d, f);
  }

  // --------------------------------------------------------------- nodes

  lemma NodeHeader(data: seq<Byte>, off: nat, tag: Byte, value: seq<Byte>)
    requires At(data, off, EncNode(tag, value)) && |value| < U32_LIMIT
    ensures var at := off + 1 + |EncVarint(|value|)|;
      && off < |data| && data[off] == tag
      && DecVarint(data, off + 1) == Got(|value|, at) && At(data, at, value)
      && at + |value| == off + |EncNode(tag, value)|
  {
    hide At, EncVarint, DecVarint, EncNode;
    NodeBytes(tag, value);
    var head := EncVarint(|value|);
    AtFirst(data, off, tag, head + value);
    AtSplit(data, off + 1, head, value);
    VarintRoundTrip(data, off + 1, |value|);
  }

  lemma NodeBytes(tag: Byte, value: seq<Byte>)
    requires |value| < U32_LIMIT
    ensures EncNode(tag, value) == [tag] + (EncVarint(|value|) + value)
  {
    hide EncVarint;
  }

  lemma NodeLength(tag: Byte, value: seq<Byte>)
    ensures |value| < |EncNode(tag, value)|
  {
    hide EncVarint;
  }

  // The items of a report, from whichever field the reader has come to.
  lemma {:induction false} ItemsRead(d: Dialect, data: seq<Byte>, off: nat, end: nat, fs: seq<Field>, r: Report)
    requires At(data, off, EncFields(fs)) && off + |EncFields(fs)| == end && |EncFields(fs)| < U32_LIMIT
    ensures DecItems(d, data, off, end, r) == Got(r.(items := r.items + NormFields(d, fs)), end)
    decreases |fs|
  {
    hide At, EncNode, FieldValue, DecField, DecVarint, NormField, EncVarint;
    if fs == [] {
      assert r.items + [] == r.items;
    } else {
      var node := EncNode(TAG_FIELD, FieldValue(fs[0]));
      AtSplit(data, off, node, EncFields(fs[1..]));
      NodeLength(TAG_FIELD, FieldValue(fs[0]));
      NodeHeader(data, off, TAG_FIELD, FieldValue(fs[0]));
      FieldReads(d, data, off + 1 + |EncVarint(|FieldValue(fs[0])|)|, off + |node|, fs[0]);
      var next := r.(items := r.items + [NormField(d, fs[0])]);
      ItemsRead(d, data, off + |node|, end, fs[1..], next);
      assert next.items + NormFields(d, fs[1..]) == r.items + NormFields(d, fs);
    }
  }

  lemma ReportReads(d: Dialect, data: seq<Byte>, off: nat, r: Report)
    requires At(data, off, ReportValue(r)) && |ReportValue(r)| < U32_LIMIT
    ensures DecReport(d, data, off, off + |ReportValue(r)|) == Got(NormReport(d, r), off + |ReportValue(r)|)
  {
    hide At, EncFields, DecItems, NormFields;
    AtFirst(data, off, r.id, EncFields(r.items));
    ItemsRead(d, data, off + 1, off + |ReportValue(r)|, r.items, Report(r.id, []));
    assert [] + NormFields(d, r.items) == NormFields(d, r.items);
  }

  predicate ReportTag(tag: Byte) {
    tag == TAG_INPUT_REPORT || tag == TAG_OUTPUT_REPORT || tag == TAG_FEATURE_REPORT
  }

  function AddReports(c: Collection, tag: Byte, rs: seq<Report>): Collection {
    if tag == TAG_INPUT_REPORT then c.(inputs := c.inputs + rs)
    else if tag == TAG_OUTPUT_REPORT then c.(outputs := c.outputs + rs)
    else c.(features := c.features + rs)
  }

  // Reading a run of report nodes adds them, in order, to the right list.
  lemma {:induction false} ReportsRead(
      d: Dialect, data: seq<Byte>, off: nat, end: nat, tag: Byte, rs: seq<Report>, c: Collection)
    requires ReportTag(tag) && At(data, off, EncReports(tag, rs))
    requires off + |EncReports(tag, rs)| <= end && |EncReports(tag, rs)| < U32_LIMIT
    ensures DecBody(d, data, off, end, c)
         == DecBody(d, data, off + |EncReports(tag, rs)|, end, AddReports(c, tag, NormReports(d, rs)))
    decreases |rs|
  {
    hide At, EncNode, EncVarint, ReportValue, DecReport, DecVarint, NormReport, DecCollection, DecField,
      DecItems, EncCollections, NormCollections, EncFields, NormFields, VarintFrom, AsU32;
    if rs == [] {
      assert AddReports(c, tag, []) == c;
    } else {
      var node := EncNode(tag, ReportValue(rs[0]));
      AtSplit(data, off, node, EncReports(tag, rs[1..]));
      NodeLength(tag, ReportValue(rs[0]));
      NodeHeader(data, off, tag, ReportValue(rs[0]));
      ReportReads(d, data, off + 1 + |EncVarint(|ReportValue(rs[0])|)|, rs[0]);
      var next := AddReports(c, tag, [NormReport(d, rs[0])]);
      assert DecBody(d, data, off, end, c) == DecBody(d, data, off + |node|, end, next);
      ReportsRead(d, data, off + |node|, end, tag, rs[1..], next);
      AddReportsTwice(c, tag, [NormReport(d, rs[0])], NormReports(d, rs[1..]));
    }
  }

  lemma AddReportsTwice(c: Collection, tag: Byte, a: seq<Report>, b: seq<Report>)
    ensures AddReports(AddReports(c, tag, a), tag, b) == AddReports(c, tag, a + b)
  {
    assert c.inputs + a + b == c.inputs + (a + b);
    assert c.outputs + a + b == c.outputs + (a + b);
    assert c.features + a + b == c.features + (a + b);
  }

  lemma {:induction false} CollectionsRead(
      d: Dialect, data: seq<Byte>, off: nat, end: nat, cs: seq<Collection>, c: Collection)
    requires At(data, off, EncCollections(cs))
    requires off + |EncCollections(cs)| <= end && |EncCollections(cs)| < U32_LIMIT
    ensures DecBody(d, data, off, end, c)
         == DecBody(d, data, off + |EncCollections(cs)|, end, c.(children := c.children + NormCollections(d, cs)))
    decreases cs
  {
    hide At, EncNode, EncVarint, CollectionValue, DecCollection, DecReport, DecField, DecVarint, NormCollection,
      DecItems, EncReports, NormReports, CollectionHead, DecOptional, VarintFrom, ReportValue, AsU32, DecNode;
    if cs == [] {
      assert c.children + [] == c.children;
    } else {
      var node := EncNode(TAG_COLLECTION, CollectionValue(cs[0]));
      AtSplit(data, off, node, EncCollections(cs[1..]));
      NodeLength(TAG_COLLECTION, CollectionValue(cs[0]));
      NodeHeader(data, off, TAG_COLLECTION, CollectionValue(cs[0]));
      CollectionReads(d, data, off + 1 + |EncVarint(|CollectionValue(cs[0])|)|, cs[0]);
      CollectionNodeReads(d, data, off, cs[0]);
      var next := c.(children := c.children + [NormCollection(d, cs[0])]);
      assert DecBody(d, data, off, end, c) == DecBody(d, data, off + |node|, end, next);
      CollectionsRead(d, data, off + |node|, end, cs[1..], next);
      assert next.children + NormCollections(d, cs[1..]) == c.children + NormCollections(d, cs);
    }
  }

  lemma CollectionNodeReads(d: Dialect, data: seq<Byte>, off: nat, c: Collection)
    requires |CollectionValue(c)| < U32_LIMIT && At(data, off, EncNode(TAG_COLLECTION, CollectionValue(c)))
    requires var at := off + 1 + |EncVarint(|CollectionValue(c)|)|; var end := at + |CollectionValue(c)|;
      DecCollection(d, data, at, end) == Got(NormCollection(d, c), end)
    ensures off < |data| && data[off] == TAG_COLLECTION
    ensures DecNode(d, data, off)
      == Got(CollectionNode(NormCollection(d, c)), off + |EncNode(TAG_COLLECTION, CollectionValue(c))|)
  {
    hide At, EncNode, EncVarint, CollectionValue, DecCollection, DecReport, DecField, DecVarint, NormCollection, AsU32;
    NodeLength(TAG_COLLECTION, CollectionValue(c));
    NodeHeader(data, off, TAG_COLLECTION, CollectionValue(c));
  }

  lemma OptionalReads(data: seq<Byte>, off: nat, v: Option<U16>)
    requires At(data, off, EncOptional(v))
    ensures DecOptional(data, off, v.Some?) == Got(v, off + |EncOptional(v)|)
  {
    if v.Some? {
      Le2(data, off, v.value);
    }
  }

  lemma HeadReads(d: Dialect, data: seq<Byte>, off: nat, end: nat, c: Collection)
    requires At(data, off, CollectionHead(c))
    ensures DecCollection(d, data, off, end)
         == DecBody(d, data, off + |CollectionHead(c)|, end,
           c.(children := [], inputs := [], outputs := [], features := []))
  {
    hide At, Le, U16At, DecBody;
    var page, usage := EncOptional(c.usagePage), EncOptional(c.usage);
    AtSplit(data, off, [Presence(c)] + page + usage, [c.kind]);
    AtSplit(data, off, [Presence(c)] + page, usage);
    AtFirst(data, off, Presence(c), page);
    assert UnpackBits(Presence(c), 2) == [c.usagePage.Some?, c.usage.Some?];
    OptionalReads(data, off + 1, c.usagePage);
    OptionalReads(data, off + 1 + |page|, c.usage);
    assert [c.kind] + [] == [c.kind];
    AtFirst(data, off + 1 + |page| + |usage|, c.kind, []);
  }

  lemma BodyEnds(d: Dialect, data: seq<Byte>, end: nat, c: Collection)
    ensures DecBody(d, data, end, end, c) == Got(c, end)
  {
  }

  lemma {:induction false} CollectionReads(d: Dialect, data: seq<Byte>, off: nat, c: Collection)
    requires At(data, off, CollectionValue(c)) && |CollectionValue(c)| < U32_LIMIT
    ensures DecCollection(d, data, off, off + |CollectionValue(c)|)
         == Got(NormCollection(d, c), off + |CollectionValue(c)|)
    decreases c
  {
    hide At, CollectionHead, EncCollections, EncReports, DecCollection, DecBody, NormReports, NormCollections;
    var end := off + |CollectionValue(c)|;
    var head, children := CollectionHead(c), EncCollections(c.children);
    var ins, outs, feats := EncReports(TAG_INPUT_REPORT, c.inputs), EncReports(TAG_OUTPUT_REPORT, c.outputs),
      EncReports(TAG_FEATURE_REPORT, c.features);
    AtSplit(data, off, head + children, ins + outs + feats);
    AtSplit(data, off, head, children);
    var at := off + |head| + |children|;
    AtSplit(data, at, ins + outs, feats);
    AtSplit(data, at, ins, outs);
    var c0 := c.(children := [], inputs := [], outputs := [], features := []);
    HeadReads(d, data, off, end, c);
    CollectionsRead(d, data, off + |head|, end, c.children, c0);
    var c1 := c0.(children := c0.children + NormCollections(d, c.children));
    ReportsRead(d, data, at, end, TAG_INPUT_REPORT, c.inputs, c1);
    var c2 := AddReports(c1, TAG_INPUT_REPORT, NormReports(d, c.inputs));
    ReportsRead(d, data, at + |ins|, end, TAG_OUTPUT_REPORT, c.outputs, c2);
    var c3 := AddReports(c2, TAG_OUTPUT_REPORT, NormReports(d, c.outputs));
    ReportsRead(d, data, at + |ins| + |outs|, end, TAG_FEATURE_REPORT, c.features, c3);
    BodyEnds(d, data, end, AddReports(c3, TAG_FEATURE_REPORT, NormReports(d, c.features)));
    assert AddReports(c3, TAG_FEATURE_REPORT, NormReports(d, c.features)) == NormCollection(d, c);
  }

  // ---------------------------------------------------------- main theorems

  ghost predicate Encodable(cs: seq<Collection>) {
    forall i :: 0 <= i < |cs| ==> |CollectionValue(cs[i])| < U32_LIMIT
  }

  lemma {:induction false} RootsRead(d: Dialect, data: seq<Byte>, off: nat, cs: seq<Collection>, roots: seq<Collection>)
    requires Encodable(cs) && At(data, off, EncCollections(cs)) && off + |EncCollections(cs)| == |data|
    ensures DecRoots(d, data, off, roots) == Got(roots + NormCollections(d, cs), |data|)
    decreases |cs|
  {
    hide At, EncNode, EncVarint, CollectionValue, DecCollection, DecVarint, NormCollection;
    if cs == [] {
      assert roots + [] == roots;
    } else {
      var node := EncNode(TAG_COLLECTION, CollectionValue(cs[0]));
      AtSplit(data, off, node, EncCollections(cs[1..]));
      NodeHeader(data, off, TAG_COLLECTION, CollectionValue(cs[0]));
      CollectionReads(d, data, off + 1 + |EncVarint(|CollectionValue(cs[0])|)|, cs[0]);
      RootsRead(d, data, off + |node|, cs[1..], roots + [NormCollection(d, cs[0])]);
      assert roots + [NormCollection(d, cs[0])] + NormCollections(d, cs[1..]) == roots + NormCollections(d, cs);
    }
  }

  // Both decoders read every blob of the encoder to its last byte and give the
  // normal form of the forest.
  lemma RoundTrip(d: Dialect, cs: seq<Collection>)
    requires Encodable(cs)
    ensures DecRoots(d, EncCollections(cs), 0, []) == Got(NormCollections(d, cs), |EncCollections(cs)|)
  {
    var data := EncCollections(cs);
    AtSlice(data, 0, data);
    assert data[0..|data|] == data;
    RootsRead(d, data, 0, cs, []);
    assert [] + NormCollections(d, cs) == NormCollections(d, cs);
  }

  // ------------------------------------------- what the bytes remember

  lemma {:induction false} UnitTagOfNorm(system: string, i: nat)
    requires i <= |UNIT_SYSTEMS|
    ensures UnitTagFrom(if system in UNIT_SYSTEMS[i..] then system else "reserved", i) == UnitTagFrom(system, i)
    decreases |UNIT_SYSTEMS| - i
  {
    if i < |UNIT_SYSTEMS| {
      assert UNIT_SYSTEMS[i..] == [UNIT_SYSTEMS[i]] + UNIT_SYSTEMS[i + 1..];
      if UNIT_SYSTEMS[i] != system {
        UnitTagOfNorm(system, i + 1);
        ReservedTag(i);
      }
    }
  }

  lemma {:induction false} ReservedTag(i: nat)
    requires i <= |UNIT_SYSTEMS|
    ensures UnitTagFrom("reserved", i) == 6
    decreases |UNIT_SYSTEMS| - i
  {
    if i < |UNIT_SYSTEMS| {
      assert UNIT_SYSTEMS[i] == "reserved" ==> i == 6;
      ReservedTag(i + 1);
    }
  }

  lemma NormUnitBytes(u: Unit)
    ensures EncUnit(NormUnit(u)) == EncUnit(u)
  {
    assert UNIT_SYSTEMS[0..] == UNIT_SYSTEMS;
    UnitTagOfNorm(u.system, 0);
  }

  lemma NormFieldBytes(d: Dialect, f: Field)
    ensures FieldValue(NormField(d, f)) == FieldValue(f)
  {
    hide Le, EncVarint, EncU32s, EncStrings, PackBits, EncUnit, NormUnit;
    NormUnitBytes(f.attributes.unit);
    var n := NormField(d, f);
    assert EncAttributes(n.attributes) == EncAttributes(f.attributes);
    assert EncUsages(n) == EncUsages(f);
    assert FieldBits(n) == FieldBits(f);
  }

  lemma {:induction false} NormFieldsBytes(d: Dialect, fs: seq<Field>)
    ensures EncFields(NormFields(d, fs)) == EncFields(fs)
    decreases |fs|
  {
    if fs != [] {
      NormFieldBytes(d, fs[0]);
      NormFieldsBytes(d, fs[1..]);
    }
  }

  lemma {:induction false} NormReportsBytes(d: Dialect, tag: Byte, rs: seq<Report>)
    ensures EncReports(tag, NormReports(d, rs)) == EncReports(tag, rs)
    decreases |rs|
  {
    if rs != [] {
      NormFieldsBytes(d, rs[0].items);
      assert ReportValue(NormReport(d, rs[0])) == ReportValue(rs[0]);
      NormReportsBytes(d, tag, rs[1..]);
    }
  }

  lemma {:induction false} NormCollectionBytes(d: Dialect, c: Collection)
    ensures CollectionValue(NormCollection(d, c)) == CollectionValue(c)
    decreases c
  {
    hide EncReports, NormReports;
    NormCollectionsBytes(d, c.children);
    NormReportsBytes(d, TAG_INPUT_REPORT, c.inputs);
    NormReportsBytes(d, TAG_OUTPUT_REPORT, c.outputs);
    NormReportsBytes(d, TAG_FEATURE_REPORT, c.features);
  }

  // Normalising changes no byte of the encoding.
  lemma {:induction false} NormCollectionsBytes(d: Dialect, cs: seq<Collection>)
    ensures EncCollections(NormCollections(d, cs)) == EncCollections(cs)
    ensures Encodable(cs) ==> Encodable(NormCollections(d, cs))
    decreases cs
  {
    if cs != [] {
      NormCollectionBytes(d, cs[0]);
      NormCollectionsBytes(d, cs[1..]);
      var n := NormCollections(d, cs);
      assert n[0] == NormCollection(d, cs[0]) && n[1..] == NormCollections(d, cs[1..]);
      if Encodable(cs) {
        assert Encodable([cs[0]] + cs[1..]);
        assert Encodable(cs[1..]);
      }
    }
  }

  // Two forests have the same bytes exactly when they have the same normal form, so
  // the normal form is all that the format can carry and decoding loses nothing else.
  lemma SameBytesIffSameNorm(d: Dialect, a: seq<Collection>, b: seq<Collection>)
    requires Encodable(a) && Encodable(b)
    ensures EncCollections(a) == EncCollections(b) <==> NormCollections(d, a) == NormCollections(d, b)
  {
    hide EncCollections, NormCollections, DecRoots, CollectionValue;
    RoundTrip(d, a);
    RoundTrip(d, b);
    NormCollectionsBytes(d, a);
    NormCollectionsBytes(d, b);
  }

  lemma NormIdempotent(d: Dialect, e: Dialect, cs: seq<Collection>)
    requires Encodable(cs)
    ensures NormCollections(d, NormCollections(e, cs)) == NormCollections(d, cs)
  {
    hide EncCollections, NormCollections, DecRoots, CollectionValue;
    NormCollectionsBytes(e, cs);
    RoundTrip(d, cs);
    RoundTrip(d, NormCollections(e, cs));
  }

  // On every blob the daemon writes the extension reads the daemon's own tree,
  // except that it keeps an empty usage list where the daemon has none.
  lemma DialectsAgree(cs: seq<Collection>)
    requires Encodable(cs)
    ensures var rust := DecRoots(Rust, EncCollections(cs), 0, []);
      var js := DecRoots(Js, EncCollections(cs), 0, []);
      rust.Got? && js.Got? && rust.next == js.next == |EncCollections(cs)|
      && js.value == NormCollections(Js, rust.value) && rust.value == NormCollections(Rust, js.value)
  {
    hide EncCollections, NormCollections, DecRoots, CollectionValue;
    RoundTrip(Rust, cs);
    RoundTrip(Js, cs);
    NormIdempotent(Js, Rust, cs);
    NormIdempotent(Rust, Js, cs);
  }

  // A field differs between the two only in an absent or empty usage list.
  lemma DialectsDiffer(f: Field)
    ensures NormField(Js, f) == NormField(Rust, f) <==> f.isRange || f.usages.GetOr([]) != []
    ensures !f.isRange && f.usages.GetOr([]) == [] ==>
      NormField(Rust, f).usages == None && NormField(Js, f) == NormField(Rust, f).(usages := Some([]))
  {
  }
}
