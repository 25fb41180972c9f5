// The binary form of a collection forest: tag, length, value, nested.
module Tlv {
  import opened Common
  import opened Hid

  const TAG_COLLECTION: Byte := 1
  const TAG_INPUT_REPORT: Byte := 2
  const TAG_OUTPUT_REPORT: Byte := 3
  const TAG_FEATURE_REPORT: Byte := 4
  const TAG_FIELD: Byte := 5

  const UNIT_SYSTEMS: seq<string> :=
    ["none", "si-linear", "si-rotation", "english-linear", "english-rotation", "vendor-defined", "reserved"]

  // ------------------------------------------------------------- numbers

  function EncVarint(n: nat): seq<Byte> {
    if n < 0x80 then [n] else [n % 0x80 + 0x80] + EncVarint(n / 0x80)
  }

  // Little-endian, `k` bytes.
  function Le(n: nat, k: nat): seq<Byte> {
    if k == 0 then [] else [n % 0x100] + Le(n / 0x100, k - 1)
  }

  function FromLe(s: seq<Byte>): nat {
    if s == [] then 0 else s[0] + 0x100 * FromLe(s[1..])
  }

  function ToU32(v: I32): U32 {
    if v < 0 then v + U32_LIMIT else v
  }

  function FromU32(n: int): I32
    requires 0 <= n < U32_LIMIT
  {
    if n < 0x8000_0000 then n else n - U32_LIMIT
  }

  function ToU8(v: I32): Byte {
    v % 0x100
  }

  function FromU8(b: Byte): I32 {
    if b < 0x80 then b else b - 0x100
  }

  // The value a 32-bit exponent has after a cast to i8.
  function TruncateToI8(v: I32): I32 {
    FromU8(ToU8(v))
  }

  // Bit i of the sum is the i-th flag.
  function PackBits(bits: seq<bool>): nat {
    if bits == [] then 0 else (if bits[0] then 1 else 0) + 2 * PackBits(bits[1..])
  }

  function UnpackBits(n: nat, k: nat): (bits: seq<bool>)
    ensures |bits| == k
  {
    if k == 0 then [] else [n % 2 == 1] + UnpackBits(n / 2, k - 1)
  }

  function UnitTagFrom(system: string, i: nat): Byte
    requires i <= |UNIT_SYSTEMS|
    decreases |UNIT_SYSTEMS| - i
  {
    if i == |UNIT_SYSTEMS| then 6 else if UNIT_SYSTEMS[i] == system then i else UnitTagFrom(system, i + 1)
  }

  function UnitSystemFromTag(tag: Byte): string {
    if tag < |UNIT_SYSTEMS| then UNIT_SYSTEMS[tag] else "reserved"
  }

  // ------------------------------------------------------------- encoding

  function EncNode(tag: Byte, value: seq<Byte>): seq<Byte> {
    [tag] + EncVarint(AsU32(|value|)) + value
  }

  function FieldBits(f: Field): seq<bool> {
    var a := f.attributes;
    [a.isAbsolute, f.isArray, f.isRange, f.isConstant, a.isLinear,
     a.isVolatile, a.isBufferedBytes, a.hasNull, a.hasPreferredState, a.wrap]
  }

  function EncUnit(u: Unit): seq<Byte> {
    [ToU8(u.exponent), UnitTagFrom(u.system, 0), ToU8(u.length), ToU8(u.mass), ToU8(u.time),
     ToU8(u.temperature), ToU8(u.current), ToU8(u.luminosity)]
  }

  function EncAttributes(a: Attributes): seq<Byte> {
    Le(ToU32(a.logicalMinimum), 4) + Le(ToU32(a.logicalMaximum), 4)
    + Le(ToU32(a.physicalMinimum), 4) + Le(ToU32(a.physicalMaximum), 4) + EncUnit(a.unit)
  }

  function EncU32s(us: seq<U32>): seq<Byte> {
    if us == [] then [] else Le(us[0], 4) + EncU32s(us[1..])
  }

  function EncUsages(f: Field): seq<Byte> {
    if f.isRange then Le(f.usageMinimum.GetOr(0), 4) + Le(f.usageMaximum.GetOr(0), 4)
    else EncVarint(AsU32(|f.usages.GetOr([])|)) + EncU32s(f.usages.GetOr([]))
  }

  function EncStringList(ss: seq<seq<Byte>>): seq<Byte> {
    if ss == [] then [] else EncVarint(AsU32(|ss[0]|)) + ss[0] + EncStringList(ss[1..])
  }

  function EncStrings(ss: seq<seq<Byte>>): seq<Byte> {
    EncVarint(AsU32(|ss|)) + EncStringList(ss)
  }

  function FieldValue(f: Field): seq<Byte> {
    Le(PackBits(FieldBits(f)), 2) + EncVarint(f.reportSize) + EncVarint(f.reportCount)
    + EncAttributes(f.attributes) + EncUsages(f) + EncStrings(f.strings)
  }

  function EncFields(fs: seq<Field>): seq<Byte> {
    if fs == [] then [] else EncNode(TAG_FIELD, FieldValue(fs[0])) + EncFields(fs[1..])
  }

  function ReportValue(r: Report): seq<Byte> {
    [r.id] + EncFields(r.items)
  }

  function EncReports(tag: Byte, rs: seq<Report>): seq<Byte> {
    if rs == [] then [] else EncNode(tag, ReportValue(rs[0])) + EncReports(tag, rs[1..])
  }

  function EncOptional(v: Option<U16>): seq<Byte> {
    if v.Some? then Le(v.value, 2) else []
  }

  function Presence(c: Collection): Byte {
    (if c.usagePage.Some? then 1 else 0) + (if c.usage.Some? then 2 else 0)
  }

  function CollectionHead(c: Collection): seq<Byte> {
    [Presence(c)] + EncOptional(c.usagePage) + EncOptional(c.usage) + [c.kind]
  }

  function CollectionReports(c: Collection): seq<Byte> {
    EncReports(TAG_INPUT_REPORT, c.inputs) + EncReports(TAG_OUTPUT_REPORT, c.outputs)
    + EncReports(TAG_FEATURE_REPORT, c.features)
  }

  function CollectionValue(c: Collection): seq<Byte>
    decreases c
  {
    CollectionHead(c) + EncCollections(c.children) + CollectionReports(c)
  }

  // The blob that `serialize` writes, before base64.
  function EncCollections(cs: seq<Collection>): seq<Byte>
    decreases cs
  {
    if cs == [] then [] else EncNode(TAG_COLLECTION, CollectionValue(cs[0])) + EncCollections(cs[1..])
  }

  // ------------------------------------------------------------- decoding

  // The daemon's decoder and the extension's mirror of it.
  datatype Dialect = Rust | Js

  // `Crash` is a panic or a RangeError; `Short` is the `None` of the Rust readers;
  // `Foreign` is a tree of the extension with something other than fields in a report.
  datatype Read<+T> = Crash | Short | Foreign | Got(value: T, next: nat)
  {
    // A failed read fails whatever it is part of.
    function Failure<U>(): Read<U>
      requires !Got?
    {
      if Foreign? then Foreign else Crash
    }
  }

  datatype Usages = Usages(list: Option<seq<U32>>, minimum: Option<U32>, maximum: Option<U32>)

  datatype Node = CollectionNode(collection: Collection) | ReportNode(report: Report) | FieldNode(field: Field) | NoNode

  function Power2(k: nat): nat {
    if k == 0 then 1 else 2 * Power2(k - 1)
  }

  // Bitwise or.
  function Or(a: nat, b: nat): nat
    decreases a + b
  {
    if a == 0 && b == 0 then 0 else (if a % 2 == 1 || b % 2 == 1 then 1 else 0) + 2 * Or(a / 2, b / 2)
  }

  // A 32-bit left shift: only the low five bits of the distance count, and bits beyond
  // the 32nd fall off.
  function Shifted(bits: nat, shift: nat): U32 {
    AsU32(bits * Power2(shift % 32))
  }

  // The rest of a varint, once `result` has been read from `shift` bits.
  function VarintFrom(data: seq<Byte>, off: nat, result: U32, shift: nat): (r: Read<U32>)
    ensures r.Got? ==> off < r.next <= |data|
    ensures r.Got? || r.Crash?
    decreases Left(data, off)
  {
    if off >= |data| then Crash
    else
      var sum := AsU32(Or(result, Shifted(data[off] % 0x80, shift)));
      if data[off] < 0x80 then Got(sum, off + 1) else VarintFrom(data, off + 1, sum, shift + 7)
  }

  function DecVarint(data: seq<Byte>, off: nat): (r: Read<U32>)
    ensures r.Got? ==> off < r.next <= |data|
    ensures r.Got? || r.Crash?
  {
    VarintFrom(data, off, 0, 0)
  }

  function U32At(data: seq<Byte>, off: nat): U32
    requires off + 4 <= |data|
  {
    AsU32(FromLe(data[off..off + 4]))
  }

  function I32At(data: seq<Byte>, off: nat): I32
    requires off + 4 <= |data|
  {
    FromU32(U32At(data, off))
  }

  function U16At(data: seq<Byte>, off: nat): U16
    requires off + 2 <= |data|
  {
    AsU16(FromLe(data[off..off + 2]))
  }

  function U32sAt(data: seq<Byte>, off: nat, count: nat): (us: seq<U32>)
    requires off + 4 * count <= |data|
    ensures |us| == count
    decreases count
  {
    if count == 0 then [] else [U32At(data, off)] + U32sAt(data, off + 4, count - 1)
  }

  function UnitAt(data: seq<Byte>, off: nat): Unit
    requires off + 8 <= |data|
  {
    Unit(FromU8(data[off]), UnitSystemFromTag(data[off + 1]), FromU8(data[off + 2]), FromU8(data[off + 3]),
         FromU8(data[off + 4]), FromU8(data[off + 5]), FromU8(data[off + 6]), FromU8(data[off + 7]))
  }

  function AttributesAt(data: seq<Byte>, off: nat, bits: seq<bool>): Attributes
    requires off + 24 <= |data| && |bits| == 10
  {
    Attributes(I32At(data, off), I32At(data, off + 4), I32At(data, off + 8), I32At(data, off + 12),
               UnitAt(data, off + 16),
               bits[0], bits[4], bits[5], bits[6], bits[7], bits[8], bits[9])
  }

  function DecUsages(d: Dialect, data: seq<Byte>, off: nat, end: nat, isRange: bool): (r: Read<Usages>)
  {
    if isRange then
      if d.Rust? && off + 8 > end then Short
      else if off + 8 > |data| then Crash
      else Got(Usages(None, Some(U32At(data, off)), Some(U32At(data, off + 4))), off + 8)
    else
      match DecVarint(data, off)
      case Got(count, next) =>
        if d.Rust? && next + 4 * count > end then Short
        else if next + 4 * count > |data| then Crash
        else Got(Usages(UsageList(d, U32sAt(data, next, count)), None, None), next + 4 * count)
      case _ => Crash
  }

  // The daemon drops an empty usage list, the extension keeps it.
  function UsageList(d: Dialect, us: seq<U32>): Option<seq<U32>> {
    if us == [] && d.Rust? then None else Some(us)
  }

  function DecStringList(d: Dialect, data: seq<Byte>, off: nat, end: nat, count: nat): Read<seq<seq<Byte>>>
    decreases count
  {
    if count == 0 then Got([], off)
    else
      match DecVarint(data, off)
      case Got(n, next) =>
        if d.Rust? && next + n > end then Short
        else if d.Rust? && next + n > |data| then Crash
        else
          (match DecStringList(d, data, next + n, end, count - 1)
           case Got(rest, last) => Got([Clamped(data, next, next + n)] + rest, last)
           case Short => Short
           case _ => Crash)
      case _ => Crash
  }

  // `subarray` stops at the end of the data.
  function Clamped(data: seq<Byte>, from: nat, to: nat): seq<Byte>
    requires from <= to
  {
    if to <= |data| then data[from..to] else if from <= |data| then data[from..] else []
  }

  function DecStrings(d: Dialect, data: seq<Byte>, off: nat, end: nat): Read<seq<seq<Byte>>> {
    match DecVarint(data, off)
    case Got(count, next) => DecStringList(d, data, next, end, count)
    case _ => Crash
  }

  // Flags, the two sizes, and the 24 bytes of attributes.
  datatype Fixed = Fixed(bits: seq<bool>, size: U32, count: U32, attributes: Attributes)

  function DecFixed(d: Dialect, data: seq<Byte>, off: nat, end: nat): (r: Read<Fixed>)
    ensures r.Got? ==> |r.value.bits| == 10
  {
    if d.Rust? && off + 2 > end then Short
    else if off + 2 > |data| then Crash
    else
      var bits := UnpackBits(U16At(data, off), 10);
      match DecVarint(data, off + 2)
      case Got(size, next) =>
        (match DecVarint(data, next)
         case Got(count, at) =>
           if d.Rust? && at + 16 > end then Short
           else if at + 24 > |data| then Crash
           else Got(Fixed(bits, size, count, AttributesAt(data, at, bits)), at + 24)
         case _ => Crash)
      case _ => Crash
  }

  function FieldOf(x: Fixed, u: Usages, strings: seq<seq<Byte>>): Field
    requires |x.bits| == 10
  {
    Field(u.list, u.minimum, u.maximum, x.size, x.count, x.bits[1], x.bits[2], x.bits[3], x.attributes, strings)
  }

  function DecFieldBody(d: Dialect, data: seq<Byte>, off: nat, end: nat): Read<Field> {
    match DecFixed(d, data, off, end)
    case Got(x, at) =>
      (match DecUsages(d, data, at, end, x.bits[2])
       case Got(u, next) =>
         (match DecStrings(d, data, next, end)
          case Got(strings, last) => Got(FieldOf(x, u, strings), last)
          case Short => Short
          case _ => Crash)
       case Short => Short
       case _ => Crash)
    case Short => Short
    case _ => Crash
  }

  // A field the Rust reader finds truncated becomes a default field.
  function DecField(d: Dialect, data: seq<Byte>, off: nat, end: nat): Read<Field> {
    var r := DecFieldBody(d, data, off, end);
    if r.Short? then Got(DEFAULT_FIELD, end) else r
  }

  function Left(data: seq<Byte>, off: nat): nat {
    if off < |data| then |data| - off else 0
  }

  // One node; whatever its value held, the reader continues at its end.
  function DecNode(d: Dialect, data: seq<Byte>, off: nat): (r: Read<Node>)
    ensures r.Got? ==> off < |data| && off < r.next
    decreases Left(data, off), 0
  {
    if off >= |data| then Crash
    else
      match DecVarint(data, off + 1)
      case Got(len, at) =>
        var end := at + len;
        if data[off] == TAG_COLLECTION then
          (match DecCollection(d, data, at, end) case Got(c, _) => Got(CollectionNode(c), end) case r => r.Failure())
        else if TAG_INPUT_REPORT <= data[off] <= TAG_FEATURE_REPORT then
          (match DecReport(d, data, at, end) case Got(r, _) => Got(ReportNode(r), end) case r => r.Failure())
        else if data[off] == TAG_FIELD then
          (match DecField(d, data, at, end) case Got(f, _) => Got(FieldNode(f), end) case _ => Crash)
        else Got(if d.Rust? then FieldNode(DEFAULT_FIELD) else NoNode, end)
      case _ => Crash
  }

  function DecReport(d: Dialect, data: seq<Byte>, off: nat, end: nat): Read<Report>
    decreases Left(data, off), 2
  {
    if off >= |data| then Crash else DecItems(d, data, off + 1, end, Report(data[off], []))
  }

  function DecItems(d: Dialect, data: seq<Byte>, off: nat, end: nat, r: Report): Read<Report>
    decreases Left(data, off), 1
  {
    if off >= end then Got(r, off)
    else
      match DecNode(d, data, off)
      case Got(node, next) =>
        if d.Js? && (node.CollectionNode? || node.ReportNode?) then Foreign
        else DecItems(d, data, next, end, if node.FieldNode? then r.(items := r.items + [node.field]) else r)
      case x => x.Failure()
  }

  function DecOptional(data: seq<Byte>, off: nat, present: bool): (r: Read<Option<U16>>)
    ensures r.Got? ==> off <= r.next
  {
    if !present then Got(None, off)
    else if off + 2 > |data| then Crash
    else Got(Some(U16At(data, off)), off + 2)
  }

  function DecCollection(d: Dialect, data: seq<Byte>, off: nat, end: nat): Read<Collection>
    decreases Left(data, off), 2
  {
    if off >= |data| then Crash
    else
      var bits := UnpackBits(data[off], 2);
      match DecOptional(data, off + 1, bits[0])
      case Got(page, at) =>
        (match DecOptional(data, at, bits[1])
         case Got(usage, next) =>
           if next >= |data| then Crash
           else DecBody(d, data, next + 1, end, Collection(data[next], page, usage, [], [], [], []))
         case _ => Crash)
      case _ => Crash
  }

  function Attach(c: Collection, tag: Byte, node: Node): Collection {
    if tag == TAG_COLLECTION && node.CollectionNode? then c.(children := c.children + [node.collection])
    else if tag == TAG_INPUT_REPORT && node.ReportNode? then c.(inputs := c.inputs + [node.report])
    else if tag == TAG_OUTPUT_REPORT && node.ReportNode? then c.(outputs := c.outputs + [node.report])
    else if tag == TAG_FEATURE_REPORT && node.ReportNode? then c.(features := c.features + [node.report])
    else c
  }

  function DecBody(d: Dialect, data: seq<Byte>, off: nat, end: nat, c: Collection): Read<Collection>
    decreases Left(data, off), 1
  {
    if off >= end then Got(c, off)
    else
      match DecNode(d, data, off)
      case Got(node, next) => DecBody(d, data, next, end, Attach(c, data[off], node))
      case x => x.Failure()
  }

  // The whole blob; nodes at top level that are not collections are skipped.
  function DecRoots(d: Dialect, data: seq<Byte>, off: nat, roots: seq<Collection>): Read<seq<Collection>>
    decreases Left(data, off)
  {
    if off >= |data| then Got(roots, off)
    else
      match DecNode(d, data, off)
      case Got(node, next) =>
        DecRoots(d, data, next, if node.CollectionNode? then roots + [node.collection] else roots)
      case x => x.Failure()
  }

  // -------------------------------------------------------- normal forms

  function NormUnit(u: Unit): Unit {
    Unit(TruncateToI8(u.exponent), if u.system in UNIT_SYSTEMS then u.system else "reserved",
         TruncateToI8(u.length), TruncateToI8(u.mass), TruncateToI8(u.time),
         TruncateToI8(u.temperature), TruncateToI8(u.current), TruncateToI8(u.luminosity))
  }

  // What a field looks like after one trip: a range loses its usage list and a
  // missing bound becomes 0, a list loses its bounds.
  function NormField(d: Dialect, f: Field): Field {
    f.(usages := if f.isRange then None else UsageList(d, f.usages.GetOr([])),
       usageMinimum := if f.isRange then Some(f.usageMinimum.GetOr(0)) else None,
       usageMaximum := if f.isRange then Some(f.usageMaximum.GetOr(0)) else None,
       attributes := f.attributes.(unit := NormUnit(f.attributes.unit)))
  }

  function NormReport(d: Dialect, r: Report): Report {
    r.(items := NormFields(d, r.items))
  }

  function NormFields(d: Dialect, fs: seq<Field>): seq<Field> {
    if fs == [] then [] else [NormField(d, fs[0])] + NormFields(d, fs[1..])
  }

  function NormReports(d: Dialect, rs: seq<Report>): seq<Report> {
    if rs == [] then [] else [NormReport(d, rs[0])] + NormReports(d, rs[1..])
  }

  function NormCollection(d: Dialect, c: Collection): Collection
    decreases c
  {
    c.(children := NormCollections(d, c.children), inputs := NormReports(d, c.inputs),
       outputs := NormReports(d, c.outputs), features := NormReports(d, c.features))
  }

  function NormCollections(d: Dialect, cs: seq<Collection>): seq<Collection>
    decreases cs
  {
    if cs == [] then [] else [NormCollection(d, cs[0])] + NormCollections(d, cs[1..])
  }
}
