// Conversion of parsed HID fields: runs of adjacent variable fields with one
// signature become one field, runs of consecutive usages become a range.
module Fields {
  import opened Common
  import opened Hid

  // A collection of the parsed descriptor; only its first usage is looked at.
  datatype HidCollection = HidCollection(id: nat, kind: Byte, first: Option<Usage>)

  datatype Usage = Usage(page: U16, id: U16)

  datatype Bits = Bits(start: U32, end: U32)
  {
    function Size(): nat {
      if start <= end then end - start else 0
    }
  }

  datatype ArrayUsages = Listed(usages: seq<Usage>) | Ranged(low: Usage, high: Usage) | Unknown

  // `chain` is the field's own list of collections, outermost first.
  datatype HidField =
    | Variable(bits: Bits, chain: seq<HidCollection>, usage: Usage, attributes: Attributes)
    | Array(bits: Bits, chain: seq<HidCollection>, count: U32, usages: ArrayUsages, attributes: Attributes)
    | Constant(bits: Bits, chain: seq<HidCollection>)

  function Pack(u: Usage): U32 {
    U16_LIMIT * u.page + u.id
  }

  function PageOf(u: U32): U16 {
    u / U16_LIMIT
  }

  function IdOf(u: U32): U16 {
    u % U16_LIMIT
  }

  function PackAll(fs: seq<HidField>): seq<U32>
    requires forall f :: f in fs ==> f.Variable?
  {
    if fs == [] then [] else [Pack(fs[0].usage)] + PackAll(fs[1..])
  }

  function AtLeastOne(n: U32): U32 {
    if n == 0 then 1 else n
  }

  // ------------------------------------------------------- usage ranges

  function SaturatingAdd(a: U16, b: U16): U16 {
    if a + b < U16_LIMIT then a + b else U16_LIMIT - 1
  }

  // One page, ids counting up from the first.
  predicate Contiguous(us: seq<U32>) {
    && |us| > 1
    && (forall i :: 0 <= i < |us| ==> PageOf(us[i]) == PageOf(us[0]))
    && (forall i :: 0 <= i < |us| ==> IdOf(us[i]) == SaturatingAdd(IdOf(us[0]), i % U16_LIMIT))
  }

  // The upper bound in wrapping 16-bit arithmetic.
  function HighestId(us: seq<U32>): U16
    requires |us| > 1
  {
    (IdOf(us[0]) + |us| - 1) % U16_LIMIT
  }

  function WithUsages(f: Field, us: seq<U32>): Field {
    if Contiguous(us) then
      var page := U16_LIMIT * PageOf(us[0]);
      f.(usages := None, isRange := true,
         usageMinimum := Some(page + IdOf(us[0])), usageMaximum := Some(page + HighestId(us)))
    else f.(usages := Some(us), isRange := false, usageMinimum := None, usageMaximum := None)
  }

  // -------------------------------------------------------- aggregation

  predicate Follows(f: HidField, g: HidField)
    requires f.Variable?
  {
    g.Variable? && g.bits.start == f.bits.end
  }

  // The signature: size in bits and attributes.
  predicate SameSignature(f: HidField, g: HidField)
    requires f.Variable? && g.Variable?
  {
    f.bits.Size() == g.bits.Size() && f.attributes == g.attributes
  }

  // Length of the run that starts with `first`, seen from a field of it.
  function RunLength(first: HidField, last: HidField, rest: seq<HidField>): (n: nat)
    requires first.Variable? && last.Variable?
    ensures n <= |rest|
    ensures forall i :: 0 <= i < n ==> rest[i].Variable?
    decreases |rest|
  {
    if rest == [] || !Follows(last, rest[0]) || !SameSignature(first, rest[0]) then 0
    else 1 + RunLength(first, rest[0], rest[1..])
  }

  function Run(fs: seq<HidField>): (n: nat)
    requires fs != [] && fs[0].Variable?
    ensures 1 <= n <= |fs|
    ensures forall i :: 0 <= i < n ==> fs[i].Variable?
  {
    1 + RunLength(fs[0], fs[0], fs[1..])
  }

  function VariableField(run: seq<HidField>): Field
    requires run != [] && forall f :: f in run ==> f.Variable?
  {
    WithUsages(Field(None, None, None, AtLeastOne(run[0].bits.Size()), AtLeastOne(AsU32(|run|)),
                     false, false, false, run[0].attributes, []), PackAll(run))
  }

  function ArrayField(f: HidField): Field
    requires f.Array?
  {
    var count := AtLeastOne(f.count);
    var base := Field(None, None, None, AtLeastOne(f.bits.Size() / count), count, true, false, false, f.attributes, []);
    match f.usages
    case Listed(us) => base.(usages := Some(PackUsages(us)))
    case Ranged(low, high) =>
      // Both bounds get the page of the lower one.
      base.(isRange := true, usageMinimum := Some(Pack(low)), usageMaximum := Some(Pack(Usage(low.page, high.id))))
    case Unknown => base.(isRange := true)
  }

  function PackUsages(us: seq<Usage>): seq<U32> {
    if us == [] then [] else [Pack(us[0])] + PackUsages(us[1..])
  }

  function ConstantField(f: HidField): Field {
    DEFAULT_FIELD.(reportSize := AtLeastOne(f.bits.Size()), reportCount := 1, isConstant := true)
  }

  // How many fields the next output field takes.
  function Taken(fs: seq<HidField>): (n: nat)
    requires fs != []
    ensures 1 <= n <= |fs|
  {
    if fs[0].Variable? then Run(fs) else 1
  }

  function Converted(fs: seq<HidField>): Field
    requires fs != []
  {
    match fs[0]
    case Variable(_, _, _, _) => VariableField(fs[..Run(fs)])
    case Array(_, _, _, _, _) => ArrayField(fs[0])
    case Constant(_, _) => ConstantField(fs[0])
  }

  function Aggregate(fs: seq<HidField>): seq<Field>
    decreases |fs|
  {
    if fs == [] then [] else [Converted(fs)] + Aggregate(fs[Taken(fs)..])
  }
}
