// What aggregation preserves: expanding the output gives back the original fields,
// exactly when no usage run leaves its 16 bits and no range its page, and the bit count
// in any case.
module FieldsProofs {
  import opened Common
  import opened Hid
  import opened Fields

  // One control of a report: its bits, its usage, its attributes.
  datatype View =
    | One(size: nat, usage: Option<U32>, attributes: Attributes)
    | Many(size: nat, count: nat, usages: seq<U32>, attributes: Attributes)
    | Padding(size: nat)

  predicate WellFormed(f: HidField) {
    f.bits.start < f.bits.end && (f.Array? ==> f.bits.Size() % AtLeastOne(f.count) == 0)
  }

  predicate AllWellFormed(fs: seq<HidField>) {
    forall f :: f in fs ==> WellFormed(f)
  }

  // ------------------------------------------------- what was declared

  function Declared(us: ArrayUsages): seq<U32> {
    match us
    case Listed(list) => PackUsages(list)
    case Ranged(low, high) => CountUp(Pack(low), Pack(high))
    case Unknown => []
  }

  function ViewOf(f: HidField): View {
    match f
    case Variable(bits, _, usage, attributes) => One(bits.Size(), Some(Pack(usage)), attributes)
    case Array(bits, _, count, usages, attributes) => Many(bits.Size(), AtLeastOne(count), Declared(usages), attributes)
    case Constant(bits, _) => Padding(bits.Size())
  }

  function Views(fs: seq<HidField>): seq<View> {
    seq(|fs|, i requires 0 <= i < |fs| => ViewOf(fs[i]))
  }

  // ------------------------------------------------- what comes out

  // The usage of the i-th control of a field.
  function UsageAt(f: Field, i: nat): Option<U32> {
    if f.isRange then
      if f.usageMinimum.Some? && f.usageMaximum.Some? && f.usageMinimum.value + i <= f.usageMaximum.value
      then Some(f.usageMinimum.value + i) else None
    else if i < |f.usages.GetOr([])| then Some(f.usages.value[i])
    else None
  }

  function CountUp(low: nat, high: U32): seq<U32>
    decreases high - low
  {
    if low > high then [] else [low] + CountUp(low + 1, high)
  }

  function UsagesOf(f: Field): seq<U32> {
    if f.isRange then
      if f.usageMinimum.Some? && f.usageMaximum.Some? then CountUp(f.usageMinimum.value, f.usageMaximum.value) else []
    else f.usages.GetOr([])
  }

  function Expand(f: Field): seq<View> {
    if f.isConstant then [Padding(f.reportSize * f.reportCount)]
    else if f.isArray then [Many(f.reportSize * f.reportCount, f.reportCount, UsagesOf(f), f.attributes)]
    else seq(f.reportCount, i requires 0 <= i => One(f.reportSize, UsageAt(f, i), f.attributes))
  }

  function ExpandAll(fs: seq<Field>): seq<View> {
    if fs == [] then [] else Expand(fs[0]) + ExpandAll(fs[1..])
  }

  function TotalBits(fs: seq<Field>): nat {
    if fs == [] then 0 else fs[0].reportSize * fs[0].reportCount + TotalBits(fs[1..])
  }

  function DeclaredBits(fs: seq<HidField>): nat {
    if fs == [] then 0 else fs[0].bits.Size() + DeclaredBits(fs[1..])
  }

  // ------------------------------------------------------- usage ranges

  // The guard of the lossy branch: a contiguous list that runs past its page.
  predicate Overflows(us: seq<U32>) {
    Contiguous(us) && IdOf(us[0]) + |us| > U16_LIMIT
  }

  lemma PackParts(u: U32)
    ensures u == U16_LIMIT * PageOf(u) + IdOf(u)
  {
  }

  // `detect_contiguous_range` loses nothing exactly when the list stays in its page.
  lemma DetectIsLossless(f: Field, us: seq<U32>)
    ensures var g := WithUsages(f, us);
      (forall i :: 0 <= i < |us| ==> UsageAt(g, i) == Some(us[i])) <==> !Overflows(us)
  {
    hide PageOf, IdOf;
    var g := WithUsages(f, us);
    if Contiguous(us) {
      if Overflows(us) {
        assert UsageAt(g, U16_LIMIT - IdOf(us[0])) == None;
      } else {
        forall i | 0 <= i < |us| ensures UsageAt(g, i) == Some(us[i]) {
          PackParts(us[i]);
        }
      }
    }
  }

  // A list that overflows: the usages ffff, ffff of one page.
  lemma OverflowExample()
    ensures var us: seq<U32> := [0x1_FFFF, 0x1_FFFF];
      Overflows(us) && forall f :: UsageAt(WithUsages(f, us), 1) != Some(us[1])
  {
    var us: seq<U32> := [0x1_FFFF, 0x1_FFFF];
    assert PageOf(us[0]) == 1 && IdOf(us[0]) == 0xFFFF && PageOf(us[1]) == 1 && IdOf(us[1]) == 0xFFFF;
    assert Contiguous(us);
  }

  // --------------------------------------------------------------- runs

  lemma {:induction false} PackAllAt(fs: seq<HidField>)
    requires forall f :: f in fs ==> f.Variable?
    ensures |PackAll(fs)| == |fs|
    ensures forall i :: 0 <= i < |fs| ==> PackAll(fs)[i] == Pack(fs[i].usage)
    decreases |fs|
  {
    if fs != [] {
      PackAllAt(fs[1..]);
    }
  }

  // The fields of a run have the size and attributes of its first and lie end to end.
  lemma {:induction false} RunIsUniform(first: HidField, last: HidField, rest: seq<HidField>)
    requires first.Variable? && last.Variable?
    ensures var n := RunLength(first, last, rest);
      && (forall i :: 0 <= i < n ==> SameSignature(first, rest[i]))
      && (first.bits.Size() > 0 ==> n + last.bits.end < U32_LIMIT)
    decreases |rest|
  {
    if rest != [] && Follows(last, rest[0]) && SameSignature(first, rest[0]) {
      RunIsUniform(first, rest[0], rest[1..]);
    }
  }

  lemma RunFields(fs: seq<HidField>)
    requires fs != [] && fs[0].Variable? && AllWellFormed(fs)
    ensures Run(fs) < U32_LIMIT
    ensures forall i :: 0 <= i < Run(fs) ==> fs[i].Variable? && SameSignature(fs[0], fs[i])
  {
    assert WellFormed(fs[0]);
    RunIsUniform(fs[0], fs[0], fs[1..]);
    forall i | 0 <= i < Run(fs) ensures SameSignature(fs[0], fs[i]) {
      assert i > 0 ==> fs[i] == fs[1..][i - 1];
    }
  }

  function RunUsages(fs: seq<HidField>): seq<U32>
    requires fs != [] && fs[0].Variable?
  {
    PackAll(fs[..Run(fs)])
  }

  lemma VariableShape(fs: seq<HidField>)
    requires fs != [] && fs[0].Variable? && AllWellFormed(fs)
    ensures var f := Converted(fs);
      && !f.isConstant && !f.isArray && f.attributes == fs[0].attributes
      && f.reportSize == fs[0].bits.Size() && f.reportCount == Run(fs)
  {
    RunFields(fs);
    assert WellFormed(fs[0]);
  }

  lemma ExpandVariable(fs: seq<HidField>)
    requires fs != [] && fs[0].Variable? && AllWellFormed(fs)
    ensures |Expand(Converted(fs))| == Run(fs)
    ensures Expand(Converted(fs)) == Views(fs[..Run(fs)]) <==> !Overflows(RunUsages(fs))
  {
    var n := Run(fs);
    var us := RunUsages(fs);
    VariableShape(fs);
    RunFields(fs);
    PackAllAt(fs[..n]);
    var base := Field(None, None, None, AtLeastOne(fs[0].bits.Size()), AtLeastOne(AsU32(n)),
                      false, false, false, fs[0].attributes, []);
    DetectIsLossless(base, us);
    var f := Converted(fs);
    assert f == WithUsages(base, us);
    UsagesDecide(fs[..n], f, us);
  }

  lemma UsagesDecide(run: seq<HidField>, f: Field, us: seq<U32>)
    requires !f.isConstant && !f.isArray && f.reportCount == |run| == |us|
    requires forall i :: 0 <= i < |run| ==> run[i].Variable? && us[i] == Pack(run[i].usage)
    requires forall i :: 0 <= i < |run| ==> run[i].bits.Size() == f.reportSize && run[i].attributes == f.attributes
    ensures Expand(f) == Views(run) <==> forall i :: 0 <= i < |us| ==> UsageAt(f, i) == Some(us[i])
  {
    hide UsageAt, Pack;
    var e, v := Expand(f), Views(run);
    forall i | 0 <= i < |run| ensures e[i] == v[i] <==> UsageAt(f, i) == Some(us[i]) {
    }
    assert e == v <==> forall i :: 0 <= i < |run| ==> e[i] == v[i];
  }

  // The guard of the lossy branch: a range from one page to another, unless it was
  // empty and stays so.
  predicate LeavesPage(us: ArrayUsages) {
    us.Ranged? && us.low.page != us.high.page && !(us.high.page < us.low.page && us.high.id < us.low.id)
  }

  // An array keeps its usages exactly when its range stays in one page.
  lemma ArrayUsagesKept(f: HidField)
    requires f.Array?
    ensures UsagesOf(ArrayField(f)) == Declared(f.usages) <==> !LeavesPage(f.usages)
  {
    if f.usages.Ranged? {
      var low, high := f.usages.low, f.usages.high;
      CountUpLength(Pack(low), Pack(high));
      CountUpLength(Pack(low), Pack(Usage(low.page, high.id)));
    }
  }

  lemma {:induction false} CountUpLength(low: nat, high: U32)
    ensures |CountUp(low, high)| == if low > high then 0 else high - low + 1
    decreases high - low
  {
    if low <= high {
      CountUpLength(low + 1, high);
    }
  }

  // A range that leaves its page, from usage 2 of page 1 to usage 1 of page 2, loses
  // all it declared.
  lemma PageExample(f: HidField)
    requires f.Array? && f.usages == Ranged(Usage(1, 2), Usage(2, 1))
    ensures |Declared(f.usages)| == U16_LIMIT && UsagesOf(ArrayField(f)) == []
  {
    CountUpLength(Pack(Usage(1, 2)), Pack(Usage(2, 1)));
  }

  lemma ExpandSingle(fs: seq<HidField>)
    requires fs != [] && !fs[0].Variable? && AllWellFormed(fs)
    ensures |Expand(Converted(fs))| == 1
    ensures Expand(Converted(fs)) == Views(fs[..1]) <==> (fs[0].Array? ==> !LeavesPage(fs[0].usages))
    ensures Converted(fs).reportSize * Converted(fs).reportCount == fs[0].bits.Size()
  {
    hide LeavesPage, UsagesOf, Declared;
    assert WellFormed(fs[0]);
    if fs[0].Array? {
      ArrayUsagesKept(fs[0]);
      DividedSize(fs[0].bits.Size(), AtLeastOne(fs[0].count));
      assert Expand(Converted(fs))[0] == Views(fs[..1])[0] <==> UsagesOf(ArrayField(fs[0])) == Declared(fs[0].usages);
    }
  }

  lemma DividedSize(size: nat, count: nat)
    requires 0 < count && 0 < size < U32_LIMIT && size % count == 0
    ensures 0 < size / count < U32_LIMIT && size / count * count == size
  {
  }

  // ------------------------------------------------------- main theorems

  // What the next output field stands for keeps its usages.
  predicate Kept(fs: seq<HidField>)
    requires fs != []
  {
    match fs[0]
    case Variable(_, _, _, _) => !Overflows(RunUsages(fs))
    case Array(_, _, _, usages, _) => !LeavesPage(usages)
    case Constant(_, _) => true
  }

  predicate AllKept(fs: seq<HidField>)
    decreases |fs|
  {
    fs == [] || (Kept(fs) && AllKept(fs[Taken(fs)..]))
  }

  lemma ViewsSplit(fs: seq<HidField>, n: nat)
    requires n <= |fs|
    ensures Views(fs) == Views(fs[..n]) + Views(fs[n..]) && |Views(fs[..n])| == n
  {
    hide ViewOf;
  }

  lemma SameLengthParts<T>(a: seq<T>, b: seq<T>, c: seq<T>, d: seq<T>)
    requires |a| == |c|
    ensures a + b == c + d <==> a == c && b == d
  {
    if a + b == c + d {
      assert (a + b)[..|a|] == a && (c + d)[..|c|] == c;
      assert (a + b)[|a|..] == b && (c + d)[|c|..] == d;
    }
  }

  // Expanding the aggregated fields gives back every field with its size, usage and
  // attributes, in order, exactly when no run of usages leaves its 16 bits and no range
  // of an array its page.
  lemma {:induction false} AggregationIsLossless(fs: seq<HidField>)
    requires AllWellFormed(fs)
    ensures ExpandAll(Aggregate(fs)) == Views(fs) <==> AllKept(fs)
    decreases |fs|
  {
    hide Expand, Converted, Views, Kept;
    if fs == [] {
      ViewsEmpty();
    } else {
      var n := Taken(fs);
      AggregationIsLossless(fs[n..]);
      ViewsSplit(fs, n);
      ExpandConverted(fs);
      SameLengthParts(Expand(Converted(fs)), ExpandAll(Aggregate(fs[n..])), Views(fs[..n]), Views(fs[n..]));
      AggregateFirst(fs);
    }
  }

  lemma ViewsEmpty()
    ensures Views([]) == []
  {
  }

  lemma AggregateFirst(fs: seq<HidField>)
    requires fs != []
    ensures ExpandAll(Aggregate(fs)) == Expand(Converted(fs)) + ExpandAll(Aggregate(fs[Taken(fs)..]))
  {
    hide Expand, Converted;
  }

  lemma ExpandConverted(fs: seq<HidField>)
    requires fs != [] && AllWellFormed(fs)
    ensures |Expand(Converted(fs))| == Taken(fs)
    ensures Expand(Converted(fs)) == Views(fs[..Taken(fs)]) <==> Kept(fs)
  {
    hide Expand, Converted, Views, RunUsages, Overflows, LeavesPage;
    if fs[0].Variable? {
      ExpandVariable(fs);
    } else {
      ExpandSingle(fs);
      ViewsSplit(fs, 1);
    }
  }

  // No bit is lost or invented, overflow or not.
  lemma {:induction false} BitsConserved(fs: seq<HidField>)
    requires AllWellFormed(fs)
    ensures TotalBits(Aggregate(fs)) == DeclaredBits(fs)
    decreases |fs|
  {
    hide Converted;
    if fs != [] {
      var n := Taken(fs);
      BitsConserved(fs[n..]);
      ConvertedBits(fs);
      BitsSplit(fs, n);
    }
  }

  lemma {:induction false} BitsSplit(fs: seq<HidField>, n: nat)
    requires n <= |fs|
    ensures DeclaredBits(fs) == DeclaredBits(fs[..n]) + DeclaredBits(fs[n..])
    decreases n
  {
    if n > 0 {
      assert fs[..n][1..] == fs[1..][..n - 1];
      BitsSplit(fs[1..], n - 1);
    }
  }

  lemma ConvertedBits(fs: seq<HidField>)
    requires fs != [] && AllWellFormed(fs)
    ensures Converted(fs).reportSize * Converted(fs).reportCount == DeclaredBits(fs[..Taken(fs)])
  {
    hide Converted;
    if fs[0].Variable? {
      VariableShape(fs);
      RunFields(fs);
      UniformBits(fs[..Run(fs)], fs[0].bits.Size());
    } else {
      ExpandSingle(fs);
      assert fs[..1][1..] == [];
    }
  }

  lemma {:induction false} UniformBits(run: seq<HidField>, size: nat)
    requires forall i :: 0 <= i < |run| ==> run[i].bits.Size() == size
    ensures DeclaredBits(run) == size * |run|
    decreases |run|
  {
    if run != [] {
      UniformBits(run[1..], size);
      assert size * |run| == size + size * (|run| - 1);
    }
  }

  // ------------------------------------------------- which fields are merged

  // Two variable fields end to end, of one size and with the same attributes.
  predicate Alike(f: HidField, g: HidField) {
    && f.Variable? && g.Variable?
    && f.bits.end == g.bits.start
    && f.bits.Size() == g.bits.Size()
    && f.attributes == g.attributes
  }

  // What one output field says of the fields it was made from.
  ghost predicate MadeFrom(f: Field, group: seq<HidField>) {
    && group != []
    && (group[0].Variable? ==> (forall g :: g in group ==> g.Variable?) && f == VariableField(group))
    && (group[0].Array? ==> |group| == 1 && f == ArrayField(group[0]))
    && (group[0].Constant? ==> |group| == 1 && f == ConstantField(group[0]))
  }

  ghost predicate Part(fs: seq<HidField>, f: Field, cuts: seq<nat>, k: nat)
    requires k + 1 < |cuts|
  {
    cuts[k] < cuts[k + 1] <= |fs| && MadeFrom(f, fs[cuts[k]..cuts[k + 1]])
  }

  // Where one output field ends and the next begins: at the ends, and between two
  // neighbours exactly when they are not alike.
  ghost predicate CutsOf(fs: seq<HidField>, out: seq<Field>, cuts: seq<nat>) {
    && |cuts| == |out| + 1 && cuts[0] == 0 && cuts[|out|] == |fs|
    && (forall k :: 0 <= k < |out| ==> Part(fs, out[k], cuts, k))
    && (forall i :: 0 < i < |fs| ==> (i in cuts <==> !Alike(fs[i - 1], fs[i])))
  }

  // Comparing with the first field of a run is comparing with the one before.
  lemma AlikeInRun(first: HidField, last: HidField, next: HidField)
    requires first.Variable? && last.Variable? && SameSignature(first, last)
    ensures Alike(last, next) <==> Follows(last, next) && SameSignature(first, next)
    ensures Alike(last, next) ==> next.Variable? && SameSignature(first, next)
  {
  }

  lemma {:induction false} RunIsMaximal(first: HidField, last: HidField, rest: seq<HidField>)
    requires first.Variable? && last.Variable? && SameSignature(first, last)
    ensures var all, n := [last] + rest, RunLength(first, last, rest);
      && (forall i :: 0 <= i < n ==> Alike(all[i], all[i + 1]))
      && (n < |rest| ==> !Alike(all[n], all[n + 1]))
    decreases |rest|
  {
    if rest != [] && Follows(last, rest[0]) && SameSignature(first, rest[0]) {
      RunIsMaximal(first, rest[0], rest[1..]);
      assert [rest[0]] + rest[1..] == rest;
    }
  }

  lemma TakenIsMaximal(fs: seq<HidField>)
    requires fs != []
    ensures var n := Taken(fs);
      && (forall i :: 0 < i < n ==> Alike(fs[i - 1], fs[i]))
      && (n < |fs| ==> !Alike(fs[n - 1], fs[n]))
    ensures MadeFrom(Converted(fs), fs[..Taken(fs)])
  {
    if fs[0].Variable? {
      RunIsMaximal(fs[0], fs[0], fs[1..]);
      assert [fs[0]] + fs[1..] == fs;
      assert fs[..Taken(fs)][0] == fs[0];
    }
  }

  function Prepend(n: nat, rest: seq<nat>): (cuts: seq<nat>)
    ensures |cuts| == |rest| + 1 && cuts[0] == 0 && forall k :: 0 <= k < |rest| ==> cuts[k + 1] == n + rest[k]
    ensures forall i :: i in cuts <==> i == 0 || (i >= n && i - n in rest)
  {
    var cuts := [0] + seq(|rest|, k requires 0 <= k < |rest| => n + rest[k]);
    assert forall k :: 0 <= k < |rest| ==> cuts[k + 1] == n + rest[k];
    cuts
  }

  // Neighbours land in the same output field exactly when they are alike.
  lemma {:induction false} NeighboursMerge(fs: seq<HidField>) returns (cuts: seq<nat>)
    ensures CutsOf(fs, Aggregate(fs), cuts)
    decreases |fs|
  {
    hide Converted, MadeFrom, Alike;
    if fs == [] {
      cuts := [0];
    } else {
      var n := Taken(fs);
      TakenIsMaximal(fs);
      var rest := NeighboursMerge(fs[n..]);
      cuts := Prepend(n, rest);
      CutsShift(fs, n, Aggregate(fs[n..]), rest, cuts);
    }
  }

  lemma CutsShift(fs: seq<HidField>, n: nat, out: seq<Field>, rest: seq<nat>, cuts: seq<nat>)
    requires fs != [] && 0 < n == Taken(fs) && CutsOf(fs[n..], out, rest) && cuts == Prepend(n, rest)
    requires forall i :: 0 < i < n ==> Alike(fs[i - 1], fs[i])
    requires n < |fs| ==> !Alike(fs[n - 1], fs[n])
    requires MadeFrom(Converted(fs), fs[..n])
    ensures CutsOf(fs, [Converted(fs)] + out, cuts)
  {
    hide Converted, MadeFrom, Alike, Prepend, Taken;
    var all := [Converted(fs)] + out;
    assert fs[0..n] == fs[..n];
    forall k | 0 <= k < |all| ensures Part(fs, all[k], cuts, k) {
      if k > 0 {
        assert Part(fs[n..], out[k - 1], rest, k - 1);
        assert fs[cuts[k]..cuts[k + 1]] == fs[n..][rest[k - 1]..rest[k]];
      }
    }
    forall i | 0 < i < |fs| ensures i in cuts <==> !Alike(fs[i - 1], fs[i]) {
      if i > n {
        assert fs[n..][i - n - 1] == fs[i - 1] && fs[n..][i - n] == fs[i];
      }
    }
  }

  lemma {:induction false} CutsIncrease(fs: seq<HidField>, out: seq<Field>, cuts: seq<nat>, i: nat, j: nat)
    requires CutsOf(fs, out, cuts) && i < j < |cuts|
    ensures cuts[i] < cuts[j]
    decreases j
  {
    assert Part(fs, out[j - 1], cuts, j - 1);
    if i < j - 1 {
      CutsIncrease(fs, out, cuts, i, j - 1);
    }
  }

  // The next cut of one is no later than that of the other.
  lemma NextCut(fs: seq<HidField>, a: seq<Field>, x: seq<nat>, b: seq<Field>, y: seq<nat>, k: nat)
    requires CutsOf(fs, a, x) && CutsOf(fs, b, y) && k < |a| && k < |y| && x[k] == y[k]
    ensures k < |b| && y[k + 1] <= x[k + 1]
  {
    hide Alike, MadeFrom;
    assert Part(fs, a[k], x, k);
    var i := x[k + 1];
    assert i in y by {
      if i == |fs| {
        assert y[|b|] == i;
      } else {
        assert i in x && !Alike(fs[i - 1], fs[i]);
      }
    }
    var m: nat :| m < |y| && y[m] == i;
    if m < k {
      CutsIncrease(fs, b, y, m, k);
    } else if k + 1 < m {
      CutsIncrease(fs, b, y, k + 1, m);
    }
  }

  // There is no other way to do that: the cuts and the output are determined.
  lemma CutsDecide(fs: seq<HidField>, out: seq<Field>, cuts: seq<nat>)
    requires CutsOf(fs, out, cuts)
    ensures out == Aggregate(fs)
  {
    hide Alike, MadeFrom, Aggregate;
    var other := NeighboursMerge(fs);
    var all := Aggregate(fs);
    var k := 0;
    while k < |out|
      invariant k <= |out| && k <= |all| && cuts[k] == other[k] && out[..k] == all[..k]
    {
      NextCut(fs, out, cuts, all, other, k);
      NextCut(fs, all, other, out, cuts, k);
      assert Part(fs, out[k], cuts, k) && Part(fs, all[k], other, k);
      MadeOnce(out[k], all[k], fs[cuts[k]..cuts[k + 1]]);
      k := k + 1;
    }
    LastCut(fs, all, other, k);
  }

  lemma LastCut(fs: seq<HidField>, out: seq<Field>, cuts: seq<nat>, k: nat)
    requires CutsOf(fs, out, cuts) && k < |cuts| && cuts[k] == |fs|
    ensures k == |out|
  {
    if k < |out| {
      CutsIncrease(fs, out, cuts, k, |out|);
    }
  }

  lemma MadeOnce(f: Field, g: Field, group: seq<HidField>)
    requires MadeFrom(f, group) && MadeFrom(g, group)
    ensures f == g
  {
  }
}
