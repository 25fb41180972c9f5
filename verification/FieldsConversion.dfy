// `convert_fields_aggregate` as it runs: two nested loops over indices.
module FieldsConversion {
  import opened Common
  import opened Hid
  import opened Fields
  import opened FieldsProofs

  method ConvertFieldsAggregate(fs: seq<HidField>) returns (out: seq<Field>, ghost cuts: seq<nat>)
    ensures out == Aggregate(fs)
    ensures CutsOf(fs, out, cuts)
  {
    hide ArrayField, ConstantField, VariableField, Run, Aggregate, CutsOf;
    out := [];
    var i := 0;
    NothingLeft();
    assert fs[0..] == fs;
    while i < |fs|
      invariant 0 <= i <= |fs|
      invariant out + Aggregate(fs[i..]) == Aggregate(fs)
    {
      ghost var rest := fs[i..];
      var field: Field;
      var j := i + 1;
      match fs[i] {
        case Variable(_, _, _, _) =>
          field, j := AggregateRun(fs, i);
        case Array(_, _, _, _, _) =>
          field := ArrayField(fs[i]);
        case Constant(_, _) =>
          field := ConstantField(fs[i]);
      }
      assert field == Converted(rest) && j == i + Taken(rest);
      AggregateNext(rest);
      assert fs[j..] == rest[Taken(rest)..];
      out := out + [field];
      i := j;
    }
    assert fs[i..] == [] && out + [] == out;
    cuts := NeighboursMerge(fs);
  }

  lemma NothingLeft()
    ensures Aggregate([]) == []
  {
  }

  lemma AggregateNext(rest: seq<HidField>)
    requires rest != []
    ensures Aggregate(rest) == [Converted(rest)] + Aggregate(rest[Taken(rest)..])
  {
  }

  lemma LikeItself(f: HidField)
    requires f.Variable?
    ensures SameSignature(f, f)
  {
  }

  lemma RunGoesOn(first: HidField, last: HidField, fs: seq<HidField>, j: nat)
    requires j < |fs| && first.Variable? && last.Variable?
    ensures RunLength(first, last, fs[j..])
      == if Follows(last, fs[j]) && SameSignature(first, fs[j]) then 1 + RunLength(first, fs[j], fs[j + 1..]) else 0
  {
    assert fs[j..][1..] == fs[j + 1..];
  }

  lemma RunEnds(first: HidField, last: HidField)
    requires first.Variable? && last.Variable?
    ensures RunLength(first, last, []) == 0
  {
  }

  // The inner loop: extends the run while the next field is adjacent and alike.
  method AggregateRun(fs: seq<HidField>, i: nat) returns (field: Field, j: nat)
    requires i < |fs| && fs[i].Variable?
    ensures i < j <= |fs| && forall k :: i < k < j ==> Alike(fs[k - 1], fs[k])
    ensures j < |fs| ==> !Alike(fs[j - 1], fs[j])
    ensures j == i + Run(fs[i..]) && field == VariableField(fs[i..][..Run(fs[i..])])
  {
    hide Pack, WithUsages, Alike, AtLeastOne, AsU32, SameSignature, RunLength;
    LikeItself(fs[i]);
    ghost var rest := fs[i..];
    var usages := [Pack(fs[i].usage)];
    var count := 1;
    var prevEnd := fs[i].bits.end;
    j := i + 1;
    assert fs[i..j] == [fs[i]];
    while j < |fs|
      invariant i < j <= |fs| && forall k :: i <= k < j ==> fs[k].Variable?
      invariant Run(rest) == j - i + RunLength(fs[i], fs[j - 1], fs[j..])
      invariant SameSignature(fs[i], fs[j - 1]) && forall k :: i < k < j ==> Alike(fs[k - 1], fs[k])
      invariant prevEnd == fs[j - 1].bits.end && count == j - i
      invariant usages == PackAll(fs[i..j])
    {
      AlikeInRun(fs[i], fs[j - 1], fs[j]);
      RunGoesOn(fs[i], fs[j - 1], fs, j);
      if !fs[j].Variable? || fs[j].bits.start != prevEnd || !SameSignature(fs[i], fs[j]) {
        break;
      }
      PackAppend(fs[i..j], fs[j]);
      assert fs[i..j] + [fs[j]] == fs[i..j + 1];
      usages := usages + [Pack(fs[j].usage)];
      count := count + 1;
      prevEnd := fs[j].bits.end;
      j := j + 1;
    }
    RunEnds(fs[i], fs[j - 1]);
    assert j == |fs| ==> fs[j..] == [];
    assert rest[..j - i] == fs[i..j];
    field := WithUsages(Field(None, None, None, AtLeastOne(fs[i].bits.Size()), AtLeastOne(AsU32(count)),
                              false, false, false, fs[i].attributes, []), usages);
  }

  lemma {:induction false} PackAppend(fs: seq<HidField>, f: HidField)
    requires f.Variable? && forall g :: g in fs ==> g.Variable?
    ensures PackAll(fs + [f]) == PackAll(fs) + [Pack(f.usage)]
    decreases |fs|
  {
    hide Pack;
    if fs == [] {
      assert [f][1..] == [];
    } else {
      assert (fs + [f])[1..] == fs[1..] + [f];
      PackAppend(fs[1..], f);
    }
  }
}
