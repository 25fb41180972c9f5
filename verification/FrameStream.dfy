// Length-prefixed frames over a byte stream that arrives in arbitrary chunks.
module FrameStream {
  import opened Common
  import opened Tlv
  import opened TlvProofs

  type Bytes = seq<Byte>

  // What the writer task puts on the stream.
  function Written(frames: seq<Bytes>): Bytes {
    if frames == [] then [] else Le(AsU32(|frames[0]|), 4) + frames[0] + Written(frames[1..])
  }

  function Concat(chunks: seq<Bytes>): Bytes {
    if chunks == [] then [] else chunks[0] + Concat(chunks[1..])
  }

  predicate HasFrame(buf: Bytes) {
    |buf| >= 4 && |buf| >= 4 + U32At(buf, 0)
  }

  // The frames at the front of a buffer, and what remains.
  function Frames(buf: Bytes): seq<Bytes>
    decreases |buf|
  {
    if !HasFrame(buf) then [] else var n := U32At(buf, 0); [buf[4..4 + n]] + Frames(buf[4 + n..])
  }

  function Remainder(buf: Bytes): Bytes
    decreases |buf|
  {
    if !HasFrame(buf) then buf else Remainder(buf[4 + U32At(buf, 0)..])
  }

  // Reading more bytes after the complete frames are gone changes nothing.
  lemma {:induction false} FramesConcat(a: Bytes, b: Bytes)
    ensures Frames(a + b) == Frames(a) + Frames(Remainder(a) + b)
    ensures Remainder(a + b) == Remainder(Remainder(a) + b)
    decreases |a|
  {
    if HasFrame(a) {
      var n := U32At(a, 0);
      FrontKept(a, b);
      assert (a + b)[4 + n..] == a[4 + n..] + b;
      FramesConcat(a[4 + n..], b);
    }
  }

  lemma FrontKept(a: Bytes, b: Bytes)
    requires HasFrame(a)
    ensures HasFrame(a + b) && U32At(a + b, 0) == U32At(a, 0)
    ensures (a + b)[4..4 + U32At(a, 0)] == a[4..4 + U32At(a, 0)]
  {
    hide FromLe;
    assert (a + b)[0..4] == a[0..4];
  }

  lemma {:induction false} RemainderIsIncomplete(buf: Bytes)
    ensures !HasFrame(Remainder(buf))
    decreases |buf|
  {
    if HasFrame(buf) {
      RemainderIsIncomplete(buf[4 + U32At(buf, 0)..]);
    }
  }

  ghost predicate AllShort(frames: seq<Bytes>) {
    forall f :: f in frames ==> |f| < U32_LIMIT
  }

  lemma WrittenFirst(f: Bytes, rest: Bytes)
    requires |f| < U32_LIMIT
    ensures var buf := Le(|f|, 4) + f + rest;
      HasFrame(buf) && U32At(buf, 0) == |f| && buf[4..4 + |f|] == f && buf[4 + |f|..] == rest
  {
    hide At, Le, U32At;
    var head := Le(|f|, 4);
    var buf := head + f + rest;
    LeLength(|f|, 4);
    AtSlice(buf, 0, head);
    Le4(buf, 0, |f|);
    Middle(head, f, rest);
  }

  lemma Middle(head: Bytes, f: Bytes, rest: Bytes)
    ensures var buf := head + f + rest;
      buf[0..|head|] == head && buf[|head|..|head| + |f|] == f && buf[|head| + |f|..] == rest
  {
  }

  lemma FramesFirst(buf: Bytes)
    requires HasFrame(buf)
    ensures var n := U32At(buf, 0);
      Frames(buf) == [buf[4..4 + n]] + Frames(buf[4 + n..]) && Remainder(buf) == Remainder(buf[4 + n..])
  {
  }

  // The frames written come out in order, and then whatever follows them is read.
  lemma {:induction false} WrittenThenMore(frames: seq<Bytes>, more: Bytes)
    requires AllShort(frames)
    ensures Frames(Written(frames) + more) == frames + Frames(more)
    ensures Remainder(Written(frames) + more) == Remainder(more)
    decreases |frames|
  {
    hide Le, HasFrame, U32At, Frames, Remainder, Written;
    NothingWritten(more);
    if frames != [] {
      var f := frames[0];
      var rest := Written(frames[1..]) + more;
      WrittenNext(frames, more);
      WrittenFirst(f, rest);
      FramesFirst(Le(|f|, 4) + f + rest);
      WrittenThenMore(frames[1..], more);
      assert frames == [f] + frames[1..];
      assert [f] + (frames[1..] + Frames(more)) == frames + Frames(more);
    } else {
      assert frames + Frames(more) == Frames(more);
    }
  }

  lemma NothingWritten(more: Bytes)
    ensures Written([]) + more == more
  {
  }

  lemma WrittenNext(frames: seq<Bytes>, more: Bytes)
    requires frames != [] && |frames[0]| < U32_LIMIT
    ensures Written(frames) + more == Le(|frames[0]|, 4) + frames[0] + (Written(frames[1..]) + more)
  {
    hide Le;
  }

  class FrameReader {
    var buf: Bytes

    constructor ()
      ensures buf == []
    {
      buf := [];
    }

    // One chunk: every frame it completes is handed on.
    method Feed(chunk: Bytes) returns (frames: seq<Bytes>)
      modifies this
      ensures frames == Frames(old(buf) + chunk) && buf == Remainder(old(buf) + chunk)
    {
      hide U32At;
      buf := buf + chunk;
      frames := [];
      while |buf| >= 4
        invariant frames + Frames(buf) == Frames(old(buf) + chunk)
        invariant Remainder(buf) == Remainder(old(buf) + chunk)
        decreases |buf|
      {
        var len: nat := U32At(buf, 0);
        if |buf| < 4 + len {
          break;
        }
        var frame := buf[4..4 + len];
        buf := buf[4 + len..];
        frames := frames + [frame];
      }
      assert !HasFrame(buf);
    }
  }

  // A whole stream in whichever chunks it comes.
  method ReadFrames(chunks: seq<Bytes>) returns (frames: seq<Bytes>, rest: Bytes)
    ensures frames == Frames(Concat(chunks)) && rest == Remainder(Concat(chunks))
  {
    hide Frames, Remainder;
    var reader := new FrameReader();
    frames := [];
    NothingRead();
    for i := 0 to |chunks|
      invariant frames == Frames(Concat(chunks[..i])) && reader.buf == Remainder(Concat(chunks[..i]))
    {
      var more := reader.Feed(chunks[i]);
      frames := frames + more;
      ConcatLast(chunks[..i], chunks[i]);
      FramesConcat(Concat(chunks[..i]), chunks[i]);
      assert chunks[..i + 1] == chunks[..i] + [chunks[i]];
    }
    assert chunks[..|chunks|] == chunks;
    rest := reader.buf;
  }

  lemma NothingRead()
    ensures Frames([]) == [] && Remainder([]) == []
  {
  }

  lemma {:induction false} ConcatLast(chunks: seq<Bytes>, c: Bytes)
    ensures Concat(chunks + [c]) == Concat(chunks) + c
    decreases |chunks|
  {
    if chunks == [] {
      assert [c][1..] == [];
    } else {
      assert (chunks + [c])[1..] == chunks[1..] + [c];
      ConcatLast(chunks[1..], c);
    }
  }

  // However the stream is split, the reader emits exactly the frames that were
  // written, in order, and keeps only an incomplete end.
  lemma AnySplitDelivers(chunks: seq<Bytes>, frames: seq<Bytes>, more: Bytes)
    requires AllShort(frames) && Concat(chunks) == Written(frames) + more && !HasFrame(more)
    ensures Frames(Concat(chunks)) == frames && Remainder(Concat(chunks)) == more
  {
    hide HasFrame, Written;
    WrittenThenMore(frames, more);
    NoFrame(more);
    assert frames + [] == frames;
  }

  lemma NoFrame(more: Bytes)
    requires !HasFrame(more)
    ensures Frames(more) == [] && Remainder(more) == more
  {
  }

  // No two lists of frames are written as the same bytes.
  lemma WrittenIsUnique(a: seq<Bytes>, b: seq<Bytes>)
    requires AllShort(a) && AllShort(b) && Written(a) == Written(b)
    ensures a == b
  {
    hide Written, Frames, Remainder, AllShort;
    WrittenThenMore(a, []);
    WrittenThenMore(b, []);
    NothingRead();
    assert Written(a) + [] == Written(a) && Written(b) + [] == Written(b);
    assert a + [] == a && b + [] == b;
  }
}
