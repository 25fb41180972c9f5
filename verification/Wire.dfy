// The frames between daemon and page worker: batches of input reports, requests and
// their responses.
module Wire {
  import opened Common
  import opened Tlv
  import opened TlvProofs

  datatype InputReport = InputReport(id: Byte, data: seq<Byte>)

  // What the page is given; an empty payload arrives as null.
  datatype Delivery = Delivery(id: Byte, data: Option<seq<Byte>>)

  const MSG_INPUT_BATCH: Byte := 0x00
  const MSG_SEND_REPORT: Byte := 0x01
  const MSG_SEND_FEATURE_REPORT: Byte := 0x02
  const MSG_RECEIVE_FEATURE_REPORT: Byte := 0x03
  const RESP_SEND_REPORT: Byte := 0x81
  const RESP_SEND_FEATURE_REPORT: Byte := 0x82
  const RESP_RECEIVE_FEATURE_REPORT: Byte := 0x83

  // --------------------------------------------------------- input batches

  function Entry(r: InputReport): seq<Byte> {
    Le(AsU16(1 + |r.data|), 2) + [r.id] + r.data
  }

  function Entries(rs: seq<InputReport>): seq<Byte> {
    if rs == [] then [] else Entry(rs[0]) + Entries(rs[1..])
  }

  // `write_batch_frame`
  function BatchFrame(rs: seq<InputReport>): seq<Byte> {
    [MSG_INPUT_BATCH] + Entries(rs)
  }

  function AsDelivery(id: Byte, data: seq<Byte>): Delivery {
    Delivery(id, if data == [] then None else Some(data))
  }

  function LengthAt(batch: seq<Byte>, off: nat): U16
    requires off + 1 < |batch|
  {
    (batch[off] as int) + 0x100 * (batch[off + 1] as int)
  }

  // `parseInputReports`
  function Parse(batch: seq<Byte>, off: nat): seq<Delivery>
    decreases if off < |batch| then |batch| - off else 0
  {
    if off + 1 >= |batch| then []
    else
      var len := LengthAt(batch, off);
      if len == 0 || off + 2 + len > |batch| then []
      else [AsDelivery(batch[off + 2], batch[off + 3..off + 2 + len])] + Parse(batch, off + 2 + len)
  }

  function Seen(rs: seq<InputReport>): seq<Delivery> {
    if rs == [] then [] else [AsDelivery(rs[0].id, rs[0].data)] + Seen(rs[1..])
  }

  predicate Fits(r: InputReport) {
    1 + |r.data| < U16_LIMIT
  }

  predicate AllFit(rs: seq<InputReport>) {
    forall r :: r in rs ==> Fits(r)
  }

  lemma EntryHeader(data: seq<Byte>, off: nat, r: InputReport)
    requires At(data, off, Entry(r))
    ensures |Entry(r)| == 3 + |r.data| && off + |Entry(r)| <= |data|
    ensures LengthAt(data, off) == AsU16(1 + |r.data|)
    ensures data[off + 2] == r.id && data[off + 3..off + 3 + |r.data|] == r.data
  {
    var len := AsU16(1 + |r.data|);
    var head := Le(len, 2);
    LeRoundTrip(len, 2);
    Powers();
    AtSplit(data, off, head + [r.id], r.data);
    AtSplit(data, off, head, [r.id]);
    AtSlice(data, off + 3, r.data);
    AtFirst(data, off + 2, r.id, []);
    ByteAt(data, off, head, 0);
    ByteAt(data, off, head, 1);
    assert FromLe(head) == head[0] + 0x100 * FromLe(head[1..]);
    assert FromLe(head[1..]) == head[1] + 0x100 * FromLe(head[1..][1..]);
  }

  // From wherever the parser stands, it reads back exactly the reports that follow,
  // if and only if each payload fits its 16-bit length.
  lemma {:induction false} EntriesParse(data: seq<Byte>, off: nat, rs: seq<InputReport>)
    requires At(data, off, Entries(rs)) && off + |Entries(rs)| == |data|
    ensures Parse(data, off) == Seen(rs) <==> AllFit(rs)
    decreases |rs|
  {
    if rs == [] {
      assert Parse(data, off) == [];
    } else {
      var r := rs[0];
      hide At, Entry, Parse, Fits, LengthAt;
      AtSplit(data, off, Entry(r), Entries(rs[1..]));
      EntryHeader(data, off, r);
      if Fits(r) {
        EntriesParse(data, off + |Entry(r)|, rs[1..]);
        ParseFits(data, off, r);
        assert AllFit(rs) <==> AllFit(rs[1..]);
        SameTail(AsDelivery(r.id, r.data), Parse(data, off + |Entry(r)|), Seen(rs[1..]));
      } else {
        ParseMisreads(data, off, r);
        assert r in rs;
      }
    }
  }

  lemma SameTail<T>(x: T, a: seq<T>, b: seq<T>)
    ensures [x] + a == [x] + b <==> a == b
  {
    assert ([x] + a)[1..] == a && ([x] + b)[1..] == b;
  }

  lemma ParseFits(data: seq<Byte>, off: nat, r: InputReport)
    requires off + 3 + |r.data| <= |data| && Fits(r)
    requires LengthAt(data, off) == AsU16(1 + |r.data|)
    requires data[off + 2] == r.id && data[off + 3..off + 3 + |r.data|] == r.data
    ensures Parse(data, off) == [AsDelivery(r.id, r.data)] + Parse(data, off + 3 + |r.data|)
  {
  }

  // A length that wrapped stops the parser or cuts the payload short.
  lemma ParseMisreads(data: seq<Byte>, off: nat, r: InputReport)
    requires off + 3 + |r.data| <= |data| && !Fits(r)
    requires LengthAt(data, off) == AsU16(1 + |r.data|)
    ensures Parse(data, off) == [] || Parse(data, off)[0] != AsDelivery(r.id, r.data)
  {
    var len := LengthAt(data, off);
    assert len < 1 + |r.data|;
    if len != 0 {
      assert |data[off + 3..off + 2 + len]| < |r.data|;
    }
  }

  lemma BatchRoundTrip(rs: seq<InputReport>)
    ensures Parse(BatchFrame(rs), 1) == Seen(rs) <==> AllFit(rs)
  {
    var data := BatchFrame(rs);
    AtSlice(data, 1, Entries(rs));
    assert data[1..1 + |Entries(rs)|] == Entries(rs);
    EntriesParse(data, 1, rs);
  }

  method WriteBatchFrame(reports: seq<InputReport>) returns (out: seq<Byte>)
    ensures out == BatchFrame(reports)
  {
    hide Le;
    out := [MSG_INPUT_BATCH];
    for i := 0 to |reports|
      invariant out == BatchFrame(reports[..i])
    {
      var len := AsU16(1 + |reports[i].data|);
      LittleEndian(len);
      out := out + [len % 0x100] + [len / 0x100 % 0x100] + [reports[i].id] + reports[i].data;
      EntriesLast(reports[..i], reports[i]);
      assert reports[..i + 1] == reports[..i] + [reports[i]];
    }
    assert reports[..|reports|] == reports;
  }

  lemma LittleEndian(len: U16)
    ensures Le(len, 2) == [len % 0x100, len / 0x100 % 0x100]
  {
    assert Le(len / 0x100, 1) == [len / 0x100 % 0x100];
  }

  lemma {:induction false} EntriesLast(rs: seq<InputReport>, r: InputReport)
    ensures Entries(rs + [r]) == Entries(rs) + Entry(r)
    decreases |rs|
  {
    hide Entry;
    if rs == [] {
      assert [r][1..] == [];
    } else {
      assert (rs + [r])[1..] == rs[1..] + [r];
      EntriesLast(rs[1..], r);
    }
  }

  method ParseInputReports(batch: seq<Byte>, offset: nat) returns (reports: seq<Delivery>)
    ensures reports == Parse(batch, offset)
  {
    reports := [];
    var off := offset;
    while off + 1 < |batch|
      invariant reports + Parse(batch, off) == Parse(batch, offset)
      decreases |batch| - off
    {
      var len := LengthAt(batch, off);
      off := off + 2;
      if len == 0 || off + len > |batch| {
        return;
      }
      var id := batch[off];
      var payload := batch[off + 1..off + len];
      reports := reports + [if |payload| > 0 then Delivery(id, Some(payload)) else Delivery(id, None)];
      off := off + len;
    }
  }

  // ------------------------------------------------ requests and responses

  function SendFrame(kind: Byte, reqId: U32, reportId: Byte, payload: seq<Byte>): seq<Byte> {
    [kind] + Le(reqId, 4) + [reportId] + payload
  }

  datatype Request = Ignored | Request(kind: Byte, reqId: U32, body: seq<Byte>)

  // How the daemon reads a client frame.
  function ReadRequest(frame: seq<Byte>): Request {
    if |frame| < 5 then Ignored else Request(frame[0], U32At(frame, 1), frame[5..])
  }

  function StatusResponse(kind: Byte, reqId: U32, status: Byte): seq<Byte> {
    [kind] + Le(reqId, 4) + [status]
  }

  function FeatureResponse(reqId: U32, status: Byte, data: seq<Byte>): seq<Byte> {
    if |data| > 0xFFFF then [RESP_RECEIVE_FEATURE_REPORT] + Le(reqId, 4) + [1] + Le(0, 2)
    else [RESP_RECEIVE_FEATURE_REPORT] + Le(reqId, 4) + [status] + Le(|data|, 2) + data
  }

  datatype Verdict = Blocked | ReadFailed | ShortResponse | WriteFailed(status: Byte) | Written | Data(bytes: seq<Byte>)

  // `handleControlResponse`, once the pending entry is found.
  function ReadVerdict(batch: seq<Byte>): Verdict
    requires |batch| >= 6
  {
    var status := batch[5];
    if batch[0] == RESP_RECEIVE_FEATURE_REPORT then
      if status == 2 then Blocked
      else if status != 0 then ReadFailed
      else if |batch| < 8 then ShortResponse
      else
        var len := U16At(batch, 6);
        Data(if |batch| >= 8 + len then batch[8..8 + len] else seq(len, i => 0))
    else if status == 0 then Written
    else if status == 2 then Blocked
    else WriteFailed(status)
  }

  lemma HeaderReads(kind: Byte, reqId: U32, rest: seq<Byte>)
    ensures var f := [kind] + Le(reqId, 4) + rest;
      |f| == 5 + |rest| && f[0] == kind && U32At(f, 1) == reqId && f[5..] == rest
  {
    hide At;
    LeLength(reqId, 4);
    var f := [kind] + Le(reqId, 4) + rest;
    AtSlice(f, 1, Le(reqId, 4));
    assert f[1..5] == Le(reqId, 4);
    Le4(f, 1, reqId);
  }

  // The daemon reads the kind, the id, and the report id followed by the payload.
  lemma RequestRoundTrip(kind: Byte, reqId: U32, reportId: Byte, payload: seq<Byte>)
    ensures ReadRequest(SendFrame(kind, reqId, reportId, payload)) == Request(kind, reqId, [reportId] + payload)
  {
    HeaderReads(kind, reqId, [reportId] + payload);
    assert SendFrame(kind, reqId, reportId, payload) == [kind] + Le(reqId, 4) + ([reportId] + payload);
  }

  // The page settles the request it was sent for, as the daemon decided.
  lemma StatusRoundTrip(kind: Byte, reqId: U32, status: Byte)
    requires kind == RESP_SEND_REPORT || kind == RESP_SEND_FEATURE_REPORT
    ensures var f := StatusResponse(kind, reqId, status);
      && |f| >= 6 && U32At(f, 1) == reqId
      && ReadVerdict(f) == if status == 0 then Written else if status == 2 then Blocked else WriteFailed(status)
  {
    HeaderReads(kind, reqId, [status]);
  }

  // A feature read arrives whole, or as a failure if it was one or does not fit.
  lemma FeatureRoundTrip(reqId: U32, status: Byte, data: seq<Byte>)
    ensures var f := FeatureResponse(reqId, status, data);
      && |f| >= 6 && U32At(f, 1) == reqId
      && ReadVerdict(f) == if |data| > 0xFFFF then ReadFailed else if status == 2 then Blocked
                           else if status != 0 then ReadFailed else Data(data)
  {
    hide At;
    var large := |data| > 0xFFFF;
    var len := if large then 0 else |data|;
    var body := if large then [] else data;
    var rest := [if large then 1 else status] + Le(len, 2) + body;
    LeLength(len, 2);
    HeaderReads(RESP_RECEIVE_FEATURE_REPORT, reqId, rest);
    var f := FeatureResponse(reqId, status, data);
    assert f == [RESP_RECEIVE_FEATURE_REPORT] + Le(reqId, 4) + rest;
    assert f[5..] == rest;
    assert f[5] == rest[0];
    AtSlice(f, 6, Le(len, 2));
    assert f[6..8] == f[5..][1..3] == Le(len, 2);
    Le2(f, 6, len);
    assert f[8..8 + len] == f[5..][3..3 + len] == body;
  }
}
