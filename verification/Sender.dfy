// The loop that batches a device's input reports into frames for one transport.
module Sender {
  import opened Common
  import opened Wire

  const MAX_READ_BUFFER := 4096

  // A report as the reader publishes it: its buffer is capped.
  type Published = r: InputReport | |r.data| <= MAX_READ_BUFFER witness InputReport(0, [])

  datatype Received = Report(device: nat, report: Published) | OtherEvent | Lagged | Closed

  // What a select, or a try, comes up with next.
  datatype Choice = Arrives(event: Received) | Empty | Tick | TimeUp | Cancelled | Revoked

  // The reports of one device among the events the sender received.
  function Reports(script: seq<Choice>, device: nat): seq<InputReport> {
    if script == [] then []
    else ReportOf(script[0], device) + Reports(script[1..], device)
  }

  function ReportOf(c: Choice, device: nat): seq<InputReport> {
    if c.Arrives? && c.event.Report? && c.event.device == device then [c.event.report] else []
  }

  lemma {:induction false} ReportsConcat(a: seq<Choice>, b: seq<Choice>, device: nat)
    ensures Reports(a + b, device) == Reports(a, device) + Reports(b, device)
    decreases |a|
  {
    if a == [] {
      assert a + b == b;
    } else {
      assert (a + b)[1..] == a[1..] + b;
      ReportsConcat(a[1..], b, device);
    }
  }

  function Batches(bs: seq<seq<InputReport>>): seq<InputReport> {
    if bs == [] then [] else bs[0] + Batches(bs[1..])
  }

  lemma {:induction false} BatchesLast(bs: seq<seq<InputReport>>, b: seq<InputReport>)
    ensures Batches(bs + [b]) == Batches(bs) + b
    decreases |bs|
  {
    if bs == [] {
      assert [b][1..] == [];
    } else {
      assert (bs + [b])[1..] == bs[1..] + [b];
      BatchesLast(bs[1..], b);
    }
  }

  // What the page parses out of the frames.
  function Parsed(frames: seq<seq<Byte>>): seq<Delivery> {
    if frames == [] then [] else Parse(frames[0], 1) + Parsed(frames[1..])
  }

  lemma {:induction false} ParsedLast(frames: seq<seq<Byte>>, f: seq<Byte>)
    ensures Parsed(frames + [f]) == Parsed(frames) + Parse(f, 1)
    decreases |frames|
  {
    hide Parse;
    if frames == [] {
      assert [f][1..] == [];
    } else {
      assert (frames + [f])[1..] == frames[1..] + [f];
      ParsedLast(frames[1..], f);
    }
  }

  lemma {:induction false} SeenConcat(a: seq<InputReport>, b: seq<InputReport>)
    ensures Seen(a + b) == Seen(a) + Seen(b)
    decreases |a|
  {
    if a == [] {
      assert a + b == b;
    } else {
      assert (a + b)[1..] == a[1..] + b;
      SeenConcat(a[1..], b);
    }
  }

  ghost predicate Undisturbed(script: seq<Choice>, alive: nat -> bool, sends: nat -> bool) {
    && (forall n: nat :: alive(n) && sends(n))
    && (forall i :: 0 <= i < |script| ==>
          !script[i].Cancelled? && !script[i].Revoked? && !(script[i].Arrives? && script[i].event.Closed?))
  }

  // A tick flushes the batch, and so does a channel that lost events.
  predicate Flushes(c: Choice) {
    c.Tick? || (c.Arrives? && c.event.Lagged?)
  }

  // What a sender that flushes by interval holds: the reports since the last flush.
  function HeldBack(script: seq<Choice>, device: nat): seq<InputReport>
    decreases |script|
  {
    if script == [] then []
    else
      var last := script[|script| - 1];
      if Flushes(last) then [] else HeldBack(script[..|script| - 1], device) + ReportOf(last, device)
  }

  // ------------------------------------------------------- who shares a frame

  // What the loop is doing: waiting for an event, taking what is there without waiting,
  // waiting out a window, or going by the interval.
  datatype Stage = Idle | Draining | Window | Ticking

  function Flushed(batch: seq<InputReport>, rest: seq<seq<InputReport>>): seq<seq<InputReport>> {
    if batch == [] then rest else [batch] + rest
  }

  // The batches sent from here on when nothing disturbs the loop.
  function Sent(script: seq<Choice>, stage: Stage, batch: seq<InputReport>, device: nat): seq<seq<InputReport>>
    decreases |script|, if stage.Draining? then 1 else 0
  {
    if script == [] then if stage.Ticking? then [] else Flushed(batch, [])
    else
      var c, rest := script[0], script[1..];
      if c.Arrives? && c.event.Lagged? then Flushed(batch, Sent(rest, After(stage), [], device))
      else if c.Arrives? then Sent(rest, After(stage), batch + ReportOf(c, device), device)
      else
        match stage
        case Idle => Sent(rest, Idle, batch, device)
        case Draining =>
          if |batch| > 1 then Sent(script, Window, batch, device) else Flushed(batch, Sent(script, Idle, [], device))
        case Window =>
          if c.TimeUp? then Flushed(batch, Sent(rest, Idle, [], device)) else Sent(rest, Window, batch, device)
        case Ticking =>
          if c.Tick? then Flushed(batch, Sent(rest, Ticking, [], device)) else Sent(rest, Ticking, batch, device)
  }

  function After(stage: Stage): Stage {
    if stage.Idle? then Draining else stage
  }

  lemma Pause(script: seq<Choice>, stage: Stage, batch: seq<InputReport>, device: nat)
    requires script != [] && !script[0].Arrives?
    ensures Sent(script, stage, batch, device) ==
      match stage
      case Idle => Sent(script[1..], Idle, batch, device)
      case Draining =>
        if |batch| > 1 then Sent(script, Window, batch, device) else Flushed(batch, Sent(script, Idle, [], device))
      case Window =>
        if script[0].TimeUp? then Flushed(batch, Sent(script[1..], Idle, [], device))
        else Sent(script[1..], Window, batch, device)
      case Ticking =>
        if script[0].Tick? then Flushed(batch, Sent(script[1..], Ticking, [], device))
        else Sent(script[1..], Ticking, batch, device)
  {
  }

  // Arrivals without a pause and without a lag.
  predicate Burst(cs: seq<Choice>) {
    forall i :: 0 <= i < |cs| ==> cs[i].Arrives? && !cs[i].event.Lagged?
  }

  lemma {:induction false} BurstIsTaken(
      cs: seq<Choice>, rest: seq<Choice>, stage: Stage, batch: seq<InputReport>, device: nat)
    requires Burst(cs) && cs != []
    ensures Sent(cs + rest, stage, batch, device) == Sent(rest, After(stage), batch + Reports(cs, device), device)
    decreases |cs|
  {
    hide ReportOf;
    var all := cs + rest;
    assert all[0] == cs[0] && all[1..] == cs[1..] + rest;
    var more := batch + ReportOf(cs[0], device);
    if |cs| == 1 {
      assert all[1..] == rest && cs[1..] == [];
      assert Reports(cs, device) == ReportOf(cs[0], device) + Reports([], device) == ReportOf(cs[0], device);
    } else {
      BurstIsTaken(cs[1..], rest, After(stage), more, device);
      assert more + Reports(cs[1..], device) == batch + Reports(cs, device);
    }
  }

  // What the batch holds leaves first, and together.
  lemma {:induction false} BatchLeavesFirst(script: seq<Choice>, stage: Stage, batch: seq<InputReport>, device: nat)
    requires batch != [] && !stage.Ticking?
    ensures var bs := Sent(script, stage, batch, device); bs != [] && batch <= bs[0]
    decreases |script|, if stage.Draining? then 1 else 0
  {
    if script != [] {
      var c, rest := script[0], script[1..];
      if c.Arrives? {
        if !c.event.Lagged? {
          BatchLeavesFirst(rest, After(stage), batch + ReportOf(c, device), device);
        }
      } else if stage.Idle? {
        BatchLeavesFirst(rest, Idle, batch, device);
      } else if stage.Draining? {
        if |batch| > 1 {
          BatchLeavesFirst(script, Window, batch, device);
        }
      } else if !c.TimeUp? {
        BatchLeavesFirst(rest, Window, batch, device);
      }
    }
  }

  // Reports that come without a pause share one frame, and one that comes alone is sent at
  // once.
  lemma BurstSharesFrame(cs: seq<Choice>, rest: seq<Choice>, device: nat)
    requires Burst(cs) && Reports(cs, device) != []
    ensures var bs := Sent(cs + rest, Idle, [], device); bs != [] && Reports(cs, device) <= bs[0]
    ensures |Reports(cs, device)| == 1 && rest != [] && !rest[0].Arrives? ==>
      Sent(cs + rest, Idle, [], device) == [Reports(cs, device)] + Sent(rest, Idle, [], device)
  {
    var burst := Reports(cs, device);
    BurstIsTaken(cs, rest, Idle, [], device);
    assert [] + burst == burst;
    BatchLeavesFirst(rest, Draining, burst, device);
  }

  // While the window lasts, whatever comes joins the batch.
  predicate Lasts(cs: seq<Choice>) {
    forall i :: 0 <= i < |cs| ==> !cs[i].TimeUp? && !(cs[i].Arrives? && cs[i].event.Lagged?)
  }

  lemma {:induction false} WindowGathers(cs: seq<Choice>, rest: seq<Choice>, batch: seq<InputReport>, device: nat)
    requires Lasts(cs)
    ensures Sent(cs + rest, Window, batch, device) == Sent(rest, Window, batch + Reports(cs, device), device)
    decreases |cs|
  {
    hide ReportOf;
    if cs == [] {
      assert cs + rest == rest && batch + Reports(cs, device) == batch;
    } else {
      var all := cs + rest;
      assert all[0] == cs[0] && all[1..] == cs[1..] + rest;
      var more := batch + ReportOf(cs[0], device);
      WindowGathers(cs[1..], rest, more, device);
      assert more + Reports(cs[1..], device) == batch + Reports(cs, device);
      NothingArrived(cs[0], batch, device);
    }
  }

  lemma NothingArrived(c: Choice, batch: seq<InputReport>, device: nat)
    ensures !c.Arrives? ==> batch + ReportOf(c, device) == batch
  {
  }

  // Two reports at once open a window: with all that comes until it ends they make one
  // frame.
  lemma WindowSharesFrame(cs: seq<Choice>, ds: seq<Choice>, rest: seq<Choice>, device: nat)
    requires Burst(cs) && |Reports(cs, device)| > 1
    requires Lasts(ds) && ds != [] && !ds[0].Arrives?
    ensures Sent(cs + (ds + [TimeUp] + rest), Idle, [], device)
      == [Reports(cs, device) + Reports(ds, device)] + Sent(rest, Idle, [], device)
  {
    var tail := ds + [TimeUp] + rest;
    var burst := Reports(cs, device);
    BurstIsTaken(cs, tail, Idle, [], device);
    assert [] + burst == burst && tail[0] == ds[0];
    assert tail == ds + ([TimeUp] + rest);
    WindowGathers(ds, [TimeUp] + rest, burst, device);
    assert ([TimeUp] + rest)[1..] == rest;
  }

  // By the interval, everything since the last tick or lag goes in one frame.
  lemma {:induction false} TickSharesFrame(cs: seq<Choice>, rest: seq<Choice>, batch: seq<InputReport>, device: nat)
    requires forall i :: 0 <= i < |cs| ==> !Flushes(cs[i])
    ensures Sent(cs + [Tick] + rest, Ticking, batch, device)
      == Flushed(batch + Reports(cs, device), Sent(rest, Ticking, [], device))
    decreases |cs|
  {
    hide ReportOf;
    var all := cs + [Tick] + rest;
    if cs == [] {
      assert all == [Tick] + rest && all[1..] == rest && batch + Reports(cs, device) == batch;
    } else {
      assert all[0] == cs[0] && all[1..] == cs[1..] + [Tick] + rest;
      var more := batch + ReportOf(cs[0], device);
      TickSharesFrame(cs[1..], rest, more, device);
      assert more + Reports(cs[1..], device) == batch + Reports(cs, device);
      NothingArrived(cs[0], batch, device);
    }
  }

  class BatchSender {
    const device: nat
    const script: seq<Choice>
    // The capability and the flush callback, as they are at the n-th flush.
    const alive: nat -> bool
    const sends: nat -> bool
    var next: nat
    var attempts: nat
    var batch: seq<InputReport>
    // Frames whose flush succeeded.
    ghost var delivered: seq<seq<Byte>>
    // What was in them.
    ghost var sent: seq<seq<InputReport>>

    constructor (device: nat, script: seq<Choice>, alive: nat -> bool, sends: nat -> bool)
      ensures this.device == device && this.script == script && this.alive == alive && this.sends == sends
      ensures next == 0 && batch == [] && delivered == [] && sent == []
    {
      this.device, this.script, this.alive, this.sends := device, script, alive, sends;
      next, attempts, batch, delivered, sent := 0, 0, [], [], [];
    }

    // The events received so far.
    ghost function Consumed(): seq<InputReport>
      requires next <= |script|
      reads this
    {
      Reports(script[..next], device)
    }

    // Nothing lost, reordered or duplicated: the delivered frames and then the batch
    // hold exactly the reports received, and every payload fits its length.
    ghost predicate Lossless()
      reads this
    {
      && next <= |script|
      && AllFit(batch)
      && Parsed(delivered) + Seen(batch) == Seen(Consumed())
      && |sent| == |delivered| && forall i :: 0 <= i < |sent| ==> delivered[i] == BatchFrame(sent[i])
    }

    // What has been sent, and will be if nothing disturbs the loop from here on.
    ghost function Course(stage: Stage): seq<seq<InputReport>>
      requires next <= |script|
      reads this
    {
      sent + Sent(script[next..], stage, batch, device)
    }

    // No flush fails, the device stays and nobody cancels or revokes.
    ghost predicate Healthy() {
      Undisturbed(script, alive, sends)
    }

    // `flush_batch`: a failed flush keeps the batch.
    method FlushBatch() returns (ok: bool)
      requires Lossless()
      modifies `batch, `delivered, `sent, `attempts
      ensures Lossless()
      ensures ok <==> old(batch) == [] || (alive(old(attempts)) && sends(old(attempts)))
      ensures ok ==> batch == []
      ensures !ok ==> batch == old(batch)
      ensures delivered == old(delivered) + if ok && old(batch) != [] then [BatchFrame(old(batch))] else []
      ensures sent == old(sent) + if ok && old(batch) != [] then [old(batch)] else []
    {
      hide Parse, BatchFrame, Fits, Reports;
      if batch == [] {
        return true;
      }
      var n := attempts;
      attempts := attempts + 1;
      if !alive(n) {
        return false;
      }
      var frame := WriteBatchFrame(batch);
      if !sends(n) {
        return false;
      }
      BatchRoundTrip(batch);
      ParsedLast(delivered, frame);
      delivered := delivered + [frame];
      sent := sent + [batch];
      batch := [];
      assert Parsed(delivered) + Seen(batch) == Parsed(old(delivered)) + Seen(old(batch));
      ok := true;
    }

    // Takes the next event off the script.
    method Advance(r: seq<InputReport>)
      requires Lossless() && next < |script| && AllFit(r) && ReportOf(script[next], device) == r
      modifies `batch, `next
      ensures Lossless() && next == old(next) + 1 && batch == old(batch) + r
    {
      hide Parsed, Seen, Fits, ReportOf;
      ReportsConcat(script[..next], [script[next]], device);
      assert script[..next + 1] == script[..next] + [script[next]];
      OneReport(script[next]);
      SeenConcat(batch, r);
      SeenConcat(Consumed(), r);
      assert Parsed(delivered) + Seen(batch) + Seen(r) == Parsed(delivered) + (Seen(batch) + Seen(r));
      batch := batch + r;
      next := next + 1;
    }

    // Nothing has arrived.
    method Skip()
      requires Lossless() && next < |script| && !script[next].Arrives?
      modifies `batch, `next
      ensures Lossless() && next == old(next) + 1 && batch == old(batch)
    {
      Advance([]);
    }

    lemma OneReport(c: Choice)
      ensures Reports([c], device) == ReportOf(c, device)
    {
      assert [c][1..] == [];
    }

    lemma FlushAppends(before: seq<seq<InputReport>>, held: seq<InputReport>, rest: seq<seq<InputReport>>)
      ensures before + Flushed(held, rest) == before + (if held != [] then [held] else []) + rest
    {
      assert before + ([held] + rest) == before + [held] + rest;
    }

    // An event taken, and the batch flushed if it is a lag.
    lemma Taken(at: nat, stage: Stage, held: seq<InputReport>)
      requires at < |script| && script[at].Arrives?
      ensures Sent(script[at..], stage, held, device)
        == if script[at].event.Lagged? then Flushed(held, Sent(script[at + 1..], After(stage), [], device))
           else Sent(script[at + 1..], After(stage), held + ReportOf(script[at], device), device)
    {
      assert script[at..][1..] == script[at + 1..];
    }

    // `handle_event`
    method HandleEvent(ghost stage: Stage) returns (ok: bool)
      requires Lossless() && next < |script| && script[next].Arrives?
      modifies `batch, `next, `delivered, `sent, `attempts
      ensures Lossless() && next == old(next) + 1 && old(delivered) <= delivered
      ensures script[old(next)].event.Closed? ==> !ok
      ensures Healthy() ==> ok
      ensures script[old(next)].event.Report? || script[old(next)].event.OtherEvent? ==> ok
      ensures !script[old(next)].event.Lagged? ==>
        batch == old(batch) + ReportOf(script[old(next)], device) && delivered == old(delivered)
      ensures script[old(next)].event.Lagged? ==> batch == if ok then [] else old(batch)
      ensures Healthy() ==> Course(After(stage)) == old(Course(stage))
    {
      hide Sent, Parsed, Reports;
      Taken(next, stage, batch);
      FlushAppends(sent, batch, Sent(script[next + 1..], After(stage), [], device));
      var c := script[next];
      match c.event {
        case Report(d, report) =>
          Advance(if d == device then [report] else []);
          ok := true;
        case OtherEvent =>
          Advance([]);
          ok := true;
        case Lagged =>
          Advance([]);
          assert batch == old(batch);
          ok := FlushBatch();
        case Closed =>
          Advance([]);
          ok := false;
      }
    }

    // `drain_available` takes all that is there.  It stops early only behind a closed
    // channel or a lag whose flush failed, and its caller goes on in any case.
    method DrainAvailable(ghost stage: Stage)
      requires Lossless()
      modifies `batch, `next, `delivered, `sent, `attempts
      ensures Lossless() && next >= old(next) && old(delivered) <= delivered
      ensures forall i :: old(next) <= i < next ==> script[i].Arrives?
      ensures next < |script| && script[next].Arrives? ==>
        next > old(next) && (script[next - 1].event.Closed? || script[next - 1].event.Lagged?)
      ensures Healthy() ==> next == |script| || !script[next].Arrives?
      ensures Healthy() && stage != Idle ==> Course(stage) == old(Course(stage))
    {
      hide Sent, Parsed, Reports, Undisturbed;
      while next < |script| && script[next].Arrives?
        invariant Lossless() && next >= old(next) && old(delivered) <= delivered
        invariant forall i :: old(next) <= i < next ==> script[i].Arrives?
        invariant Healthy() && stage != Idle ==> Course(stage) == old(Course(stage))
        decreases |script| - next
      {
        var ok := HandleEvent(stage);
        if !ok {
          break;
        }
      }
    }

    // `coalesce_window`: the window ends when the script says so.
    method CoalesceWindow() returns (ok: bool)
      requires Lossless()
      modifies `batch, `next, `delivered, `sent, `attempts
      ensures Healthy() ==> ok
      ensures Lossless() && next >= old(next) && old(delivered) <= delivered
      ensures Healthy() ==>
        sent + Flushed(batch, Sent(script[next..], Idle, [], device)) == old(Course(Window))
    {
      hide Sent, Parsed, Reports;
      while next < |script|
        invariant Lossless() && next >= old(next) && old(delivered) <= delivered
        invariant Healthy() ==> Course(Window) == old(Course(Window))
        decreases |script| - next
      {
        var c := script[next];
        if c.Cancelled? || c.Revoked? {
          return false;
        }
        if c.Arrives? {
          ok := HandleEvent(Window);
          if !ok {
            return false;
          }
          DrainAvailable(Window);
        } else {
          NoArrival(next, batch);
          Skip();
          if c.TimeUp? {
            return true;
          }
        }
      }
      NothingLeft(batch);
      ok := true;
    }

    lemma NothingLeft(held: seq<InputReport>)
      ensures script[|script|..] == [] && Sent([], Idle, [], device) == [] && Sent([], Ticking, held, device) == []
      ensures Sent([], Window, held, device) == Flushed(held, []) == Sent([], Draining, held, device)
    {
    }

    // Nothing comes, and perhaps a window or an interval ends.
    lemma NoArrival(at: nat, held: seq<InputReport>)
      requires at < |script| && !script[at].Arrives?
      ensures var now, later := script[at..], script[at + 1..];
        && Sent(now, Idle, held, device) == Sent(later, Idle, held, device)
        && Sent(now, Draining, held, device)
           == (if |held| > 1 then Sent(now, Window, held, device) else Flushed(held, Sent(now, Idle, [], device)))
        && Sent(now, Window, held, device)
           == (if script[at].TimeUp? then Flushed(held, Sent(later, Idle, [], device))
               else Sent(later, Window, held, device))
        && Sent(now, Ticking, held, device)
           == (if script[at].Tick? then Flushed(held, Sent(later, Ticking, [], device))
               else Sent(later, Ticking, held, device))
    {
      hide Sent, Flushed;
      assert script[at..][1..] == script[at + 1..];
      Pause(script[at..], Idle, held, device);
      Pause(script[at..], Draining, held, device);
      Pause(script[at..], Window, held, device);
      Pause(script[at..], Ticking, held, device);
    }

    // The adaptive loop of `run_sender`.  Whenever it waits for the next event
    // nothing is held back.
    method RunAdaptive()
      requires Lossless() && batch == []
      modifies `batch, `next, `delivered, `sent, `attempts
      ensures Healthy() ==> next == |script| && batch == []
      ensures Lossless() && next >= old(next) && old(delivered) <= delivered
      ensures Healthy() ==> sent == old(Course(Idle))
    {
      hide Parsed, Seen, Reports, ReportOf, BatchFrame, Sent;
      EmptyBatch();
      while next < |script|
        invariant Lossless() && next >= old(next) && old(delivered) <= delivered
        invariant batch == []
        invariant Parsed(delivered) == Seen(Consumed())
        invariant Healthy() ==> Course(Idle) == old(Course(Idle))
        decreases |script| - next
      {
        var c := script[next];
        if c.Cancelled? || c.Revoked? {
          return;
        }
        if !c.Arrives? {
          NoArrival(next, batch);
          Skip();
          EmptyBatch();
          continue;
        }
        var ok := TakeTurn();
        if !ok {
          return;
        }
        EmptyBatch();
      }
      NothingLeft(batch);
    }

    // One turn of that loop: what is there, perhaps a window, and one flush.
    method TakeTurn() returns (ok: bool)
      requires Lossless() && batch == [] && next < |script| && script[next].Arrives?
      modifies `batch, `next, `delivered, `sent, `attempts
      ensures Lossless() && next > old(next) && old(delivered) <= delivered
      ensures ok ==> batch == []
      ensures Healthy() ==> ok && Course(Idle) == old(Course(Idle))
    {
      hide Parsed, Seen, Reports, ReportOf, BatchFrame, Sent;
      ok := HandleEvent(Idle);
      if !ok {
        return;
      }
      DrainAvailable(Draining);
      AfterDrain(next, batch);
      if |batch| > 1 {
        ok := CoalesceWindow();
        if !ok {
          return;
        }
      }
      FlushAppends(sent, batch, Sent(script[next..], Idle, [], device));
      ok := FlushBatch();
    }

    // Once nothing more is there: a window for two or more, a flush for fewer.
    lemma AfterDrain(at: nat, held: seq<InputReport>)
      requires at <= |script|
      ensures at == |script| || !script[at].Arrives? ==>
        Sent(script[at..], Draining, held, device)
        == if |held| > 1 then Sent(script[at..], Window, held, device)
           else Flushed(held, Sent(script[at..], Idle, [], device))
    {
      if at < |script| {
        if !script[at].Arrives? {
          NoArrival(at, held);
        }
      } else {
        NothingLeft(held);
      }
    }

    lemma EmptyBatch()
      requires Lossless() && batch == []
      ensures Parsed(delivered) == Seen(Consumed())
    {
      assert Parsed(delivered) + [] == Parsed(delivered);
    }

    // The loop with a fixed flush interval.  It holds exactly the reports since the last
    // tick or lag, unless it stopped at one of these because the flush failed.
    method RunInterval()
      requires Lossless() && batch == HeldBack(script[..next], device)
      modifies `batch, `next, `delivered, `sent, `attempts
      ensures Healthy() ==> next == |script|
      ensures Lossless() && next >= old(next) && old(delivered) <= delivered
      ensures || batch == HeldBack(script[..next], device)
              || (next > 0 && Flushes(script[next - 1]) && batch == HeldBack(script[..next - 1], device))
      ensures Healthy() ==> batch == HeldBack(script[..next], device) && sent == old(Course(Ticking))
    {
      hide Parsed, Seen, Reports, ReportOf, BatchFrame, HeldBack, AllFit, Sent;
      while next < |script|
        invariant Lossless() && next >= old(next) && old(delivered) <= delivered
        invariant Healthy() ==> Course(Ticking) == old(Course(Ticking))
        invariant batch == HeldBack(script[..next], device)
        decreases |script| - next
      {
        OneMoreHeld(next);
        var c := script[next];
        if c.Cancelled? || c.Revoked? {
          return;
        }
        if c.Arrives? {
          var ok := HandleEvent(Ticking);
          if !ok {
            return;
          }
        } else {
          NoArrival(next, batch);
          Skip();
          if c.Tick? {
            var ok := FlushBatch();
            if !ok {
              return;
            }
          }
        }
      }
      NothingLeft(batch);
    }

    lemma OneMoreHeld(i: nat)
      requires i < |script|
      ensures HeldBack(script[..i + 1], device)
        == if Flushes(script[i]) then [] else HeldBack(script[..i], device) + ReportOf(script[i], device)
      ensures !script[i].Arrives? ==> ReportOf(script[i], device) == []
    {
      assert script[..i + 1][..i] == script[..i];
    }
  }

  // `run_sender` for one transport: what the page parses out of the frames it got,
  // and the batch still held, are the reports received up to that point, in order.
  method RunSender(device: nat, script: seq<Choice>, alive: nat -> bool, sends: nat -> bool, interval: bool,
      ready: bool)
    returns (received: nat, ghost frames: seq<seq<Byte>>, held: seq<InputReport>)
    ensures received <= |script|
    ensures Parsed(frames) + Seen(held) == Seen(Reports(script[..received], device))
    ensures ready && Undisturbed(script, alive, sends) ==>
      && received == |script| && held == (if interval then HeldBack(script, device) else [])
      && (var bs := Sent(script, if interval then Ticking else Idle, [], device);
          |frames| == |bs| && forall i :: 0 <= i < |bs| ==> frames[i] == BatchFrame(bs[i]))
    ensures !ready ==> received == 0 && frames == [] && held == []
  {
    var sender := new BatchSender(device, script, alive, sends);
    if ready {
      if interval {
        sender.RunInterval();
      } else {
        sender.RunAdaptive();
      }
    }
    received, frames, held := sender.next, sender.delivered, sender.batch;
    assert script[..|script|] == script && script[0..] == script;
  }
}
