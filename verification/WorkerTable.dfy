// The page worker's request table: queued until the transport is open, pending until
// answered, answered once.
module WorkerTable {
  import opened Common
  import opened Wire
  import opened Tlv

  const MAX_PREOPEN := 1024

  // A request is known by the order in which it was given.
  type Ticket = nat
  type WireId = nat

  datatype Kind = Send(wellFormed: bool) | SendFeature(wellFormed: bool) | ReceiveFeature | Unknown

  datatype Message = Message(ticket: Ticket, kind: Kind)

  // JavaScript maps keep the order of insertion.
  datatype Pending = Pending(wire: WireId, ticket: Ticket)

  datatype Table = Table(
    given: nat,
    nextReqId: WireId,
    preOpen: seq<Message>,
    pending: seq<Pending>,
    replied: seq<Ticket>,
    ignored: seq<Ticket>)

  const NEW_TABLE := Table(0, 1, [], [], [], [])

  // The transport as one message finds it: open or not, and whether a send succeeds.
  datatype Link = Link(open: bool, sends: bool)

  datatype Event =
    | Given(kind: Kind, link: Link)
    | Ready(links: seq<Link>)
    | ClosedDown
    | Response(wire: WireId)
    | TimedOut(wire: WireId)

  // --------------------------------------------------------------- handlers

  function Reply(s: Table, t: Ticket): Table {
    s.(replied := s.replied + [t])
  }

  // Sent at once, or answered at once when the send fails.
  function Transmit(s: Table, m: Message, link: Link): Table {
    var taken := s.(nextReqId := s.nextReqId + 1);
    if link.sends then taken.(pending := taken.pending + [Pending(s.nextReqId, m.ticket)]) else Reply(taken, m.ticket)
  }

  // `handleDataPortMessage`
  function Handle(s: Table, m: Message, link: Link): Table {
    if !link.open then
      if |s.preOpen| >= MAX_PREOPEN then Reply(s, m.ticket) else s.(preOpen := s.preOpen + [m])
    else
      match m.kind
      case Send(ok) => if ok then Transmit(s, m, link) else Reply(s, m.ticket)
      case SendFeature(ok) => if ok then Transmit(s, m, link) else Reply(s, m.ticket)
      case ReceiveFeature => Transmit(s, m, link)
      case Unknown => s.(ignored := s.ignored + [m.ticket])
  }

  function LinkAt(links: seq<Link>, i: nat): Link {
    if i < |links| then links[i] else Link(false, false)
  }

  function HandleAll(s: Table, ms: seq<Message>, links: seq<Link>, i: nat): Table
    decreases |ms|
  {
    if ms == [] then s else HandleAll(Handle(s, ms[0], LinkAt(links, i)), ms[1..], links, i + 1)
  }

  function Tickets(ms: seq<Message>): seq<Ticket> {
    if ms == [] then [] else [ms[0].ticket] + Tickets(ms[1..])
  }

  function Waiting(ps: seq<Pending>): seq<Ticket> {
    if ps == [] then [] else [ps[0].ticket] + Waiting(ps[1..])
  }

  // The first entry of this wire id, if there is one.
  function Find(ps: seq<Pending>, wire: WireId): (i: nat)
    ensures i <= |ps|
    ensures i < |ps| ==> ps[i].wire == wire
    ensures forall j :: 0 <= j < i ==> ps[j].wire != wire
  {
    if ps == [] then 0 else if ps[0].wire == wire then 0 else 1 + Find(ps[1..], wire)
  }

  // A response or the deadline settles a pending request; later ones find nothing.
  function Settle(s: Table, wire: WireId): Table {
    var i := Find(s.pending, wire);
    if i == |s.pending| then s
    else Reply(s.(pending := s.pending[..i] + s.pending[i + 1..]), s.pending[i].ticket)
  }

  function Step(s: Table, e: Event): Table {
    match e
    case Given(kind, link) => Handle(s.(given := s.given + 1), Message(s.given, kind), link)
    case Ready(links) => HandleAll(s.(preOpen := []), s.preOpen, links, 0)
    case ClosedDown =>
      s.(pending := [], preOpen := [], replied := s.replied + Waiting(s.pending) + Tickets(s.preOpen))
    case Response(wire) => Settle(s, wire)
    case TimedOut(wire) => Settle(s, wire)
  }

  function After(s: Table, es: seq<Event>): Table
    decreases |es|
  {
    if es == [] then s else After(Step(s, es[0]), es[1..])
  }

  // ------------------------------------------------------------ conservation

  function Count(ts: seq<Ticket>, t: Ticket): nat {
    multiset(ts)[t]
  }

  // In how many places a request is.
  function Places(s: Table, t: Ticket): nat {
    Count(Tickets(s.preOpen), t) + Count(Waiting(s.pending), t) + Count(s.replied, t) + Count(s.ignored, t)
  }

  ghost predicate EachOnce(s: Table) {
    forall t: Ticket :: Places(s, t) == if t < s.given then 1 else 0
  }

  // The table never overflows, and no two pending requests share a wire id.
  ghost predicate TableOk(s: Table) {
    && |s.preOpen| <= MAX_PREOPEN
    && (forall p :: p in s.pending ==> p.wire < s.nextReqId)
    && (forall i, j :: 0 <= i < j < |s.pending| ==> s.pending[i].wire != s.pending[j].wire)
  }

  ghost predicate Inv(s: Table) {
    EachOnce(s) && TableOk(s)
  }

  lemma CountConcat(a: seq<Ticket>, b: seq<Ticket>, t: Ticket)
    ensures Count(a + b, t) == Count(a, t) + Count(b, t)
  {
  }

  lemma CountOne(x: Ticket, t: Ticket)
    ensures Count([x], t) == if t == x then 1 else 0
  {
  }

  lemma {:induction false} TicketsConcat(a: seq<Message>, b: seq<Message>)
    ensures Tickets(a + b) == Tickets(a) + Tickets(b)
    decreases |a|
  {
    if a == [] {
      assert a + b == b;
    } else {
      assert (a + b)[1..] == a[1..] + b;
      TicketsConcat(a[1..], b);
    }
  }

  lemma {:induction false} WaitingConcat(a: seq<Pending>, b: seq<Pending>)
    ensures Waiting(a + b) == Waiting(a) + Waiting(b)
    decreases |a|
  {
    if a == [] {
      assert a + b == b;
    } else {
      assert (a + b)[1..] == a[1..] + b;
      WaitingConcat(a[1..], b);
    }
  }

  lemma OneMessage(m: Message)
    ensures Tickets([m]) == [m.ticket]
  {
    assert [m][1..] == [];
  }

  lemma OnePending(p: Pending)
    ensures Waiting([p]) == [p.ticket]
  {
    assert [p][1..] == [];
  }

  // Handling a message puts its ticket in exactly one place.
  lemma HandleConserves(s: Table, m: Message, link: Link, t: Ticket)
    ensures Places(Handle(s, m, link), t) == Places(s, t) + if t == m.ticket then 1 else 0
  {
    hide Count;
    TicketsConcat(s.preOpen, [m]);
    OneMessage(m);
    WaitingConcat(s.pending, [Pending(s.nextReqId, m.ticket)]);
    OnePending(Pending(s.nextReqId, m.ticket));
    CountOne(m.ticket, t);
    CountConcat(Tickets(s.preOpen), [m.ticket], t);
    CountConcat(Waiting(s.pending), [m.ticket], t);
    CountConcat(s.replied, [m.ticket], t);
    CountConcat(s.ignored, [m.ticket], t);
  }

  lemma HandleKeeps(s: Table, m: Message, link: Link)
    requires TableOk(s)
    ensures TableOk(Handle(s, m, link)) && Handle(s, m, link).given == s.given
    ensures |Handle(s, m, link).preOpen| <= |s.preOpen| + 1
  {
  }

  lemma {:induction false} HandleAllConserves(s: Table, ms: seq<Message>, links: seq<Link>, i: nat, t: Ticket)
    ensures Places(HandleAll(s, ms, links, i), t) == Places(s, t) + Count(Tickets(ms), t)
    decreases |ms|
  {
    hide Handle, Places, Count;
    if ms == [] {
      CountNone(t);
    } else {
      var m := ms[0];
      HandleConserves(s, m, LinkAt(links, i), t);
      HandleAllConserves(Handle(s, m, LinkAt(links, i)), ms[1..], links, i + 1, t);
      CountOne(m.ticket, t);
      CountConcat([m.ticket], Tickets(ms[1..]), t);
    }
  }

  lemma CountNone(t: Ticket)
    ensures Count([], t) == 0
  {
  }

  lemma {:induction false} HandleAllKeeps(s: Table, ms: seq<Message>, links: seq<Link>, i: nat)
    requires TableOk(s)
    ensures TableOk(HandleAll(s, ms, links, i)) && HandleAll(s, ms, links, i).given == s.given
    decreases |ms|
  {
    hide Handle, TableOk;
    if ms != [] {
      HandleKeeps(s, ms[0], LinkAt(links, i));
      HandleAllKeeps(Handle(s, ms[0], LinkAt(links, i)), ms[1..], links, i + 1);
    }
  }

  lemma SettleConserves(s: Table, wire: WireId, t: Ticket)
    ensures Places(Settle(s, wire), t) == Places(s, t)
  {
    hide Count;
    var i := Find(s.pending, wire);
    if i < |s.pending| {
      var front, entry, back := s.pending[..i], s.pending[i], s.pending[i + 1..];
      assert s.pending == front + [entry] + back;
      WaitingConcat(front + [entry], back);
      WaitingConcat(front, [entry]);
      WaitingConcat(front, back);
      OnePending(entry);
      CountConcat(Waiting(front) + [entry.ticket], Waiting(back), t);
      CountConcat(Waiting(front), [entry.ticket], t);
      CountConcat(Waiting(front), Waiting(back), t);
      CountConcat(s.replied, [entry.ticket], t);
    }
  }

  lemma SettleKeeps(s: Table, wire: WireId)
    requires TableOk(s)
    ensures TableOk(Settle(s, wire)) && Settle(s, wire).given == s.given
    ensures forall p :: p in Settle(s, wire).pending ==> p.wire != wire
  {
  }

  lemma ClosingConserves(s: Table, t: Ticket)
    ensures Places(Step(s, ClosedDown), t) == Places(s, t)
  {
    hide Count;
    CountNone(t);
    CountConcat(s.replied + Waiting(s.pending), Tickets(s.preOpen), t);
    CountConcat(s.replied, Waiting(s.pending), t);
    assert Tickets([]) == [] && Waiting([]) == [];
  }

  lemma ReadyConserves(s: Table, links: seq<Link>, t: Ticket)
    ensures Places(Step(s, Ready(links)), t) == Places(s, t)
  {
    hide Count, HandleAll;
    CountNone(t);
    assert Tickets([]) == [];
    HandleAllConserves(s.(preOpen := []), s.preOpen, links, 0, t);
  }

  lemma GivenConserves(s: Table, kind: Kind, link: Link, t: Ticket)
    ensures Places(Step(s, Given(kind, link)), t) == Places(s, t) + if t == s.given then 1 else 0
  {
    hide Count, Handle;
    HandleConserves(s.(given := s.given + 1), Message(s.given, kind), link, t);
  }

  lemma StepConserves(s: Table, e: Event, t: Ticket)
    ensures Places(Step(s, e), t) == Places(s, t) + if e.Given? && t == s.given then 1 else 0
  {
    hide Places, Handle, HandleAll, Settle;
    match e {
      case Given(kind, link) => GivenConserves(s, kind, link, t);
      case Ready(links) => ReadyConserves(s, links, t);
      case ClosedDown => ClosingConserves(s, t);
      case Response(wire) => SettleConserves(s, wire, t);
      case TimedOut(wire) => SettleConserves(s, wire, t);
    }
  }

  lemma StepKeepsTable(s: Table, e: Event)
    requires TableOk(s)
    ensures TableOk(Step(s, e)) && Step(s, e).given == s.given + if e.Given? then 1 else 0
  {
    match e {
      case Given(kind, link) => HandleKeeps(s.(given := s.given + 1), Message(s.given, kind), link);
      case Ready(links) => HandleAllKeeps(s.(preOpen := []), s.preOpen, links, 0);
      case ClosedDown =>
      case Response(wire) => SettleKeeps(s, wire);
      case TimedOut(wire) => SettleKeeps(s, wire);
    }
  }

  lemma StepKeeps(s: Table, e: Event)
    requires Inv(s)
    ensures Inv(Step(s, e))
  {
    hide Step, Places, TableOk;
    StepKeepsTable(s, e);
    forall t: Ticket ensures Places(Step(s, e), t) == if t < Step(s, e).given then 1 else 0 {
      StepConserves(s, e, t);
    }
  }

  lemma {:induction false} RunKeeps(s: Table, es: seq<Event>)
    requires Inv(s)
    ensures Inv(After(s, es))
    decreases |es|
  {
    hide Inv, Step;
    if es != [] {
      StepKeeps(s, es[0]);
      RunKeeps(Step(s, es[0]), es[1..]);
    }
  }

  lemma NewTableOk()
    ensures Inv(NEW_TABLE)
  {
    forall t: Ticket ensures Places(NEW_TABLE, t) == 0 {
      CountNone(t);
    }
  }

  // ------------------------------------------------------------ kinds

  // The kinds of the requests given in a run, by ticket.
  function KindsOf(es: seq<Event>): seq<Kind>
    decreases |es|
  {
    if es == [] then [] else KindGiven(es[0]) + KindsOf(es[1..])
  }

  function KindGiven(e: Event): seq<Kind> {
    if e.Given? then [e.kind] else []
  }

  // Queued messages still carry the kind they were given with, and only messages of
  // an unknown kind are ignored.
  ghost predicate KindsOk(s: Table, kinds: seq<Kind>) {
    && |kinds| == s.given
    && (forall m :: m in s.preOpen ==> OfKind(m, kinds))
    && (forall t :: t in s.ignored ==> t < |kinds| && kinds[t].Unknown?)
  }

  predicate OfKind(m: Message, kinds: seq<Kind>) {
    m.ticket < |kinds| && kinds[m.ticket] == m.kind
  }

  lemma HandleKeepsKinds(s: Table, m: Message, link: Link, kinds: seq<Kind>)
    requires KindsOk(s, kinds) && OfKind(m, kinds)
    ensures KindsOk(Handle(s, m, link), kinds)
  {
  }

  lemma {:induction false} HandleAllKeepsKinds(s: Table, ms: seq<Message>, links: seq<Link>, i: nat, kinds: seq<Kind>)
    requires KindsOk(s, kinds) && forall m :: m in ms ==> OfKind(m, kinds)
    ensures KindsOk(HandleAll(s, ms, links, i), kinds)
    decreases |ms|
  {
    hide Handle, KindsOk, OfKind;
    if ms != [] {
      HandleKeepsKinds(s, ms[0], LinkAt(links, i), kinds);
      HandleAllKeepsKinds(Handle(s, ms[0], LinkAt(links, i)), ms[1..], links, i + 1, kinds);
    }
  }

  lemma StepKeepsKinds(s: Table, e: Event, kinds: seq<Kind>)
    requires KindsOk(s, kinds)
    ensures KindsOk(Step(s, e), kinds + KindGiven(e))
  {
    hide Handle, HandleAll;
    match e {
      case Given(kind, link) =>
        HandleKeepsKinds(s.(given := s.given + 1), Message(s.given, kind), link, kinds + [kind]);
      case Ready(links) => HandleAllKeepsKinds(s.(preOpen := []), s.preOpen, links, 0, kinds);
      case ClosedDown =>
      case Response(wire) =>
      case TimedOut(wire) =>
    }
  }

  lemma {:induction false} RunKeepsKinds(s: Table, es: seq<Event>, kinds: seq<Kind>)
    requires KindsOk(s, kinds)
    ensures KindsOk(After(s, es), kinds + KindsOf(es))
    decreases |es|
  {
    hide Step, KindsOk, KindGiven;
    if es == [] {
      assert kinds + [] == kinds;
    } else {
      StepKeepsKinds(s, es[0], kinds);
      RunKeepsKinds(Step(s, es[0]), es[1..], kinds + KindGiven(es[0]));
      assert kinds + KindGiven(es[0]) + KindsOf(es[1..]) == kinds + KindsOf(es);
    }
  }

  // Through any run every send, sendFeature and receiveFeature request is in exactly one
  // of three places: waiting for the transport, pending, or replied to once.  A message
  // of any other type may also end ignored, and is then nowhere else.
  lemma EachRequestInOnePlace(es: seq<Event>, t: Ticket)
    ensures var s := After(NEW_TABLE, es); var kinds := KindsOf(es);
      && |kinds| == s.given && |s.preOpen| <= MAX_PREOPEN
      && (t < |kinds| && !kinds[t].Unknown? ==>
            Count(Tickets(s.preOpen), t) + Count(Waiting(s.pending), t) + Count(s.replied, t) == 1 && t !in s.ignored)
      && (t < |kinds| && kinds[t].Unknown? ==>
            Count(Tickets(s.preOpen), t) + Count(Waiting(s.pending), t) + Count(s.replied, t)
            + Count(s.ignored, t) == 1)
      && (t >= |kinds| ==>
            t !in Tickets(s.preOpen) && t !in Waiting(s.pending) && t !in s.replied && t !in s.ignored)
  {
    hide Tickets, Waiting, Count;
    NewTableOk();
    RunKeeps(NEW_TABLE, es);
    RunKeepsKinds(NEW_TABLE, es, []);
    assert [] + KindsOf(es) == KindsOf(es);
    var s := After(NEW_TABLE, es);
    assert Places(s, t) == if t < s.given then 1 else 0;
    CountedIffIn(Tickets(s.preOpen), t);
    CountedIffIn(Waiting(s.pending), t);
    CountedIffIn(s.replied, t);
    CountedIffIn(s.ignored, t);
  }

  // A reply is final: the request is never waiting, pending or replied to again.
  lemma RepliesAreFinal(s: Table, es: seq<Event>, t: Ticket)
    requires Inv(s) && t in s.replied
    ensures var z := After(s, es);
      Count(z.replied, t) == 1 && t !in Tickets(z.preOpen) && t !in Waiting(z.pending) && t !in z.ignored
  {
    RunKeeps(s, es);
    RepliedStay(s, es, t);
    var z := After(s, es);
    assert Places(z, t) <= 1;
    CountedIffIn(z.replied, t);
    CountedIffIn(Tickets(z.preOpen), t);
    CountedIffIn(Waiting(z.pending), t);
    CountedIffIn(z.ignored, t);
  }

  lemma CountedIffIn(ts: seq<Ticket>, t: Ticket)
    ensures t in ts <==> Count(ts, t) > 0
  {
  }

  lemma {:induction false} RepliedStay(s: Table, es: seq<Event>, t: Ticket)
    requires t in s.replied
    ensures t in After(s, es).replied
    decreases |es|
  {
    hide Step;
    if es != [] {
      RepliedGrows(s, es[0]);
      RepliedStay(Step(s, es[0]), es[1..], t);
    }
  }

  lemma RepliedGrows(s: Table, e: Event)
    ensures s.replied <= Step(s, e).replied
  {
    if e.Ready? {
      AllGrows(s.(preOpen := []), s.preOpen, e.links, 0);
    }
  }

  lemma {:induction false} AllGrows(s: Table, ms: seq<Message>, links: seq<Link>, i: nat)
    ensures s.replied <= HandleAll(s, ms, links, i).replied
    decreases |ms|
  {
    if ms != [] {
      AllGrows(Handle(s, ms[0], LinkAt(links, i)), ms[1..], links, i + 1);
    }
  }

  // Once the transport has closed nothing is left waiting: every send, sendFeature and
  // receiveFeature request given so far has had its one reply.
  lemma ClosingRepliesToAll(es: seq<Event>, t: Ticket)
    requires t < |KindsOf(es)| && !KindsOf(es)[t].Unknown?
    ensures var z := Step(After(NEW_TABLE, es), ClosedDown);
      z.preOpen == [] && z.pending == [] && Count(z.replied, t) == 1
  {
    hide Count, Tickets, Waiting;
    var s := After(NEW_TABLE, es);
    EachRequestInOnePlace(es, t);
    ClosedTickets(s, t);
  }

  lemma ClosedTickets(s: Table, t: Ticket)
    ensures var z := Step(s, ClosedDown);
      && z.preOpen == [] && z.pending == []
      && Count(z.replied, t) == Count(s.replied, t) + Count(Waiting(s.pending), t) + Count(Tickets(s.preOpen), t)
  {
    hide Count, Tickets, Waiting;
    CountConcat(s.replied, Waiting(s.pending), t);
    CountConcat(s.replied + Waiting(s.pending), Tickets(s.preOpen), t);
  }

  // The daemon answers a request under the id it read from its frame.  That answer
  // settles exactly this request, as long as ids fit the four bytes they travel in;
  // an id past them is answered under another and never settled.
  lemma AnswerSettlesItsRequest(
      s: Table, i: nat, kind: Byte, reportId: Byte, payload: seq<Byte>, answer: Byte, status: Byte)
    requires TableOk(s) && i < |s.pending|
    requires answer == RESP_SEND_REPORT || answer == RESP_SEND_FEATURE_REPORT
    ensures var p := s.pending[i];
      var request := ReadRequest(SendFrame(kind, p.wire % U32_LIMIT, reportId, payload));
      && request.Request?
      && (var response := StatusResponse(answer, request.reqId, status);
          && |response| >= 6
          && (var z := Settle(s, U32At(response, 1));
              && (p.wire < U32_LIMIT ==>
                    z == s.(pending := s.pending[..i] + s.pending[i + 1..], replied := s.replied + [p.ticket]))
              && (p !in z.pending <==> p.wire < U32_LIMIT)))
  {
    hide SendFrame, ReadRequest, StatusResponse, U32At;
    var p := s.pending[i];
    var wire := p.wire % U32_LIMIT;
    RequestRoundTrip(kind, wire, reportId, payload);
    StatusRoundTrip(answer, wire, status);
    if p.wire < U32_LIMIT {
      assert Find(s.pending, wire) == i;
      assert forall q :: q in s.pending[..i] + s.pending[i + 1..] ==> q.wire != wire;
    } else {
      OthersStayPending(s, wire, i);
    }
  }

  // A response or a deadline answers the request pending under its id and no other; under
  // an id that nothing is pending for it changes nothing.
  lemma SettledOnce(s: Table, wire: WireId)
    requires TableOk(s)
    ensures Step(s, Response(wire)) == Step(s, TimedOut(wire))
    ensures forall i :: 0 <= i < |s.pending| && s.pending[i].wire == wire ==>
      Step(s, TimedOut(wire)) == s.(pending := s.pending[..i] + s.pending[i + 1..],
                                    replied := s.replied + [s.pending[i].ticket])
    ensures (forall p :: p in s.pending ==> p.wire != wire) ==> Step(s, TimedOut(wire)) == s
  {
    forall i | 0 <= i < |s.pending| && s.pending[i].wire == wire ensures Find(s.pending, wire) == i {
    }
  }

  lemma OthersStayPending(s: Table, wire: WireId, i: nat)
    requires i < |s.pending| && s.pending[i].wire != wire
    ensures s.pending[i] in Settle(s, wire).pending
  {
    var k := Find(s.pending, wire);
    if k < |s.pending| {
      var left := s.pending[..k] + s.pending[k + 1..];
      assert if i < k then left[i] == s.pending[i] else left[i - 1] == s.pending[i];
    }
  }

  // ------------------------------------------------ what becomes of a request

  predicate WellFormed(k: Kind) {
    k.ReceiveFeature? || ((k.Send? || k.SendFeature?) && k.wellFormed)
  }

  // One message of the page, read off the fields of the table.
  ghost predicate Lands(s: Table, z: Table, m: Message, link: Link) {
    && (!link.open && |s.preOpen| < 1024 ==> z == s.(preOpen := s.preOpen + [m]))
    && (!link.open && |s.preOpen| >= 1024 ==> z == s.(replied := s.replied + [m.ticket]))
    && (link.open && m.kind.Unknown? ==> z == s.(ignored := s.ignored + [m.ticket]))
    && (link.open && !m.kind.Unknown? && !WellFormed(m.kind) ==> z == s.(replied := s.replied + [m.ticket]))
    && (link.open && WellFormed(m.kind) && link.sends ==>
          z == s.(nextReqId := s.nextReqId + 1, pending := s.pending + [Pending(s.nextReqId, m.ticket)]))
    && (link.open && WellFormed(m.kind) && !link.sends ==>
          z == s.(nextReqId := s.nextReqId + 1, replied := s.replied + [m.ticket]))
  }

  lemma HandleLands(s: Table, m: Message, link: Link)
    ensures Lands(s, Handle(s, m, link), m, link)
  {
  }

  function Sent(ms: seq<Message>): seq<Ticket> {
    if ms == [] then []
    else if WellFormed(ms[0].kind) then [ms[0].ticket] + Sent(ms[1..])
    else Sent(ms[1..])
  }

  function Refused(ms: seq<Message>): seq<Ticket> {
    if ms == [] then []
    else if WellFormed(ms[0].kind) || ms[0].kind.Unknown? then Refused(ms[1..])
    else [ms[0].ticket] + Refused(ms[1..])
  }

  // All well-formed messages are pending behind those that were, in order and under
  // consecutive wire ids; only malformed ones are answered.
  ghost predicate AllSent(s: Table, z: Table, ms: seq<Message>) {
    && z.preOpen == s.preOpen && z.given == s.given
    && z.replied == s.replied + Refused(ms)
    && z.nextReqId == s.nextReqId + |Sent(ms)|
    && z.pending == s.pending + Numbered(s.nextReqId, Sent(ms))
  }

  function Numbered(first: WireId, ts: seq<Ticket>): seq<Pending> {
    seq(|ts|, i requires 0 <= i < |ts| => Pending(first + i, ts[i]))
  }

  lemma NumberedNext(first: WireId, t: Ticket, ts: seq<Ticket>)
    ensures Numbered(first, [t] + ts) == [Pending(first, t)] + Numbered(first + 1, ts)
  {
  }

  lemma {:induction false} HandleAllSends(s: Table, ms: seq<Message>, links: seq<Link>, i: nat)
    requires i + |ms| <= |links| && forall k :: i <= k < i + |ms| ==> links[k] == Link(true, true)
    ensures AllSent(s, HandleAll(s, ms, links, i), ms)
    decreases |ms|
  {
    hide Handle, WellFormed, Numbered;
    if ms == [] {
      assert Numbered(s.nextReqId, []) == [] by { NothingNumbered(s.nextReqId); }
    } else {
      var s1 := Handle(s, ms[0], links[i]);
      HandleLands(s, ms[0], links[i]);
      HandleAllSends(s1, ms[1..], links, i + 1);
      NumberedNext(s.nextReqId, ms[0].ticket, Sent(ms[1..]));
      WellFormedIsKnown(ms[0].kind);
    }
  }

  lemma WellFormedIsKnown(k: Kind)
    ensures WellFormed(k) ==> !k.Unknown?
  {
  }

  lemma NothingNumbered(first: WireId)
    ensures Numbered(first, []) == []
  {
  }

  // When the transport opens and stays open, everything that was queued is sent in the
  // order it was given.
  lemma ReadySendsQueued(s: Table, links: seq<Link>)
    requires |s.preOpen| <= |links| && forall k :: 0 <= k < |s.preOpen| ==> links[k] == Link(true, true)
    ensures var z := Step(s, Ready(links)); z.preOpen == [] && AllSent(s.(preOpen := []), z, s.preOpen)
  {
    HandleAllSends(s.(preOpen := []), s.preOpen, links, 0);
  }

  // What a page gives before the transport is open.
  function Early(kinds: seq<Kind>): seq<Event> {
    seq(|kinds|, i requires 0 <= i < |kinds| => Given(kinds[i], Link(false, false)))
  }

  function Messages(first: Ticket, kinds: seq<Kind>): seq<Message> {
    seq(|kinds|, i requires 0 <= i < |kinds| => Message(first + i, kinds[i]))
  }

  function Numbers(first: nat, n: nat): seq<nat> {
    seq(n, i => first + i)
  }

  // The first 1024 requests wait, in order; every later one is refused at once.
  lemma {:induction false} EarlyWait(s: Table, kinds: seq<Kind>)
    requires |s.preOpen| <= 1024
    ensures var z := After(s, Early(kinds));
      var room := if |kinds| <= 1024 - |s.preOpen| then |kinds| else 1024 - |s.preOpen|;
      z == s.(given := s.given + |kinds|, preOpen := s.preOpen + Messages(s.given, kinds[..room]),
              replied := s.replied + Numbers(s.given + room, |kinds| - room))
    decreases |kinds|
  {
    hide Handle;
    var room := if |kinds| <= 1024 - |s.preOpen| then |kinds| else 1024 - |s.preOpen|;
    if kinds == [] {
      assert Messages(s.given, kinds[..0]) == [] && Numbers(s.given, 0) == [];
    } else {
      var link := Link(false, false);
      var s1 := Step(s, Given(kinds[0], link));
      HandleLands(s.(given := s.given + 1), Message(s.given, kinds[0]), link);
      assert Early(kinds)[0] == Given(kinds[0], link) && Early(kinds)[1..] == Early(kinds[1..]);
      EarlyWait(s1, kinds[1..]);
      if |s.preOpen| < 1024 {
        assert Messages(s.given, kinds[..room]) == [Message(s.given, kinds[0])] + Messages(s.given + 1, kinds[1..room]);
        assert kinds[1..][..room - 1] == kinds[1..room];
      } else {
        assert Numbers(s.given, |kinds|) == [s.given] + Numbers(s.given + 1, |kinds| - 1);
        assert Messages(s.given, []) == [] && Messages(s.given + 1, []) == [];
      }
    }
  }

  // A fresh worker: well-formed requests given before the transport opens are all pending
  // once it does, the i-th under wire id i + 1, up to 1024; the rest were told it is busy.
  lemma EarlyRequestsAreSent(kinds: seq<Kind>, links: seq<Link>)
    requires forall k :: k in kinds ==> WellFormed(k)
    requires |links| >= 1024 && forall k :: 0 <= k < 1024 ==> links[k] == Link(true, true)
    ensures var z := Step(After(NEW_TABLE, Early(kinds)), Ready(links));
      var room := if |kinds| <= 1024 then |kinds| else 1024;
      && z.preOpen == [] && z.ignored == [] && |z.pending| == room
      && (forall i :: 0 <= i < room ==> z.pending[i] == Pending(i + 1, i))
      && |z.replied| == |kinds| - room
      && (forall i :: 0 <= i < |kinds| - room ==> z.replied[i] == room + i)
  {
    hide HandleAll;
    var room := if |kinds| <= 1024 then |kinds| else 1024;
    EarlyWait(NEW_TABLE, kinds);
    var s := After(NEW_TABLE, Early(kinds));
    assert s.preOpen == Messages(0, kinds[..room]);
    ReadySendsQueued(s, links);
    AllOf(s.preOpen);
    IgnoresUnknown(s.(preOpen := []), s.preOpen, links, 0);
  }

  lemma {:induction false} AllOf(ms: seq<Message>)
    requires forall m :: m in ms ==> WellFormed(m.kind)
    ensures |Sent(ms)| == |ms| && Refused(ms) == []
    ensures forall i :: 0 <= i < |ms| ==> Sent(ms)[i] == ms[i].ticket
    decreases |ms|
  {
    if ms != [] {
      AllOf(ms[1..]);
    }
  }

  lemma {:induction false} IgnoresUnknown(s: Table, ms: seq<Message>, links: seq<Link>, i: nat)
    requires forall m :: m in ms ==> !m.kind.Unknown?
    ensures HandleAll(s, ms, links, i).ignored == s.ignored
    decreases |ms|
  {
    if ms != [] {
      HandleLands(s, ms[0], LinkAt(links, i));
      IgnoresUnknown(Handle(s, ms[0], LinkAt(links, i)), ms[1..], links, i + 1);
    }
  }

  // ---------------------------------------------------------- the worker

  class Worker {
    var nextReqId: WireId
    var preOpen: seq<Message>
    var pending: seq<Pending>
    ghost var given: nat
    ghost var replied: seq<Ticket>
    ghost var ignored: seq<Ticket>

    ghost function View(): Table
      reads this
    {
      Table(given, nextReqId, preOpen, pending, replied, ignored)
    }

    constructor ()
      ensures View() == NEW_TABLE
    {
      nextReqId, preOpen, pending := 1, [], [];
      given, replied, ignored := 0, [], [];
    }

    method HandleDataPortMessage(m: Message, link: Link)
      modifies this
      ensures View() == Handle(old(View()), m, link)
      ensures Lands(old(View()), View(), m, link)
    {
      if !link.open {
        if |preOpen| >= MAX_PREOPEN {
          replied := replied + [m.ticket];
          return;
        }
        preOpen := preOpen + [m];
        return;
      }
      match m.kind {
        case Send(ok) => HandleSend(m, ok, link);
        case SendFeature(ok) => HandleSend(m, ok, link);
        case ReceiveFeature => HandleSend(m, true, link);
        case Unknown => ignored := ignored + [m.ticket];
      }
    }

    method HandleSend(m: Message, wellFormed: bool, link: Link)
      modifies this
      ensures View() == if wellFormed then Transmit(old(View()), m, link) else Reply(old(View()), m.ticket)
    {
      if !wellFormed {
        replied := replied + [m.ticket];
        return;
      }
      var reqId := nextReqId;
      nextReqId := nextReqId + 1;
      pending := pending + [Pending(reqId, m.ticket)];
      if !link.sends {
        pending := pending[..|pending| - 1];
        replied := replied + [m.ticket];
      }
    }

    // `onReady` hands every queued message in again.
    method OnReady(links: seq<Link>)
      modifies this
      ensures View() == Step(old(View()), Ready(links))
      ensures |old(preOpen)| <= |links| && (forall k :: 0 <= k < |old(preOpen)| ==> links[k] == Link(true, true)) ==>
        preOpen == [] && AllSent(old(View()).(preOpen := []), View(), old(preOpen))
    {
      hide Handle, AllSent;
      var queued := preOpen;
      preOpen := [];
      ghost var s := View();
      for i := 0 to |queued|
        invariant HandleAll(View(), queued[i..], links, i) == HandleAll(s, queued, links, 0)
      {
        assert queued[i..][1..] == queued[i + 1..];
        HandleDataPortMessage(queued[i], LinkAt(links, i));
      }
      if |queued| <= |links| && forall k :: 0 <= k < |queued| ==> links[k] == Link(true, true) {
        ReadySendsQueued(old(View()), links);
      }
    }

    method OnClosed()
      modifies this
      ensures View() == Step(old(View()), ClosedDown)
    {
      var answered := 0;
      for i := 0 to |pending|
        invariant pending == old(pending) && preOpen == old(preOpen) && given == old(given)
        invariant nextReqId == old(nextReqId) && ignored == old(ignored)
        invariant replied == old(replied) + Waiting(pending[..i])
      {
        replied := replied + [pending[i].ticket];
        WaitingConcat(pending[..i], [pending[i]]);
        OnePending(pending[i]);
        assert pending[..i + 1] == pending[..i] + [pending[i]];
      }
      assert pending[..|pending|] == pending;
      pending := [];
      var queued := preOpen;
      preOpen := [];
      for i := 0 to |queued|
        invariant pending == [] && preOpen == [] && given == old(given)
        invariant nextReqId == old(nextReqId) && ignored == old(ignored)
        invariant replied == old(replied) + Waiting(old(pending)) + Tickets(queued[..i])
      {
        replied := replied + [queued[i].ticket];
        TicketsConcat(queued[..i], [queued[i]]);
        OneMessage(queued[i]);
        assert queued[..i + 1] == queued[..i] + [queued[i]];
      }
      assert queued[..|queued|] == queued;
    }

    // A response frame or a deadline.
    method OnSettled(wire: WireId)
      modifies this
      ensures View() == Settle(old(View()), wire)
    {
      var i := 0;
      while i < |pending| && pending[i].wire != wire
        invariant i <= |pending| && Find(pending, wire) == i + Find(pending[i..], wire)
      {
        assert pending[i..][1..] == pending[i + 1..];
        i := i + 1;
      }
      if i == |pending| {
        return;
      }
      var entry := pending[i];
      pending := pending[..i] + pending[i + 1..];
      replied := replied + [entry.ticket];
    }
  }
}
