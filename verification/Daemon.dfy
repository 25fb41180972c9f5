// The daemon as a state machine.  Every section under the lifecycle mutex is
// one step; the openers, the I/O workers, the readers and the work done after
// the mutex is released are further steps, interleaved in any order.
module Daemon {
  import opened Lifecycle

  type OpenerId = nat
  type Reservation = nat
  type Request = nat

  datatype Verdict = Granted | Refused

  // Where one call of `open` is.
  datatype Phase =
    | Trying                                  // top of the loop
    | Waiting(res: Reservation)               // holds a notification future
    | Woken
    | Opening(res: Reservation)               // inside the physical opener
    | Spawned(res: Reservation, channel: Channel) // reader and worker exist, entry unpublished
    | Finishing(res: Reservation, verdict: Verdict) // `open_physical` returned
    | Notifying(res: Reservation, verdict: Verdict) // reservation removed
    | Returned(verdict: Verdict)

  datatype Opener = Opener(device: DeviceId, client: Client, token: Token, phase: Phase)

  datatype Item = Shutdown | Command(request: Request, cell: Cell, epoch: nat)

  // One physical lifetime: its epoch cell, its command channel, its worker.
  datatype Line = Line(device: DeviceId, epoch: nat, queue: seq<Item>, running: bool)

  // Where one output or feature request is.
  datatype Progress =
    | Checked(cell: Cell)
    | Attached(cell: Cell, channel: Channel)
    | Stamped(cell: Cell, channel: Channel, epoch: nat)
    | Queued(cell: Cell, channel: Channel, epoch: nat)
    | Performed | Rejected | Dropped | Denied

  // What a thread still has to do after it released the mutex.
  datatype Action = BumpEpoch(channel: Channel) | SendShutdown(channel: Channel)
                  | Subtract(count: nat) | Cancel(tokens: set<Token>)

  const CAPACITY := 128

  datatype State = State(
    reg: Registry,
    openers: map<OpenerId, Opener>,
    opening: map<DeviceId, Reservation>,
    invalidated: set<Reservation>,
    nextReservation: Reservation,
    lines: map<Channel, Line>,
    nextChannel: Channel,
    readers: set<Channel>,
    tails: seq<seq<Action>>,
    cancelled: set<Token>,
    requests: map<Request, Progress>)

  const INIT := State(EMPTY, map[], map[], {}, 0, map[], 0, {}, [], {}, map[])

  datatype Event =
    | SinkOn(client: Client, order: seq<DeviceId>)
    | SinkOff(client: Client)
    | CloseCall(device: DeviceId, token: Token, client: Client)
    | ModeCall(device: DeviceId, token: Token, mode: Mode, client: Client)
    | ConnectCall(kind: Mode, device: DeviceId, token: Token)
    | DisconnectCall(kind: Mode, device: DeviceId, token: Token, generation: nat, cap: Cell)
    | ForceClose(device: DeviceId)
    | ReaderDies(channel: Channel)
    | TailStep(tail: nat)
    | OpenCall(opener: OpenerId, device: DeviceId, client: Client, token: Token)
    | OpenStep(opener: OpenerId)
    | OpenFails(opener: OpenerId)
    | NmRequest(request: Request, client: Client, device: DeviceId)
    | TransportRequest(request: Request, cap: Cell)
    | RequestStep(request: Request)
    | Work(channel: Channel)

  // ------------------------------------------------------------- helpers

  function Wake(openers: map<OpenerId, Opener>, res: Reservation): map<OpenerId, Opener> {
    map o | o in openers :: if openers[o].phase == Waiting(res) then openers[o].(phase := Woken) else openers[o]
  }

  function To(s: State, o: OpenerId, p: Phase): State
    requires o in s.openers
  {
    s.(openers := s.openers[o := s.openers[o].(phase := p)])
  }

  // `register_session_locked` and the refresh, when the device has an entry.
  function Admit(s: State, o: OpenerId, p: Phase): State
    requires o in s.openers
  {
    var op := s.openers[o];
    To(s.(reg := Register(s.reg, op.device, op.token, op.client)), o, p)
  }

  // The reservation is still this opener's and nobody invalidated it.
  predicate Current(s: State, d: DeviceId, res: Reservation) {
    res !in s.invalidated && d in s.opening && s.opening[d] == res
  }

  function StopEntry(ch: Channel): seq<Action> {
    [BumpEpoch(ch), SendShutdown(ch)]
  }

  predicate Room(s: State, ch: Channel) {
    ch in s.lines && (s.lines[ch].running ==> |s.lines[ch].queue| < CAPACITY)
  }

  function Push(s: State, ch: Channel, i: Item): State
    requires ch in s.lines
  {
    s.(lines := s.lines[ch := s.lines[ch].(queue := s.lines[ch].queue + [i])])
  }

  function CellDevice(r: Registry, f: Cell): DeviceId
    requires f in r.grants || f in r.bindings
  {
    if f in r.grants then r.grants[f].device else r.bindings[f].device
  }

  // ------------------------------------------------------------ one step

  ghost predicate Enabled(s: State, e: Event) {
    match e
    case SinkOn(c, order) => Lists(order, DevicesOf(s.reg, c))
    case ConnectCall(kind, _, _) => kind != Nm
    case DisconnectCall(kind, d, t, gen, cap) =>
      cap in s.reg.grants && s.reg.grants[cap] == Grant(t, d, kind, gen)
    case ReaderDies(ch) => ch in s.readers
    case TailStep(i) => TailReady(s, i)
    case OpenCall(o, _, _, t) =>
      o !in s.openers && t !in s.reg.used && (forall p :: p in s.openers ==> s.openers[p].token != t)
    case OpenStep(o) => o in s.openers && !s.openers[o].phase.Waiting? && !s.openers[o].phase.Returned?
    case OpenFails(o) => o in s.openers && s.openers[o].phase.Opening?
    case NmRequest(q, _, _) => q !in s.requests
    case TransportRequest(q, cap) => q !in s.requests && cap in s.reg.grants
    case RequestStep(q) =>
      && q in s.requests
      && (s.requests[q].Checked? || s.requests[q].Attached?
          || (s.requests[q].Stamped? && Room(s, s.requests[q].channel)))
    case Work(ch) => ch in s.lines && s.lines[ch].running && s.lines[ch].queue != []
    case _ => true
  }

  ghost function Step(s: State, e: Event): State
    requires Enabled(s, e)
  {
    match e
    case SinkOn(c, order) => s.(reg := RegisterSink(s.reg, c, order))
    case SinkOff(c) => s.(reg := UnregisterSink(s.reg, c))
    case CloseCall(d, t, c) => CloseStep(s, d, t, c)
    case ModeCall(d, t, mode, c) => s.(reg := SetMode(s.reg, d, t, mode, c))
    case ConnectCall(kind, d, t) => s.(reg := Connect(s.reg, d, t, kind))
    case DisconnectCall(kind, d, t, gen, cap) => s.(reg := Disconnect(s.reg, d, t, kind, gen, cap))
    case ForceClose(d) => ForceCloseStep(s, d)
    case ReaderDies(ch) => ReaderDiesStep(s, ch)
    case TailStep(i) => TailStepped(s, i)
    case OpenCall(o, d, c, t) => s.(openers := s.openers[o := Opener(d, c, t, Trying)])
    case OpenStep(o) => OpenerStep(s, o)
    case OpenFails(o) => To(s, o, Finishing(s.openers[o].phase.res, Refused))
    case NmRequest(q, c, d) => s.(requests := s.requests[q := NmStart(s.reg, HotKey(c, d))])
    case TransportRequest(q, cap) => s.(requests := s.requests[q := TransportStart(s.reg, cap)])
    case RequestStep(q) => RequestStepped(s, q)
    case Work(ch) => WorkerStep(s, ch)
  }

  function CloseStep(s: State, d: DeviceId, t: Token, c: Client): State {
    if !Owned(s.reg, d, t, c) then s
    else
      var s1 := s.(reg := Close(s.reg, d, t, c), cancelled := s.cancelled + {t});
      if LastOnDevice(s.reg, t) && d in s.reg.devices
      then s1.(tails := s1.tails + [StopEntry(s.reg.devices[d])])
      else s1
  }

  // Sessions that were not in NM mode are subtracted from the counter later.
  function Excess(r: Registry, d: DeviceId): nat {
    |NonNm(r.sessions) * OnDevice(r.sessions, d)|
  }

  // What `force_close` still has to do after it released the mutex.
  function ForceCloseTail(r: Registry, d: DeviceId): seq<Action> {
    [Cancel(OnDevice(r.sessions, d)), Subtract(Excess(r, d))]
    + if d in r.devices then StopEntry(r.devices[d]) else []
  }

  // The same for a dying reader, in its own order.
  function ReaderTail(r: Registry, d: DeviceId): seq<Action>
    requires d in r.devices
  {
    StopEntry(r.devices[d]) + [Subtract(Excess(r, d)), Cancel(OnDevice(r.sessions, d))]
  }

  function ForceCloseStep(s: State, d: DeviceId): State {
    var reserved := d in s.opening;
    s.(reg := Detach(s.reg, d),
       invalidated := s.invalidated + if reserved then {s.opening[d]} else {},
       openers := if reserved then Wake(s.openers, s.opening[d]) else s.openers,
       tails := s.tails + [ForceCloseTail(s.reg, d)])
  }

  // A dying reader takes down whatever lifetime its device has by then.
  function ReaderDiesStep(s: State, ch: Channel): State {
    var s1 := s.(readers := s.readers - {ch});
    if ch !in s.lines || s.lines[ch].device !in s.reg.devices then s1
    else
      var d := s.lines[ch].device;
      s1.(reg := Detach(s.reg, d),
          tails := s.tails + [ReaderTail(s.reg, d)])
  }

  function Perform(s: State, a: Action): State
    requires a.SendShutdown? ==> Room(s, a.channel)
  {
    match a
    case BumpEpoch(ch) =>
      if ch in s.lines then s.(lines := s.lines[ch := s.lines[ch].(epoch := s.lines[ch].epoch + 1)]) else s
    case SendShutdown(ch) => if s.lines[ch].running then Push(s, ch, Shutdown) else s
    case Subtract(n) => s.(reg := s.reg.(nonNm := s.reg.nonNm - n))
    case Cancel(ts) => s.(cancelled := s.cancelled + ts)
  }

  predicate TailReady(s: State, i: nat) {
    i < |s.tails| && s.tails[i] != [] && (s.tails[i][0].SendShutdown? ==> Room(s, s.tails[i][0].channel))
  }

  function TailStepped(s: State, i: nat): State
    requires TailReady(s, i)
  {
    Perform(s.(tails := s.tails[i := s.tails[i][1..]]), s.tails[i][0])
  }

  function OpenerStep(s: State, o: OpenerId): State
    requires o in s.openers
  {
    var op := s.openers[o];
    var present := op.device in s.reg.devices;
    match op.phase
    case Trying =>
      if present then Admit(s, o, Returned(Granted))
      else if op.device in s.opening then To(s, o, Waiting(s.opening[op.device]))
      else
        To(s.(opening := s.opening[op.device := s.nextReservation],
              nextReservation := s.nextReservation + 1), o, Opening(s.nextReservation))
    case Woken =>
      if present then Admit(s, o, Returned(Granted))
      else if op.device in s.opening then To(s, o, Trying)
      else To(s, o, Returned(Refused))
    case Opening(res) =>
      if !Current(s, op.device, res) then To(s, o, Finishing(res, Refused))
      else if present then Admit(s, o, Finishing(res, Granted))
      else
        To(s.(lines := s.lines[s.nextChannel := Line(op.device, 0, [], true)],
              nextChannel := s.nextChannel + 1), o, Spawned(res, s.nextChannel))
    case Spawned(res, ch) =>
      if !Current(s, op.device, res) then
        To(s.(tails := s.tails + [StopEntry(ch)]), o, Finishing(res, Refused))
      else if present then
        Admit(s.(tails := s.tails + [StopEntry(ch)]), o, Finishing(res, Granted))
      else
        To(s.(reg := Install(s.reg, op.device, ch, op.token, op.client),
              readers := s.readers + {ch}), o, Finishing(res, Granted))
    case Finishing(res, v) =>
      if op.device in s.opening && s.opening[op.device] == res
      then To(s.(opening := s.opening - {op.device}), o, Notifying(res, v))
      else To(s, o, Returned(v))
    case Notifying(res, v) => To(s.(openers := Wake(s.openers, res)), o, Returned(v))
    case Waiting(_) => s
    case Returned(_) => s
  }

  // The NM enqueue functions clone the client's current binding.
  function NmStart(r: Registry, k: HotKey): Progress {
    if k in r.hot then Attached(r.hot[k].cell, r.hot[k].channel) else Denied
  }

  // `transport_io_context` looks at the capability first.
  function TransportStart(r: Registry, cap: Cell): Progress {
    if cap in r.valid then Checked(cap) else Denied
  }

  function RequestStepped(s: State, q: Request): State
    requires q in s.requests
  {
    match s.requests[q]
    case Checked(f) =>
      // `devices.get`: the entry of the device the grant was made for
      if f in s.reg.grants && s.reg.grants[f].device in s.reg.devices
      then s.(requests := s.requests[q := Attached(f, s.reg.devices[s.reg.grants[f].device])])
      else s.(requests := s.requests[q := Denied])
    case Attached(f, ch) =>
      if ch in s.lines then s.(requests := s.requests[q := Stamped(f, ch, s.lines[ch].epoch)])
      else s
    case Stamped(f, ch, epoch) =>
      if ch !in s.lines then s
      else if s.lines[ch].running
      then Push(s, ch, Command(q, f, epoch)).(requests := s.requests[q := Queued(f, ch, epoch)])
      else s.(requests := s.requests[q := Dropped])
    case _ => s
  }

  // `is_current`: the capability cell still holds true and the epoch is unchanged.
  predicate IsCurrent(s: State, ch: Channel, f: Cell, epoch: nat) {
    f in s.reg.valid && ch in s.lines && epoch == s.lines[ch].epoch
  }

  predicate OnChannel(p: Progress, ch: Channel) {
    p.Queued? && p.channel == ch
  }

  function WorkerStep(s: State, ch: Channel): State
    requires ch in s.lines && s.lines[ch].queue != []
  {
    var line := s.lines[ch];
    match line.queue[0]
    case Shutdown =>
      // The receiver goes away; whatever is still queued is answered with an error.
      s.(lines := s.lines[ch := line.(queue := [], running := false)],
         requests := map q | q in s.requests :: if OnChannel(s.requests[q], ch) then Dropped else s.requests[q])
    case Command(q, f, epoch) =>
      s.(lines := s.lines[ch := line.(queue := line.queue[1..])],
         requests := s.requests[q := if IsCurrent(s, ch, f, epoch) then Performed else Rejected])
  }

  // ---------------------------------------------------------------- runs

  ghost predicate IsRun(s: State, es: seq<Event>)
    decreases |es|
  {
    es == [] || (Enabled(s, es[0]) && IsRun(Step(s, es[0]), es[1..]))
  }

  ghost function After(s: State, es: seq<Event>): State
    requires IsRun(s, es)
    decreases |es|
  {
    if es == [] then s else After(Step(s, es[0]), es[1..])
  }
}
