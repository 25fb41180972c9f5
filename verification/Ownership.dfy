// The browser's record of daemon sessions: owned, queued for another close, or being
// closed right now.
module Ownership {
  import opened Common

  type Device = nat
  type Token = nat
  type Tab = nat
  type Bridge = nat
  type CloseId = nat

  // `tab:<id>`, or `<bridge>/frame-<n>` as the bridge names its frames.
  datatype FrameKey = TabKey(tab: Tab) | BridgeKey(bridge: Bridge, generation: nat)

  // Owner records are objects: the serial number is their identity.
  datatype Owner = Owner(serial: nat, tab: Tab, origin: nat, frame: FrameKey, bridge: Option<Bridge>, client: nat)

  datatype Orphan = Orphan(device: Device, attempts: nat)

  // A close that has been sent and not answered.
  datatype Flight = Flight(device: Device, token: Token, ownerAtStart: Option<Owner>)

  // `known` tokens were registered or handed to a close; `confirmed` ones the daemon
  // reported closed; `cleared` ones went with their device or authority.
  datatype State = State(
    sessions: map<Device, map<Token, Owner>>,
    orphans: map<Token, Orphan>,
    frames: map<Tab, map<FrameKey, nat>>,
    flights: map<CloseId, Flight>,
    nextClose: CloseId,
    nextSerial: nat,
    known: set<Token>,
    confirmed: set<Token>,
    cleared: set<Token>)

  const INITIAL := State(map[], map[], map[], map[], 0, 0, {}, {}, {})

  datatype Pair = Pair(device: Device, token: Token)

  datatype Event =
    | RegisterFrame(tab: Tab, frame: FrameKey)
    | RegisterSession(
        device: Device, token: Token, tab: Tab, origin: nat, frame: FrameKey, via: Option<Bridge>, client: nat)
    | CloseForCleanup(device: Device, token: Token)
    | Finish(close: CloseId, confirmed: bool)
    | PageClosed(device: Device, token: Token)
    | PurgeFrame(tab: Tab, frame: FrameKey, order: seq<Pair>)
    | PurgeBridge(tab: Tab, bridge: Bridge, order: seq<Pair>)
    | PurgeTab(tab: Tab, order: seq<Pair>)
    | RetryOrphans(order: seq<Pair>)
    | EnqueueOrphan(device: Device, token: Token)
    | ClearAuthority
    | ClearDevice(device: Device)

  // ---------------------------------------------------------------- queries

  function OwnerOf(sessions: map<Device, map<Token, Owner>>, d: Device, t: Token): Option<Owner> {
    if d in sessions && t in sessions[d] then Some(sessions[d][t]) else None
  }

  function Lifetime(frames: map<Tab, map<FrameKey, nat>>, tab: Tab, frame: FrameKey): Option<nat> {
    if tab in frames && frame in frames[tab] then Some(frames[tab][frame]) else None
  }

  predicate IsActive(s: State, tab: Tab, frame: FrameKey) {
    Lifetime(s.frames, tab, frame).Some? && Lifetime(s.frames, tab, frame).value > 0
  }

  predicate IsRetired(s: State, tab: Tab, frame: FrameKey) {
    Lifetime(s.frames, tab, frame) == Some(0)
  }

  predicate OfFrame(x: Owner, tab: Tab, frame: FrameKey) {
    x.tab == tab && x.frame == frame
  }

  predicate OfBridge(x: Owner, tab: Tab, bridge: Bridge) {
    x.tab == tab && x.bridge == Some(bridge)
  }

  // ------------------------------------------------------------ operations

  function FramesOf(frames: map<Tab, map<FrameKey, nat>>, tab: Tab): map<FrameKey, nat> {
    if tab in frames then frames[tab] else map[]
  }

  function SetFrame(s: State, tab: Tab, frame: FrameKey, n: nat): State {
    s.(frames := s.frames[tab := FramesOf(s.frames, tab)[frame := n]])
  }

  // `registerFrameLifetime`: refused for a retired key.
  function FrameRegistered(s: State, tab: Tab, frame: FrameKey): State {
    if IsRetired(s, tab, frame) then s
    else SetFrame(s, tab, frame, Lifetime(s.frames, tab, frame).GetOr(0) + 1)
  }

  function SessionsOf(sessions: map<Device, map<Token, Owner>>, d: Device): map<Token, Owner> {
    if d in sessions then sessions[d] else map[]
  }

  function SetOwner(s: State, d: Device, t: Token, x: Owner): State {
    s.(sessions := s.sessions[d := SessionsOf(s.sessions, d)[t := x]])
  }

  // `registerDeviceSession`
  function SessionRegistered(s: State, d: Device, t: Token, x: Owner): State {
    if IsRetired(s, x.tab, x.frame) then s
    else
      var live := if IsActive(s, x.tab, x.frame) then s else FrameRegistered(s, x.tab, x.frame);
      SetOwner(live, d, t, x.(serial := s.nextSerial)).(nextSerial := s.nextSerial + 1, known := s.known + {t})
  }

  // `unregisterDeviceSession`
  function Unregister(sessions: map<Device, map<Token, Owner>>, d: Device, t: Token): map<Device, map<Token, Owner>> {
    if d !in sessions then sessions
    else
      var left := sessions[d] - {t};
      if left == map[] then sessions - {d} else sessions[d := left]
  }

  // `closeForCleanup` up to its `await`.
  function StartClose(s: State, d: Device, t: Token): State {
    s.(flights := s.flights[s.nextClose := Flight(d, t, OwnerOf(s.sessions, d, t))],
       nextClose := s.nextClose + 1, known := s.known + {t})
  }

  function StartAll(s: State, order: seq<Pair>): State
    decreases |order|
  {
    if order == [] then s else StartAll(StartClose(s, order[0].device, order[0].token), order[1..])
  }

  // The owner this close was started for is still the current one.
  predicate StillOwned(s: State, f: Flight) {
    f.ownerAtStart.Some? && OwnerOf(s.sessions, f.device, f.token) == f.ownerAtStart
  }

  // `retainOrphanCleanup`
  function Retain(s: State, d: Device, t: Token): State {
    if t in s.orphans then s else s.(orphans := s.orphans[t := Orphan(d, 0)])
  }

  // The rest of `closeForCleanup`.
  function FinishClose(s: State, id: CloseId, confirmed: bool): State
    requires id in s.flights
  {
    var f := s.flights[id];
    var sessions := if StillOwned(s, f) then Unregister(s.sessions, f.device, f.token) else s.sessions;
    var landed := s.(flights := s.flights - {id}, sessions := sessions);
    if confirmed
    then landed.(orphans := landed.orphans - {f.token}, confirmed := landed.confirmed + {f.token})
    else Retain(landed, f.device, f.token)
  }

  function RetireBridge(frames: map<Tab, map<FrameKey, nat>>, tab: Tab, bridge: Bridge): map<Tab, map<FrameKey, nat>> {
    if tab !in frames then frames
    else frames[tab := map k | k in frames[tab] :: if k.BridgeKey? && k.bridge == bridge then 0 else frames[tab][k]]
  }

  function CountAttempts(orphans: map<Token, Orphan>): map<Token, Orphan> {
    map t | t in orphans :: orphans[t].(attempts := orphans[t].attempts + 1)
  }

  function TokensOn(sessions: map<Device, map<Token, Owner>>, d: Device): set<Token> {
    SessionsOf(sessions, d).Keys
  }

  function OrphansOn(orphans: map<Token, Orphan>, d: Device): set<Token> {
    set t | t in orphans && orphans[t].device == d
  }

  function AllTokens(sessions: map<Device, map<Token, Owner>>): set<Token> {
    set d, t | d in sessions && t in sessions[d] :: t
  }

  // -------------------------------------------------------------- one event

  // The order lists exactly the sessions that an operation closes.
  ghost predicate Lists(order: seq<Pair>, sessions: map<Device, map<Token, Owner>>, chosen: Owner -> bool) {
    forall d, t :: Pair(d, t) in order <==> OwnerOf(sessions, d, t).Some? && chosen(OwnerOf(sessions, d, t).value)
  }

  ghost predicate ListsOrphans(order: seq<Pair>, orphans: map<Token, Orphan>) {
    forall d, t :: Pair(d, t) in order <==> t in orphans && orphans[t].device == d
  }

  ghost predicate Enabled(s: State, e: Event) {
    match e
    case RegisterSession(_, _, _, _, frame, bridge, _) => frame.BridgeKey? ==> bridge == Some(frame.bridge)
    case Finish(id, _) => id in s.flights
    case PurgeFrame(tab, frame, order) => Lists(order, s.sessions, x => OfFrame(x, tab, frame))
    case PurgeBridge(tab, bridge, order) => Lists(order, s.sessions, x => OfBridge(x, tab, bridge))
    case PurgeTab(tab, order) => Lists(order, s.sessions, (x: Owner) => x.tab == tab)
    case RetryOrphans(order) => ListsOrphans(order, s.orphans)
    case _ => true
  }

  function Step(s: State, e: Event): State
    requires e.Finish? ==> e.close in s.flights
  {
    match e
    case RegisterFrame(tab, frame) => FrameRegistered(s, tab, frame)
    case RegisterSession(d, t, tab, origin, frame, bridge, client) =>
      SessionRegistered(s, d, t, Owner(0, tab, origin, frame, bridge, client))
    case CloseForCleanup(d, t) => StartClose(s, d, t)
    case Finish(id, confirmed) => FinishClose(s, id, confirmed)
    case PageClosed(d, t) => s.(sessions := Unregister(s.sessions, d, t), confirmed := s.confirmed + {t})
    case PurgeFrame(tab, frame, order) => StartAll(SetFrame(s, tab, frame, 0), order)
    case PurgeBridge(tab, bridge, order) => StartAll(s.(frames := RetireBridge(s.frames, tab, bridge)), order)
    case PurgeTab(tab, order) => StartAll(s, order).(frames := s.frames - {tab})
    case RetryOrphans(order) => StartAll(s.(orphans := CountAttempts(s.orphans)), order)
    case EnqueueOrphan(d, t) => Retain(s.(sessions := Unregister(s.sessions, d, t)), d, t)
    case ClearAuthority =>
      s.(sessions := map[], orphans := map[], frames := map[],
         cleared := s.cleared + AllTokens(s.sessions) + s.orphans.Keys)
    case ClearDevice(d) =>
      s.(sessions := s.sessions - {d}, orphans := s.orphans - OrphansOn(s.orphans, d),
         cleared := s.cleared + TokensOn(s.sessions, d) + OrphansOn(s.orphans, d))
  }

  ghost predicate IsRun(s: State, es: seq<Event>)
    decreases |es|
  {
    es == [] || (Enabled(s, es[0]) && IsRun(Step(s, es[0]), es[1..]))
  }

  ghost function After(s: State, es: seq<Event>): State
    requires IsRun(s, es)
    decreases |es|
  {
    if es == [] then s else After(Step(s, es[0]), es[1..])
  }
}
