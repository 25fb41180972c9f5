// The daemon's session registry: every map that the `lifecycle` mutex of
// `DeviceManager` keeps coherent, and the transitions made while it is held.
//
// An `Arc<AtomicBool>` is a cell number: clones of one Arc share the number, and
// `valid` holds the cells that currently store `true`.  `grants` and `bindings`
// remember what each cell was created for; the program does not store them.
module Lifecycle {
  type DeviceId = nat
  type Client = nat
  type Token = nat
  type Cell = nat
  type Channel = nat

  datatype Mode = Nm | Ws | Wt

  // SHA-256 over token and nonce, taken to be injective in the token.
  datatype AuthHash = AuthHash(token: Token)

  datatype Session = Session(device: DeviceId, owner: Client, mode: Mode, hash: AuthHash,
                             active: bool, wsGeneration: nat, wtGeneration: nat)
  {
    function Generation(kind: Mode): nat {
      if kind.Ws? then wsGeneration else wtGeneration
    }
  }

  // What a WS or WT transport is granted; its cell number is the capability.
  datatype Grant = Grant(token: Token, device: DeviceId, kind: Mode, generation: nat)

  datatype Hot = Hot(cell: Cell, channel: Channel)

  // NM bindings are per client and device, not per session.
  datatype HotKey = HotKey(client: Client, device: DeviceId)

  datatype Registry = Registry(
    devices: map<DeviceId, Channel>,
    sessions: map<Token, Session>,
    hashes: map<AuthHash, Token>,
    validity: map<Token, Cell>,
    sinks: set<Client>,
    hot: map<HotKey, Hot>,
    nonNm: int,
    valid: set<Cell>,
    nextCell: Cell,
    used: set<Token>,
    grants: map<Cell, Grant>,
    bindings: map<Cell, HotKey>)

  const EMPTY := Registry(map[], map[], map[], map[], {}, map[], 0, {}, 0, {}, map[], map[])

  datatype Error = InvalidMode | NoSession | SessionClosed | WrongDevice | WrongOwner

  datatype Outcome = Done | Failed(error: Error)

  // ---------------------------------------------------------------- queries

  function OnDevice(sessions: map<Token, Session>, d: DeviceId): set<Token> {
    set t | t in sessions && sessions[t].device == d
  }

  function NonNm(sessions: map<Token, Session>): set<Token> {
    set t | t in sessions && sessions[t].mode != Nm
  }

  // `active && device == d && owner == c && mode == nm` for some session.
  predicate HasNm(sessions: map<Token, Session>, d: DeviceId, c: Client) {
    exists t :: t in sessions && IsNmOf(sessions[t], d, c)
  }

  predicate IsNmOf(s: Session, d: DeviceId, c: Client) {
    s.active && s.device == d && s.owner == c && s.mode == Nm
  }

  predicate Entitled(r: Registry, k: HotKey) {
    k.client in r.sinks && HasNm(r.sessions, k.device, k.client)
  }

  // `session_transport_active`: mode and generation only, no capability.
  predicate TransportActive(r: Registry, d: DeviceId, t: Token, kind: Mode, generation: nat) {
    && t in r.sessions
    && r.sessions[t].active && r.sessions[t].device == d
    && kind != Nm && r.sessions[t].mode == kind && r.sessions[t].Generation(kind) == generation
  }

  // ---------------------------------------------------- building blocks

  // Stored capabilities of these sessions are revoked and forgotten.
  function Revoke(r: Registry, ts: set<Token>): Registry {
    r.(validity := r.validity - ts,
       valid := r.valid - set t | t in ts && t in r.validity :: r.validity[t])
  }

  function AddGrant(r: Registry, t: Token, g: Grant): Registry {
    r.(validity := r.validity[t := r.nextCell],
       valid := r.valid + {r.nextCell},
       grants := r.grants[r.nextCell := g],
       nextCell := r.nextCell + 1)
  }

  // `replace_transport_validity`: a new capability, the old one revoked.
  function Issue(r: Registry, t: Token, g: Grant): Registry {
    AddGrant(Revoke(r, {t}), t, g)
  }

  // Removes NM bindings and stores `false` in their cells.
  function DropHot(r: Registry, ks: set<HotKey>): Registry {
    r.(hot := r.hot - ks,
       valid := r.valid - set k | k in ks && k in r.hot :: r.hot[k].cell)
  }

  function AddHot(r: Registry, k: HotKey, ch: Channel): Registry {
    r.(hot := r.hot[k := Hot(r.nextCell, ch)],
       valid := r.valid + {r.nextCell},
       bindings := r.bindings[r.nextCell := k],
       nextCell := r.nextCell + 1)
  }

  // `refresh_nm_hot_locked`
  function Refresh(r: Registry, d: DeviceId, c: Client): Registry {
    var k := HotKey(c, d);
    var r1 := DropHot(r, {k});
    if HasNm(r.sessions, d, c) && c in r.sinks && d in r.devices
    then AddHot(r1, k, r.devices[d])
    else r1
  }

  function HotOfDevice(r: Registry, d: DeviceId): set<HotKey> {
    set k | k in r.hot && k.device == d
  }

  function HotOfClient(r: Registry, c: Client): set<HotKey> {
    set k | k in r.hot && k.client == c
  }

  function CountChange(was: bool, now: bool): int {
    if !was && now then 1 else if was && !now then -1 else 0
  }

  function WithMode(r: Registry, t: Token, s: Session): Registry
    requires t in r.sessions
  {
    r.(sessions := r.sessions[t := s],
       nonNm := r.nonNm + CountChange(r.sessions[t].mode != Nm, s.mode != Nm))
  }

  // ---------------------------------------------------- locked transitions

  function RefreshAll(r: Registry, ds: seq<DeviceId>, c: Client): Registry
    decreases |ds|
  {
    if ds == [] then r else RefreshAll(Refresh(r, ds[0], c), ds[1..], c)
  }

  function DevicesOf(r: Registry, c: Client): set<DeviceId> {
    set t | t in r.sessions && r.sessions[t].owner == c && r.sessions[t].active :: r.sessions[t].device
  }

  ghost predicate Lists(order: seq<DeviceId>, ds: set<DeviceId>) {
    && (forall i, j :: 0 <= i < j < |order| ==> order[i] != order[j])
    && (forall d :: d in order <==> d in ds)
  }

  // The hash set of devices is visited in some order.
  function RegisterSink(r: Registry, c: Client, order: seq<DeviceId>): Registry {
    RefreshAll(r.(sinks := r.sinks + {c}), order, c)
  }

  function UnregisterSink(r: Registry, c: Client): Registry {
    DropHot(r.(sinks := r.sinks - {c}), HotOfClient(r, c))
  }

  function NewSession(d: DeviceId, t: Token, c: Client): Session {
    Session(d, c, Nm, AuthHash(t), true, 0, 0)
  }

  // `register_session_locked` followed by `refresh_nm_hot_locked`
  function Register(r: Registry, d: DeviceId, t: Token, c: Client): Registry {
    Refresh(r.(sessions := r.sessions[t := NewSession(d, t, c)],
               hashes := r.hashes[AuthHash(t) := t],
               used := r.used + {t}), d, c)
  }

  function Install(r: Registry, d: DeviceId, ch: Channel, t: Token, c: Client): Registry {
    Register(r.(devices := r.devices[d := ch]), d, t, c)
  }

  // The session a close or mode change may touch.
  predicate Owned(r: Registry, d: DeviceId, t: Token, c: Client) {
    t in r.sessions && r.sessions[t].active && r.sessions[t].device == d && r.sessions[t].owner == c
  }

  // Closing an unknown or already closed session succeeds without effect.
  function CloseOutcome(r: Registry, d: DeviceId, t: Token, c: Client): Outcome {
    if t !in r.sessions then Done
    else if r.sessions[t].device != d then Failed(WrongDevice)
    else if r.sessions[t].owner != c then Failed(WrongOwner)
    else Done
  }

  function SetModeOutcome(r: Registry, d: DeviceId, t: Token, c: Client): Outcome {
    if t !in r.sessions then Failed(NoSession)
    else if !r.sessions[t].active then Failed(SessionClosed)
    else if r.sessions[t].device != d then Failed(WrongDevice)
    else if r.sessions[t].owner != c then Failed(WrongOwner)
    else Done
  }

  // The session, its capability, its hash and its share of the counter go.
  function DropSession(r: Registry, t: Token): Registry
    requires t in r.sessions
  {
    var s := r.sessions[t];
    var r1 := Revoke(r, {t});
    r1.(sessions := r.sessions - {t},
        hashes := r.hashes - {s.hash},
        nonNm := r.nonNm + CountChange(s.mode != Nm, false))
  }

  predicate LastOnDevice(r: Registry, t: Token)
    requires t in r.sessions
  {
    !exists u :: u in r.sessions && u != t && r.sessions[u].device == r.sessions[t].device && r.sessions[u].active
  }

  function Close(r: Registry, d: DeviceId, t: Token, c: Client): Registry {
    if !Owned(r, d, t, c) then r
    else
      var r1 := DropSession(r, t);
      if LastOnDevice(r, t)
      then DropHot(r1, HotOfDevice(r1, d)).(devices := r.devices - {d})
      else Refresh(r1, d, c)
  }

  function SetMode(r: Registry, d: DeviceId, t: Token, mode: Mode, c: Client): Registry {
    if !Owned(r, d, t, c) then r
    else Refresh(WithMode(Revoke(r, {t}), t, r.sessions[t].(mode := mode)), d, c)
  }

  predicate CanConnect(r: Registry, d: DeviceId, t: Token) {
    t in r.sessions && r.sessions[t].active && r.sessions[t].device == d
  }

  function Bump(s: Session, kind: Mode): Session {
    if kind.Ws? then s.(wsGeneration := s.wsGeneration + 1, mode := Ws)
    else s.(wtGeneration := s.wtGeneration + 1, mode := Wt)
  }

  function GrantFor(r: Registry, d: DeviceId, t: Token, kind: Mode): Grant
    requires t in r.sessions
  {
    Grant(t, d, kind, Bump(r.sessions[t], kind).Generation(kind))
  }

  // `ws_connect` (kind Ws) and `wt_connect` (kind Wt)
  function Connect(r: Registry, d: DeviceId, t: Token, kind: Mode): Registry {
    if !CanConnect(r, d, t) then r
    else
      var s := r.sessions[t];
      Refresh(WithMode(Issue(r, t, GrantFor(r, d, t, kind)), t, Bump(s, kind)), d, s.owner)
  }

  predicate DisconnectCurrent(r: Registry, d: DeviceId, t: Token, kind: Mode, generation: nat, cap: Cell) {
    && CanConnect(r, d, t)
    && r.sessions[t].Generation(kind) == generation && r.sessions[t].mode == kind
    && t in r.validity && r.validity[t] == cap
  }

  // `ws_disconnect` and `wt_disconnect`
  function Disconnect(r: Registry, d: DeviceId, t: Token, kind: Mode, generation: nat, cap: Cell): Registry {
    if !DisconnectCurrent(r, d, t, kind, generation, cap) then r
    else Refresh(WithMode(Revoke(r, {t}), t, r.sessions[t].(mode := Nm)), d, r.sessions[t].owner)
  }

  // The locked part of `force_close` and of a dying reader: everything about the
  // device goes, except that the counter is corrected later.
  function Detach(r: Registry, d: DeviceId): Registry {
    var tokens := OnDevice(r.sessions, d);
    var r1 := Revoke(r, tokens).(
      sessions := r.sessions - tokens,
      hashes := map h | h in r.hashes && r.hashes[h] !in tokens :: r.hashes[h],
      devices := r.devices - {d});
    DropHot(r1, HotOfDevice(r1, d))
  }

  // ------------------------------------------------------------ invariants

  ghost predicate DevicesOk(r: Registry) {
    && (forall d :: d in r.devices ==> OnDevice(r.sessions, d) != {})
    && (forall t :: t in r.sessions ==> r.sessions[t].device in r.devices)
    && (forall t :: t in r.sessions ==> t in r.used && r.sessions[t].active)
  }

  ghost predicate HashesOk(r: Registry) {
    && (forall t :: t in r.sessions ==> r.sessions[t].hash == AuthHash(t))
    && (forall h :: h in r.hashes <==> h.token in r.sessions)
    && (forall h :: h in r.hashes ==> r.hashes[h] == h.token)
  }

  // A stored capability belongs to a live session in that mode at that generation.
  ghost predicate StoredOk(r: Registry) {
    forall t :: t in r.validity ==> StoredFor(r, t)
  }

  ghost predicate StoredFor(r: Registry, t: Token)
    requires t in r.validity
  {
    && t in r.sessions
    && r.sessions[t].mode != Nm
    && r.validity[t] in r.grants
    && r.grants[r.validity[t]] ==
       Grant(t, r.sessions[t].device, r.sessions[t].mode, r.sessions[t].Generation(r.sessions[t].mode))
  }

  ghost predicate CellsOk(r: Registry) {
    GrantCells(r) && ValidityCells(r) && BindingCells(r) && HotCells(r)
  }

  // A capability is valid iff it is the one stored for its token.
  ghost predicate GrantCells(r: Registry) {
    forall f :: f in r.grants ==>
      f < r.nextCell && r.grants[f].token in r.used && (f in r.valid <==> Stored(r, f))
  }

  ghost predicate ValidityCells(r: Registry) {
    forall t :: t in r.validity ==> r.validity[t] in r.grants && r.grants[r.validity[t]].token == t
  }

  // The flag of an NM binding is valid iff that binding is the current one.
  ghost predicate BindingCells(r: Registry) {
    forall f :: f in r.bindings ==>
      f < r.nextCell && f !in r.grants && (f in r.valid <==> Bound(r, f))
  }

  ghost predicate HotCells(r: Registry) {
    && (forall k :: k in r.hot ==> r.hot[k].cell in r.bindings && r.bindings[r.hot[k].cell] == k)
    && (forall f :: f in r.valid ==> f in r.grants || f in r.bindings)
  }

  predicate Stored(r: Registry, f: Cell)
    requires f in r.grants
  {
    r.grants[f].token in r.validity && r.validity[r.grants[f].token] == f
  }

  predicate Bound(r: Registry, f: Cell)
    requires f in r.bindings
  {
    r.bindings[f] in r.hot && r.hot[r.bindings[f]].cell == f
  }

  // Generations only grow, so no two capabilities carry the same grant.
  ghost predicate GrantsOk(r: Registry) {
    && (forall f :: f in r.grants ==> GrantBelow(r, r.grants[f]))
    && (forall f, g :: f in r.grants && g in r.grants && r.grants[f] == r.grants[g] ==> f == g)
  }

  ghost predicate GrantBelow(r: Registry, g: Grant) {
    && g.kind != Nm
    && (g.token in r.sessions ==>
          g.device == r.sessions[g.token].device && g.generation <= r.sessions[g.token].Generation(g.kind))
  }

  ghost predicate HotOk(r: Registry) {
    && (forall k :: k in r.hot <==> Entitled(r, k))
    && HotChannels(r)
  }

  ghost predicate HotChannels(r: Registry) {
    forall k :: k in r.hot ==> k.device in r.devices && r.hot[k].channel == r.devices[k.device]
  }

  // `HotOk` with one key still to be refreshed.
  ghost predicate HotOkExcept(r: Registry, e: HotKey) {
    && (forall k :: k != e ==> (k in r.hot <==> Entitled(r, k)))
    && (forall k :: k in r.hot && k != e ==> k.device in r.devices && r.hot[k].channel == r.devices[k.device])
  }

  ghost predicate CountOk(r: Registry, owed: int) {
    r.nonNm == |NonNm(r.sessions)| + owed
  }

  // Everything except the counter, whose law needs the teardowns in flight.
  ghost predicate Coherent(r: Registry) {
    DevicesOk(r) && HashesOk(r) && StoredOk(r) && CellsOk(r) && GrantsOk(r) && HotOk(r)
  }

  // ------------------------------------------------- steps between registries

  // What no transition ever undoes: revoked cells stay revoked, history only grows.
  ghost predicate Grows(r: Registry, q: Registry) {
    && r.nextCell <= q.nextCell
    && (forall f :: f in r.grants ==> f in q.grants && q.grants[f] == r.grants[f])
    && (forall f :: f in r.bindings ==> f in q.bindings && q.bindings[f] == r.bindings[f])
    && (forall f :: f in q.grants && f < r.nextCell ==> f in r.grants)
    && (forall f :: f in q.bindings && f < r.nextCell ==> f in r.bindings)
    && (forall f :: f in q.valid && f < r.nextCell ==> f in r.valid)
    && r.used <= q.used
  }
}
