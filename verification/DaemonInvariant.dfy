// What holds in every reachable state of the daemon.
module DaemonInvariant {
  import opened Lifecycle
  import opened Daemon

  // -------------------------------------------------------- the counter debt

  function Debt(a: Action): nat {
    if a.Subtract? then a.count else 0
  }

  function OwedBy(tail: seq<Action>): nat {
    if tail == [] then 0 else Debt(tail[0]) + OwedBy(tail[1..])
  }

  function Owed(tails: seq<seq<Action>>): nat {
    if tails == [] then 0 else OwedBy(tails[0]) + Owed(tails[1..])
  }

  // `non_nm_sessions` counts the live sessions outside NM mode plus the
  // decrements that teardowns have not made yet.
  ghost predicate RegistryOk(s: State) {
    Coherent(s.reg) && CountOk(s.reg, Owed(s.tails))
  }

  // --------------------------------------------------------- cancellation

  predicate PendingAt(tails: seq<seq<Action>>, i: nat, j: nat, t: Token) {
    i < |tails| && j < |tails[i]| && tails[i][j].Cancel? && t in tails[i][j].tokens
  }

  ghost predicate Pending(tails: seq<seq<Action>>, t: Token) {
    exists i: nat, j: nat :: PendingAt(tails, i, j, t)
  }

  // Every token ever registered is live, cancelled, or about to be cancelled by
  // exactly one teardown, and only one of the three.
  ghost predicate CancelOk(s: State) {
    && (forall t :: t in s.reg.used <==> t in s.reg.sessions || t in s.cancelled || Pending(s.tails, t))
    && (forall t :: t in s.reg.sessions ==> t !in s.cancelled && !Pending(s.tails, t))
    && (forall t :: t in s.cancelled ==> !Pending(s.tails, t))
    && PendingOnce(s.tails)
  }

  ghost predicate PendingOnce(tails: seq<seq<Action>>) {
    forall i: nat, j: nat, k: nat, l: nat, t: Token ::
      PendingAt(tails, i, j, t) && PendingAt(tails, k, l, t) ==> i == k && j == l
  }

  // --------------------------------------------------------------- openers

  predicate Unregistered(p: Phase) {
    p.Trying? || p.Waiting? || p.Woken? || p.Opening? || p.Spawned?
  }

  predicate BeforeInstall(p: Phase) {
    p.Opening? || p.Spawned?
  }

  predicate Holds(p: Phase) {
    p.Opening? || p.Spawned? || p.Finishing?
  }

  // Will wake the waiters of this reservation.
  predicate Answers(p: Phase, res: Reservation) {
    (Holds(p) || p.Notifying?) && p.res == res
  }

  ghost predicate OpenersOk(s: State) {
    TokensOk(s) && HoldersOk(s) && WaitersOk(s)
  }

  ghost predicate TokensOk(s: State) {
    && (forall o :: o in s.openers && Unregistered(s.openers[o].phase) ==> s.openers[o].token !in s.reg.used)
    && (forall o, p :: o in s.openers && p in s.openers && o != p ==> s.openers[o].token != s.openers[p].token)
  }

  // A reservation is held by exactly one opener, and while that opener has not
  // published an entry the device has none.
  ghost predicate HoldersOk(s: State) {
    && (forall o :: o in s.openers && Holds(s.openers[o].phase) ==>
          s.openers[o].device in s.opening && s.opening[s.openers[o].device] == s.openers[o].phase.res)
    && (forall d, o, p :: HolderOf(s, d, o) && HolderOf(s, d, p) ==> o == p)
    && (forall d :: d in s.opening ==> exists o :: HolderOf(s, d, o))
    && (forall o :: o in s.openers && BeforeInstall(s.openers[o].phase) ==> s.openers[o].device !in s.reg.devices)
  }

  predicate HolderOf(s: State, d: DeviceId, o: OpenerId) {
    o in s.openers && Holds(s.openers[o].phase) && s.openers[o].device == d
  }

  predicate AnswererOf(s: State, res: Reservation, o: OpenerId) {
    o in s.openers && Answers(s.openers[o].phase, res)
  }

  // Nobody waits for a notification that will not come.
  ghost predicate WaitersOk(s: State) {
    forall o :: o in s.openers && s.openers[o].phase.Waiting? ==> exists p :: AnswererOf(s, s.openers[o].phase.res, p)
  }

  // ----------------------------------------------------------------- lines

  predicate Tears(a: Action, ch: Channel) {
    (a.BumpEpoch? || a.SendShutdown?) && a.channel == ch
  }

  predicate TornAt(tails: seq<seq<Action>>, i: nat, j: nat, ch: Channel) {
    i < |tails| && j < |tails[i]| && Tears(tails[i][j], ch)
  }

  ghost predicate Torn(tails: seq<seq<Action>>, ch: Channel) {
    exists i: nat, j: nat :: TornAt(tails, i, j, ch)
  }

  // A line nobody has begun to tear down.
  ghost predicate Intact(s: State, ch: Channel, d: DeviceId) {
    && ch in s.lines && s.lines[ch].device == d && s.lines[ch].epoch == 0 && s.lines[ch].running
    && (forall i :: 0 <= i < |s.lines[ch].queue| ==> s.lines[ch].queue[i].Command?)
    && !Torn(s.tails, ch)
  }

  ghost predicate LinesOk(s: State) {
    && (forall ch :: ch in s.lines ==> ch < s.nextChannel && |s.lines[ch].queue| <= CAPACITY)
    && (forall ch :: ch in s.lines && !s.lines[ch].running ==> s.lines[ch].queue == [])
    && (forall ch :: Torn(s.tails, ch) ==> ch in s.lines)
    && (forall ch :: ch in s.readers ==> ch in s.lines)
    && (forall d :: d in s.reg.devices ==> Intact(s, s.reg.devices[d], d))
    && SpawnedOk(s)
  }

  ghost predicate SpawnedOk(s: State) {
    && (forall o :: o in s.openers && s.openers[o].phase.Spawned? ==>
          Intact(s, s.openers[o].phase.channel, s.openers[o].device)
          && (forall d :: d in s.reg.devices ==> s.reg.devices[d] != s.openers[o].phase.channel))
    && (forall ch, o, p :: SpawnerOf(s, ch, o) && SpawnerOf(s, ch, p) ==> o == p)
  }

  predicate SpawnerOf(s: State, ch: Channel, o: OpenerId) {
    o in s.openers && s.openers[o].phase.Spawned? && s.openers[o].phase.channel == ch
  }

  // -------------------------------------------------------------- requests

  predicate Aimed(p: Progress) {
    p.Attached? || p.Stamped? || p.Queued?
  }

  // A request whose cell is still valid is aimed at its device's current line.
  ghost predicate RequestOk(s: State, p: Progress) {
    && (p.Checked? ==> p.cell in s.reg.grants)
    && (Aimed(p) ==>
          && (p.cell in s.reg.grants || p.cell in s.reg.bindings)
          && p.channel in s.lines
          && (p.cell in s.reg.valid ==>
                CellDevice(s.reg, p.cell) in s.reg.devices && s.reg.devices[CellDevice(s.reg, p.cell)] == p.channel))
    && (p.Stamped? || p.Queued? ==> p.epoch <= s.lines[p.channel].epoch)
  }

  ghost predicate RequestsOk(s: State) {
    && (forall q :: q in s.requests ==> RequestOk(s, s.requests[q]))
    && QueuesOk(s.lines, s.requests)
  }

  predicate QueuedAt(lines: map<Channel, Line>, ch: Channel, i: nat, q: Request) {
    ch in lines && i < |lines[ch].queue| && lines[ch].queue[i].Command? && lines[ch].queue[i].request == q
  }

  // A queued request is in one queue, once; nothing else is in any queue.
  ghost predicate QueuesOk(lines: map<Channel, Line>, requests: map<Request, Progress>) {
    && (forall ch, i: nat, q :: QueuedAt(lines, ch, i, q) ==>
          q in requests && requests[q] == Queued(lines[ch].queue[i].cell, ch, lines[ch].queue[i].epoch))
    && (forall ch, i: nat, j: nat, q :: QueuedAt(lines, ch, i, q) && QueuedAt(lines, ch, j, q) ==> i == j)
    && (forall q :: q in requests && requests[q].Queued? ==>
          exists i: nat :: QueuedAt(lines, requests[q].channel, i, q))
  }

  ghost predicate Rest(s: State) {
    CancelOk(s) && OpenersOk(s) && LinesOk(s) && RequestsOk(s)
  }

  ghost predicate Inv(s: State) {
    RegistryOk(s) && Rest(s)
  }

  // How a registry may change under requests in flight: a cell keeps its meaning,
  // is never revived, and while it is valid its device keeps its line.
  ghost predicate Tracks(r: Registry, q: Registry) {
    && (forall f :: f in r.grants ==> f in q.grants && q.grants[f] == r.grants[f])
    && (forall f :: f in r.grants || f in r.bindings ==> TracksCell(r, q, f))
  }

  ghost predicate TracksCell(r: Registry, q: Registry, f: Cell)
    requires f in r.grants || f in r.bindings
  {
    && (f in q.grants || f in q.bindings)
    && CellDevice(q, f) == CellDevice(r, f)
    && (f in q.valid ==>
          && f in r.valid && CellDevice(r, f) in q.devices
          && (CellDevice(r, f) in r.devices ==> q.devices[CellDevice(r, f)] == r.devices[CellDevice(r, f)]))
  }
}
