module DaemonProofs {
  import opened Lifecycle
  import opened LifecycleProofs
  import opened Daemon
  import opened DaemonInvariant

  lemma InitOk()
    ensures Inv(INIT)
  {
  }

  // A valid cell belongs to a device that has an entry.
  lemma ValidHasEntry(r: Registry, f: Cell)
    requires Coherent(r) && f in r.valid
    ensures (f in r.grants || f in r.bindings) && CellDevice(r, f) in r.devices
  {
    if f in r.grants {
      assert StoredFor(r, r.grants[f].token);
    } else {
      assert Bound(r, f);
      assert Entitled(r, r.bindings[f]);
    }
  }

  // No transition moves an entry to another line.
  lemma TracksOf(r: Registry, q: Registry)
    requires CellsOk(r) && Coherent(q) && Grows(r, q)
    requires forall d :: d in r.devices && d in q.devices ==> r.devices[d] == q.devices[d]
    ensures Tracks(r, q)
  {
    forall f | f in r.grants || f in r.bindings ensures TracksCell(r, q, f) {
      assert f in q.bindings && f !in r.grants ==> f !in q.grants;
      if f in q.valid {
        ValidHasEntry(q, f);
      }
    }
  }

  lemma TracksSame(r: Registry, q: Registry)
    requires q.grants == r.grants && q.bindings == r.bindings && q.valid == r.valid && q.devices == r.devices
    requires Coherent(r)
    ensures Tracks(r, q)
  {
    forall f | f in r.grants || f in r.bindings ensures TracksCell(r, q, f) {
      if f in q.valid {
        ValidHasEntry(r, f);
      }
    }
  }

  lemma RequestsKept(s: State, z: State)
    requires Tracks(s.reg, z.reg) && RequestsOk(s)
    requires z.lines == s.lines && z.requests == s.requests
    ensures RequestsOk(z)
  {
    forall q | q in z.requests ensures RequestOk(z, z.requests[q]) {
      assert RequestOk(s, s.requests[q]);
      assert Aimed(s.requests[q]) ==> TracksCell(s.reg, z.reg, s.requests[q].cell);
    }
  }

  lemma OnlyRequests(s: State, z: State)
    requires RequestsOk(s) && z.reg == s.reg.(nonNm := z.reg.nonNm) && z.lines == s.lines && z.requests == s.requests
    ensures RequestsOk(z)
  {
    assert forall q :: q in s.requests ==> RequestOk(z, s.requests[q]) == RequestOk(s, s.requests[q]);
  }

  // ------------------------------------------ steps that keep every entry

  lemma RegistryEvent(s: State, z: State)
    requires Rest(s) && Tracks(s.reg, z.reg) && z == s.(reg := z.reg)
    requires SameFrame(s.reg, z.reg)
    ensures Rest(z)
  {
    RequestsKept(s, z);
    CancelSame(s, z);
    OpenersSame(s, z);
    LinesSame(s, z);
  }

  lemma CancelSame(s: State, z: State)
    requires CancelOk(s) && z.reg.used == s.reg.used && z.reg.sessions.Keys == s.reg.sessions.Keys
    requires z.cancelled == s.cancelled && z.tails == s.tails
    ensures CancelOk(z)
  {
    assert forall t :: t in z.reg.sessions <==> t in s.reg.sessions;
  }

  lemma OpenersSame(s: State, z: State)
    requires OpenersOk(s)
    requires z.reg.used == s.reg.used && z.reg.devices.Keys <= s.reg.devices.Keys
    requires z.openers == s.openers && z.opening == s.opening
    ensures OpenersOk(z)
  {
    assert forall d, o :: HolderOf(z, d, o) == HolderOf(s, d, o);
    assert forall res, o :: AnswererOf(z, res, o) == AnswererOf(s, res, o);
  }

  lemma LinesSame(s: State, z: State)
    requires LinesOk(s)
    requires z.reg.devices == s.reg.devices && z.openers == s.openers
    requires z.lines == s.lines && z.nextChannel == s.nextChannel && z.tails == s.tails && z.readers <= s.readers
    ensures LinesOk(z)
  {
    assert forall ch, d :: Intact(z, ch, d) == Intact(s, ch, d);
    assert forall ch, o :: SpawnerOf(z, ch, o) == SpawnerOf(s, ch, o);
  }

  lemma RefreshAllFrame(r: Registry, ds: seq<DeviceId>, c: Client)
    ensures var q := RefreshAll(r, ds, c); q.devices == r.devices && q.used == r.used && q.sessions == r.sessions
    decreases |ds|
  {
    if ds != [] {
      RefreshFrame(r, ds[0], c);
      RefreshAllFrame(Refresh(r, ds[0], c), ds[1..], c);
    }
  }

  // The parts of the registry that a change of plane leaves alone.
  ghost predicate SameFrame(r: Registry, q: Registry) {
    q.devices == r.devices && q.used == r.used && q.sessions.Keys == r.sessions.Keys
  }

  lemma SetModeFrame(r: Registry, d: DeviceId, t: Token, mode: Mode, c: Client)
    ensures SameFrame(r, SetMode(r, d, t, mode, c))
  {
    if Owned(r, d, t, c) {
      RefreshFrame(WithMode(Revoke(r, {t}), t, r.sessions[t].(mode := mode)), d, c);
    }
  }

  lemma ConnectFrame(r: Registry, d: DeviceId, t: Token, kind: Mode)
    ensures SameFrame(r, Connect(r, d, t, kind))
  {
    if CanConnect(r, d, t) {
      var s := r.sessions[t];
      RefreshFrame(WithMode(Issue(r, t, GrantFor(r, d, t, kind)), t, Bump(s, kind)), d, s.owner);
    }
  }

  lemma DisconnectFrame(r: Registry, d: DeviceId, t: Token, kind: Mode, generation: nat, cap: Cell)
    ensures SameFrame(r, Disconnect(r, d, t, kind, generation, cap))
  {
    if DisconnectCurrent(r, d, t, kind, generation, cap) {
      var s := r.sessions[t];
      RefreshFrame(WithMode(Revoke(r, {t}), t, s.(mode := Nm)), d, s.owner);
    }
  }

  predicate SimpleEvent(e: Event) {
    e.SinkOn? || e.SinkOff? || e.ModeCall? || e.ConnectCall? || e.DisconnectCall?
  }

  lemma SimpleRegistry(s: State, e: Event)
    requires RegistryOk(s) && Enabled(s, e) && SimpleEvent(e)
    ensures var z := Step(s, e);
      SameFrame(s.reg, z.reg) && Tracks(s.reg, z.reg) && z == s.(reg := z.reg) && RegistryOk(z)
  {
    var q := Step(s, e).reg;
    assert SameFrame(s.reg, q) && Coherent(q) && CountOk(q, Owed(s.tails)) && Grows(s.reg, q) by {
      match e {
        case SinkOn(c, order) =>
          RegisterSinkKeeps(s.reg, c, order, Owed(s.tails));
          RefreshAllFrame(s.reg.(sinks := s.reg.sinks + {c}), order, c);
        case SinkOff(c) =>
          UnregisterSinkKeeps(s.reg, c, Owed(s.tails));
        case ModeCall(d, t, mode, c) =>
          SetModeKeeps(s.reg, d, t, mode, c, Owed(s.tails));
          SetModeFrame(s.reg, d, t, mode, c);
        case ConnectCall(kind, d, t) =>
          ConnectKeeps(s.reg, d, t, kind, Owed(s.tails));
          ConnectFrame(s.reg, d, t, kind);
        case DisconnectCall(kind, d, t, gen, cap) =>
          DisconnectKeeps(s.reg, d, t, kind, gen, cap, Owed(s.tails));
          DisconnectFrame(s.reg, d, t, kind, gen, cap);
        case _ =>
      }
    }
    TracksOf(s.reg, q);
  }

  // ------------------------------------------------- steps that end a device

  lemma OwedAppend(tails: seq<seq<Action>>, tail: seq<Action>)
    ensures Owed(tails + [tail]) == Owed(tails) + OwedBy(tail)
  {
    if tails == [] {
      assert tails + [tail] == [tail];
    } else {
      assert (tails + [tail])[1..] == tails[1..] + [tail];
      OwedAppend(tails[1..], tail);
    }
  }

  lemma OwedUpdate(tails: seq<seq<Action>>, i: nat, tail: seq<Action>)
    requires i < |tails|
    ensures Owed(tails[i := tail]) == Owed(tails) - OwedBy(tails[i]) + OwedBy(tail)
  {
    if i > 0 {
      assert tails[i := tail][1..] == tails[1..][i - 1 := tail];
      OwedUpdate(tails[1..], i - 1, tail);
    } else {
      assert tails[0 := tail][1..] == tails[1..];
    }
  }

  lemma PendingAppend(tails: seq<seq<Action>>, tail: seq<Action>)
    ensures forall i: nat, j: nat, t :: PendingAt(tails + [tail], i, j, t)
              <==> (PendingAt(tails, i, j, t) || (i == |tails| && PendingAt([tail], 0, j, t)))
    ensures forall i: nat, j: nat, ch :: TornAt(tails + [tail], i, j, ch)
              <==> (TornAt(tails, i, j, ch) || (i == |tails| && TornAt([tail], 0, j, ch)))
  {
  }

  // The tail stops the line of the device that went, and no other.
  lemma LinesAfterTeardown(s: State, z: State, d: DeviceId, tail: seq<Action>)
    requires LinesOk(s)
    requires z.reg.devices == s.reg.devices - {d} && z.tails == s.tails + [tail]
    requires z.lines == s.lines && z.nextChannel == s.nextChannel && z.readers <= s.readers
    requires forall o :: o in z.openers && z.openers[o].phase.Spawned? ==>
      o in s.openers && s.openers[o] == z.openers[o]
    requires forall j: nat, ch :: TornAt([tail], 0, j, ch) ==> d in s.reg.devices && ch == s.reg.devices[d]
    ensures LinesOk(z)
  {
    PendingAppend(s.tails, tail);
    forall ch | Torn(z.tails, ch) ensures Torn(s.tails, ch) || (d in s.reg.devices && ch == s.reg.devices[d]) {
      var i: nat, j: nat :| TornAt(z.tails, i, j, ch);
      assert TornAt(s.tails, i, j, ch) || TornAt([tail], 0, j, ch);
    }
    forall ch, e | Intact(s, ch, e) && (d in s.reg.devices ==> ch != s.reg.devices[d]) ensures Intact(z, ch, e) {
    }
    forall e | e in z.reg.devices ensures Intact(z, z.reg.devices[e], e) {
      assert Intact(s, s.reg.devices[e], e);
      if d in s.reg.devices {
        assert Intact(s, s.reg.devices[d], d);
      }
    }
    assert forall ch, o :: SpawnerOf(z, ch, o) ==> SpawnerOf(s, ch, o);
  }

  lemma OpenersAfterWake(s: State, z: State, res: Reservation)
    requires OpenersOk(s)
    requires z.reg.used == s.reg.used && z.reg.devices.Keys <= s.reg.devices.Keys
    requires z.openers == Wake(s.openers, res) && z.opening == s.opening
    ensures OpenersOk(z)
  {
    HoldersAfterWake(s, z, res);
    WaitersAfterWake(s, z, res);
  }

  lemma HoldersAfterWake(s: State, z: State, res: Reservation)
    requires HoldersOk(s) && z.reg.devices.Keys <= s.reg.devices.Keys
    requires z.openers == Wake(s.openers, res) && z.opening == s.opening
    ensures HoldersOk(z)
  {
    assert forall d, o :: HolderOf(z, d, o) == HolderOf(s, d, o);
  }

  lemma WaitersAfterWake(s: State, z: State, res: Reservation)
    requires TokensOk(s) && WaitersOk(s) && z.reg.used == s.reg.used && z.openers == Wake(s.openers, res)
    ensures TokensOk(z) && WaitersOk(z)
  {
    assert forall r, o :: AnswererOf(z, r, o) == AnswererOf(s, r, o);
  }

  lemma CancelAfterTeardown(s: State, z: State, ts: set<Token>, tail: seq<Action>)
    requires CancelOk(s)
    requires z.reg.used == s.reg.used && z.tails == s.tails + [tail]
    requires z.reg.sessions.Keys == s.reg.sessions.Keys - ts && ts <= s.reg.sessions.Keys
    requires forall j: nat, k: nat, t, u :: PendingAt([tail], 0, j, t) && PendingAt([tail], 0, k, u) ==> j == k
    requires z.cancelled == s.cancelled
    requires (forall t :: Pending([tail], t) <==> t in ts)
    ensures CancelOk(z)
  {
    PendingAppend(s.tails, tail);
    forall t ensures Pending(z.tails, t) <==> Pending(s.tails, t) || t in ts {
      if Pending(s.tails, t) {
        var i: nat, j: nat :| PendingAt(s.tails, i, j, t);
        assert PendingAt(z.tails, i, j, t);
      }
      if t in ts {
        var i: nat, j: nat :| PendingAt([tail], i, j, t);
        assert PendingAt(z.tails, |s.tails|, j, t);
      }
    }
    assert forall t :: t in z.reg.sessions <==> t in s.reg.sessions && t !in ts;
    forall i: nat, j: nat, k: nat, l: nat, t | PendingAt(z.tails, i, j, t) && PendingAt(z.tails, k, l, t)
      ensures i == k && j == l
    {
      assert i == |s.tails| ==> Pending([tail], t);
      assert k == |s.tails| ==> Pending([tail], t);
      assert i < |s.tails| || k < |s.tails| ==> Pending(s.tails, t) || i == k;
    }
  }

  // ------------------------------------------------------------ teardowns

  lemma DetachFrame(r: Registry, d: DeviceId)
    ensures var q := Detach(r, d);
      && q.devices == r.devices - {d} && q.used == r.used
      && q.sessions.Keys == r.sessions.Keys - OnDevice(r.sessions, d)
  {
  }

  lemma OwedConcat(a: seq<Action>, b: seq<Action>)
    ensures OwedBy(a + b) == OwedBy(a) + OwedBy(b)
  {
    if a == [] {
      assert a + b == b;
    } else {
      assert (a + b)[1..] == a[1..] + b;
    }
  }

  lemma OwedByTwo(a: Action, b: Action)
    ensures OwedBy([a, b]) == Debt(a) + Debt(b)
  {
    assert [a, b][1..] == [b] && [b][1..] == [];
    assert OwedBy([b]) == Debt(b) + OwedBy([]);
  }

  // A teardown tail of a whole device: owes the excess, cancels the sessions once,
  // stops the line of the entry it found.
  ghost predicate DeviceTail(r: Registry, d: DeviceId, tail: seq<Action>) {
    && OwedBy(tail) == Excess(r, d)
    && (forall j: nat, k: nat, t, u :: PendingAt([tail], 0, j, t) && PendingAt([tail], 0, k, u) ==> j == k)
    && (forall t :: Pending([tail], t) <==> t in OnDevice(r.sessions, d))
    && (forall j: nat, ch :: TornAt([tail], 0, j, ch) ==> d in r.devices && ch == r.devices[d])
  }

  lemma ForceCloseTailOk(r: Registry, d: DeviceId)
    ensures DeviceTail(r, d, ForceCloseTail(r, d))
  {
    var tail := ForceCloseTail(r, d);
    var a := [Cancel(OnDevice(r.sessions, d)), Subtract(Excess(r, d))];
    var b := if d in r.devices then StopEntry(r.devices[d]) else [];
    OwedConcat(a, b);
    OwedByTwo(a[0], a[1]);
    if d in r.devices {
      OwedByTwo(b[0], b[1]);
    }
    forall t ensures Pending([tail], t) <==> t in OnDevice(r.sessions, d) {
      assert PendingAt([tail], 0, 0, t) <==> t in OnDevice(r.sessions, d);
    }
  }

  lemma ReaderTailOk(r: Registry, d: DeviceId)
    requires d in r.devices
    ensures DeviceTail(r, d, ReaderTail(r, d))
  {
    var tail := ReaderTail(r, d);
    var a := StopEntry(r.devices[d]);
    var b := [Subtract(Excess(r, d)), Cancel(OnDevice(r.sessions, d))];
    OwedConcat(a, b);
    OwedByTwo(a[0], a[1]);
    OwedByTwo(b[0], b[1]);
    forall t ensures Pending([tail], t) <==> t in OnDevice(r.sessions, d) {
      assert PendingAt([tail], 0, 3, t) <==> t in OnDevice(r.sessions, d);
    }
  }

  lemma TeardownRest(s: State, z: State, d: DeviceId, tail: seq<Action>)
    requires Rest(s) && DeviceTail(s.reg, d, tail) && Tracks(s.reg, z.reg) && OpenersOk(z)
    requires z.reg.devices == s.reg.devices - {d} && z.reg.used == s.reg.used
    requires z.reg.sessions.Keys == s.reg.sessions.Keys - OnDevice(s.reg.sessions, d)
    requires z.tails == s.tails + [tail] && z.cancelled == s.cancelled
    requires z.lines == s.lines && z.nextChannel == s.nextChannel && z.readers <= s.readers && z.requests == s.requests
    requires forall o :: o in z.openers && z.openers[o].phase.Spawned? ==>
      o in s.openers && s.openers[o] == z.openers[o]
    ensures Rest(z)
  {
    CancelAfterTeardown(s, z, OnDevice(s.reg.sessions, d), tail);
    LinesAfterTeardown(s, z, d, tail);
    RequestsKept(s, z);
  }

  lemma ForceCloseKeeps(s: State, d: DeviceId)
    requires Inv(s)
    ensures Inv(ForceCloseStep(s, d))
  {
    ForceCloseTailOk(s.reg, d);
    DetachFrame(s.reg, d);
    TeardownRegistry(s, d, ForceCloseTail(s.reg, d));
    ForceCloseOpeners(s, d);
    TeardownRest(s, ForceCloseStep(s, d), d, ForceCloseTail(s.reg, d));
  }

  lemma ForceCloseOpeners(s: State, d: DeviceId)
    requires OpenersOk(s)
    ensures OpenersOk(ForceCloseStep(s, d))
  {
    DetachFrame(s.reg, d);
    if d in s.opening {
      OpenersAfterWake(s, ForceCloseStep(s, d), s.opening[d]);
    } else {
      OpenersSame(s, ForceCloseStep(s, d));
    }
  }

  lemma TeardownRegistry(s: State, d: DeviceId, tail: seq<Action>)
    requires RegistryOk(s) && OwedBy(tail) == Excess(s.reg, d)
    ensures var q := Detach(s.reg, d);
      Tracks(s.reg, q) && Coherent(q) && CountOk(q, Owed(s.tails + [tail]))
  {
    DetachKeeps(s.reg, d, Owed(s.tails));
    DetachFrame(s.reg, d);
    TracksOf(s.reg, Detach(s.reg, d));
    OwedAppend(s.tails, tail);
  }

  lemma ReaderDiesKeeps(s: State, ch: Channel)
    requires Inv(s)
    ensures Inv(ReaderDiesStep(s, ch))
  {
    if ch in s.lines && s.lines[ch].device in s.reg.devices {
      var d := s.lines[ch].device;
      ReaderTailOk(s.reg, d);
      DetachFrame(s.reg, d);
      TeardownRegistry(s, d, ReaderTail(s.reg, d));
      OpenersSame(s, ReaderDiesStep(s, ch));
      TeardownRest(s, ReaderDiesStep(s, ch), d, ReaderTail(s.reg, d));
    } else {
      ReaderGone(s, ReaderDiesStep(s, ch));
    }
  }

  lemma ReaderGone(s: State, z: State)
    requires Inv(s) && z == s.(readers := z.readers) && z.readers <= s.readers
    ensures Inv(z)
  {
    LinesSame(s, z);
    OpenersSame(s, z);
    CancelSame(s, z);
    OnlyRequests(s, z);
  }

  lemma CloseFrame(r: Registry, d: DeviceId, t: Token, c: Client)
    requires Owned(r, d, t, c)
    ensures var q := Close(r, d, t, c);
      && q.sessions.Keys == r.sessions.Keys - {t} && q.used == r.used
      && q.devices == if LastOnDevice(r, t) then r.devices - {d} else r.devices
  {
    if !LastOnDevice(r, t) {
      RefreshFrame(DropSession(r, t), d, c);
    }
  }

  lemma CancelAfterClose(s: State, z: State, t: Token)
    requires CancelOk(s) && t in s.reg.sessions
    requires z.reg.used == s.reg.used && z.reg.sessions.Keys == s.reg.sessions.Keys - {t}
    requires z.cancelled == s.cancelled + {t}
    requires forall i: nat, j: nat, u :: PendingAt(z.tails, i, j, u) <==> PendingAt(s.tails, i, j, u)
    ensures CancelOk(z)
  {
    assert forall u :: Pending(z.tails, u) <==> Pending(s.tails, u);
    assert forall u :: u in z.reg.sessions <==> u in s.reg.sessions && u != t;
  }

  lemma CloseEventKeeps(s: State, d: DeviceId, t: Token, c: Client)
    requires Inv(s)
    ensures Inv(CloseStep(s, d, t, c))
  {
    if Owned(s.reg, d, t, c) {
      CloseRegistry(s, d, t, c);
      CloseRest(s, CloseStep(s, d, t, c), d, t);
    }
  }

  lemma CloseRegistry(s: State, d: DeviceId, t: Token, c: Client)
    requires RegistryOk(s) && Owned(s.reg, d, t, c)
    ensures var z := CloseStep(s, d, t, c);
      && RegistryOk(z) && Tracks(s.reg, z.reg)
      && z.reg.sessions.Keys == s.reg.sessions.Keys - {t} && z.reg.used == s.reg.used
      && z.reg.devices == if LastOnDevice(s.reg, t) then s.reg.devices - {d} else s.reg.devices
  {
    CloseKeeps(s.reg, d, t, c, Owed(s.tails));
    CloseFrame(s.reg, d, t, c);
    TracksOf(s.reg, Close(s.reg, d, t, c));
    if d in s.reg.devices {
      StopTail(s, s.reg.devices[d]);
    }
  }

  // Stopping a line owes nothing and cancels nobody.
  lemma StopTail(s: State, ch: Channel)
    ensures Owed(s.tails + [StopEntry(ch)]) == Owed(s.tails)
    ensures forall i: nat, j: nat, u :: PendingAt(s.tails + [StopEntry(ch)], i, j, u) <==> PendingAt(s.tails, i, j, u)
    ensures forall j: nat, k :: TornAt([StopEntry(ch)], 0, j, k) ==> k == ch
  {
    OwedAppend(s.tails, StopEntry(ch));
    OwedByTwo(BumpEpoch(ch), SendShutdown(ch));
    PendingAppend(s.tails, StopEntry(ch));
  }

  lemma CloseRest(s: State, z: State, d: DeviceId, t: Token)
    requires Rest(s) && t in s.reg.sessions && d in s.reg.devices && Tracks(s.reg, z.reg)
    requires z.reg.used == s.reg.used && z.reg.sessions.Keys == s.reg.sessions.Keys - {t}
    requires z == s.(reg := z.reg, cancelled := s.cancelled + {t}, tails := z.tails)
    requires || (z.reg.devices == s.reg.devices && z.tails == s.tails)
             || (z.reg.devices == s.reg.devices - {d} && z.tails == s.tails + [StopEntry(s.reg.devices[d])])
    ensures Rest(z)
  {
    StopTail(s, s.reg.devices[d]);
    CancelAfterClose(s, z, t);
    OpenersSame(s, z);
    RequestsKept(s, z);
    if z.tails == s.tails {
      LinesSame(s, z);
    } else {
      LinesAfterTeardown(s, z, d, StopEntry(s.reg.devices[d]));
    }
  }

  // ----------------------------------------------------- after the mutex

  lemma TailStepKeeps(s: State, i: nat)
    requires Inv(s) && TailReady(s, i)
    ensures Inv(TailStepped(s, i))
  {
    TailOpeners(s, i);
    TailCancel(s, i);
    TailLines(s, i);
    TailRequests(s, i);
    TailRegistry(s, i);
  }

  lemma TailOpeners(s: State, i: nat)
    requires OpenersOk(s) && TailReady(s, i)
    ensures OpenersOk(TailStepped(s, i))
  {
    OpenersSame(s, TailStepped(s, i));
  }

  lemma TailShift(tails: seq<seq<Action>>, i: nat)
    requires i < |tails| && tails[i] != []
    ensures var next := tails[i := tails[i][1..]];
      && (forall k: nat, j: nat, t :: PendingAt(next, k, j, t) ==> PendingAt(tails, k, if k == i then j + 1 else j, t))
      && (forall k: nat, j: nat, t :: PendingAt(tails, k, j, t) && !(k == i && j == 0)
            ==> PendingAt(next, k, if k == i then j - 1 else j, t))
      && (forall k: nat, j: nat, ch :: TornAt(next, k, j, ch) ==> TornAt(tails, k, if k == i then j + 1 else j, ch))
  {
  }

  lemma TailRegistry(s: State, i: nat)
    requires RegistryOk(s) && TailReady(s, i)
    ensures RegistryOk(TailStepped(s, i))
  {
    TailCount(s, i);
    OnlyCount(s.reg, TailStepped(s, i).reg);
  }

  lemma TailCount(s: State, i: nat)
    requires CountOk(s.reg, Owed(s.tails)) && TailReady(s, i)
    ensures var z := TailStepped(s, i);
      CountOk(z.reg, Owed(z.tails)) && z.reg == s.reg.(nonNm := s.reg.nonNm - Debt(s.tails[i][0]))
  {
    PaidOwed(s.tails, i);
  }

  lemma OnlyCount(r: Registry, q: Registry)
    requires Coherent(r) && q == r.(nonNm := q.nonNm)
    ensures Coherent(q) && Grows(r, q)
  {
    SameCells(r, q);
    SameSessions(r, q);
    assert forall k :: Entitled(q, k) == Entitled(r, k);
  }

  lemma PaidOwed(tails: seq<seq<Action>>, i: nat)
    requires i < |tails| && tails[i] != []
    ensures Owed(tails[i := tails[i][1..]]) == Owed(tails) - Debt(tails[i][0])
  {
    OwedUpdate(tails, i, tails[i][1..]);
  }

  lemma TailCancel(s: State, i: nat)
    requires CancelOk(s) && TailReady(s, i)
    ensures CancelOk(TailStepped(s, i))
  {
    var z := TailStepped(s, i);
    var a := s.tails[i][0];
    var paid := if a.Cancel? then a.tokens else {};
    PendingPaid(s.tails, i, paid);
    assert z.cancelled == s.cancelled + paid;
  }

  // Running the head of a tail cancels its tokens and nothing else.
  lemma PendingPaid(tails: seq<seq<Action>>, i: nat, paid: set<Token>)
    requires i < |tails| && tails[i] != [] && PendingOnce(tails)
    requires paid == if tails[i][0].Cancel? then tails[i][0].tokens else {}
    ensures var next := tails[i := tails[i][1..]];
      PendingOnce(next) && (forall t :: Pending(next, t) <==> Pending(tails, t) && t !in paid)
    ensures forall t :: t in paid ==> Pending(tails, t)
  {
    var next := tails[i := tails[i][1..]];
    TailShift(tails, i);
    forall t | t in paid ensures Pending(tails, t) {
      assert PendingAt(tails, i, 0, t);
    }
    forall t ensures Pending(next, t) ==> Pending(tails, t) && t !in paid {
      if Pending(next, t) {
        var k: nat, j: nat :| PendingAt(next, k, j, t);
        assert PendingAt(tails, k, if k == i then j + 1 else j, t);
        assert t in paid ==> PendingAt(tails, i, 0, t);
      }
    }
    forall t | Pending(tails, t) && t !in paid ensures Pending(next, t) {
      var k: nat, j: nat :| PendingAt(tails, k, j, t);
      assert PendingAt(next, k, if k == i then j - 1 else j, t);
    }
  }

  lemma TailLines(s: State, i: nat)
    requires LinesOk(s) && TailReady(s, i)
    ensures LinesOk(TailStepped(s, i))
  {
    TornLess(s.tails, i);
    forall ch, d | Intact(s, ch, d) ensures Intact(TailStepped(s, i), ch, d) {
      TailIntact(s, i, ch, d);
    }
    TailQueues(s, i);
    TailFrame(s, i);
    TailLinesOk(s, TailStepped(s, i));
  }

  // The head of a tail touches no line that is intact.
  lemma TailIntact(s: State, i: nat, ch: Channel, d: DeviceId)
    requires TailReady(s, i) && Intact(s, ch, d)
    ensures Intact(TailStepped(s, i), ch, d)
  {
    TornLess(s.tails, i);
  }

  lemma TailQueues(s: State, i: nat)
    requires LinesOk(s) && TailReady(s, i)
    ensures var z := TailStepped(s, i);
      && z.lines.Keys == s.lines.Keys && z.tails == s.tails[i := s.tails[i][1..]] && z.nextChannel == s.nextChannel
      && (forall ch :: ch in z.lines ==>
            |z.lines[ch].queue| <= CAPACITY && (!z.lines[ch].running ==> z.lines[ch].queue == []))
  {
    assert s.tails[i][0].SendShutdown? || s.tails[i][0].BumpEpoch? ==> TornAt(s.tails, i, 0, s.tails[i][0].channel);
  }

  lemma TailLinesOk(s: State, z: State)
    requires LinesOk(s)
    requires forall ch, d :: Intact(s, ch, d) ==> Intact(z, ch, d)
    requires forall ch :: Torn(z.tails, ch) ==> Torn(s.tails, ch)
    requires z.reg.devices == s.reg.devices && z.openers == s.openers && z.readers == s.readers
    requires z.nextChannel == s.nextChannel && z.lines.Keys == s.lines.Keys
    requires forall ch :: ch in z.lines ==>
      |z.lines[ch].queue| <= CAPACITY && (!z.lines[ch].running ==> z.lines[ch].queue == [])
    ensures LinesOk(z)
  {
    assert forall ch, o :: SpawnerOf(z, ch, o) == SpawnerOf(s, ch, o);
    assert forall ch :: ch in z.lines <==> ch in s.lines;
  }

  lemma TornLess(tails: seq<seq<Action>>, i: nat)
    requires i < |tails| && tails[i] != []
    ensures forall ch :: Torn(tails[i := tails[i][1..]], ch) ==> Torn(tails, ch)
    ensures forall ch :: Tears(tails[i][0], ch) ==> Torn(tails, ch)
  {
    assert forall ch :: Tears(tails[i][0], ch) ==> TornAt(tails, i, 0, ch);
    var next := tails[i := tails[i][1..]];
    TailShift(tails, i);
    forall ch | Torn(next, ch) ensures Torn(tails, ch) {
      var k: nat, j: nat :| TornAt(next, k, j, ch);
      assert TornAt(tails, k, if k == i then j + 1 else j, ch);
    }
  }

  lemma TailRequests(s: State, i: nat)
    requires RequestsOk(s) && TailReady(s, i)
    ensures RequestsOk(TailStepped(s, i))
  {
    var z := TailStepped(s, i);
    var a := s.tails[i][0];
    if a.Subtract? || a.Cancel? {
      OnlyRequests(s, z);
    } else {
      LineTouched(s, z);
    }
  }

  // Bumping an epoch or queueing a shutdown moves no command.
  lemma LineTouched(s: State, z: State)
    requires RequestsOk(s) && z.reg == s.reg && z.requests == s.requests
    requires z.lines.Keys == s.lines.Keys
    requires forall ch :: ch in s.lines ==>
      s.lines[ch].epoch <= z.lines[ch].epoch
      && (z.lines[ch].queue == s.lines[ch].queue || z.lines[ch].queue == s.lines[ch].queue + [Shutdown])
    ensures RequestsOk(z)
  {
    forall ch, k: nat, q ensures QueuedAt(z.lines, ch, k, q) <==> QueuedAt(s.lines, ch, k, q) {
      assert ch in z.lines <==> ch in s.lines;
    }
    forall q | q in z.requests ensures RequestOk(z, z.requests[q]) {
      assert RequestOk(s, s.requests[q]);
    }
    forall q | q in z.requests && z.requests[q].Queued?
      ensures exists k: nat :: QueuedAt(z.lines, z.requests[q].channel, k, q)
    {
      var k: nat :| QueuedAt(s.lines, s.requests[q].channel, k, q);
      assert QueuedAt(z.lines, z.requests[q].channel, k, q);
    }
  }

  // --------------------------------------------------------------- openers

  // Only the phase of one opener changes, and it is not building a line.
  lemma LinesPhase(s: State, z: State, o: OpenerId)
    requires LinesOk(s) && o in s.openers && o in z.openers
    requires z.openers == s.openers[o := z.openers[o]] && !z.openers[o].phase.Spawned?
    requires z.reg.devices == s.reg.devices && z.lines == s.lines && z.nextChannel == s.nextChannel
    requires z.tails == s.tails && z.readers == s.readers
    ensures LinesOk(z)
  {
    assert forall ch, d :: Intact(z, ch, d) == Intact(s, ch, d);
    assert forall ch, p :: SpawnerOf(z, ch, p) ==> SpawnerOf(s, ch, p);
  }

  lemma OpenCallKeeps(s: State, o: OpenerId, d: DeviceId, c: Client, t: Token)
    requires OpenersOk(s) && LinesOk(s) && o !in s.openers && t !in s.reg.used
    requires forall p :: p in s.openers ==> s.openers[p].token != t
    ensures var z := s.(openers := s.openers[o := Opener(d, c, t, Trying)]); OpenersOk(z) && LinesOk(z)
  {
    var z := s.(openers := s.openers[o := Opener(d, c, t, Trying)]);
    OtherOpeners(s, z, o);
    assert forall ch, e :: Intact(z, ch, e) == Intact(s, ch, e);
    assert forall ch, p :: SpawnerOf(z, ch, p) ==> SpawnerOf(s, ch, p);
  }

  // A step of an opener that neither takes, gives up nor answers a reservation.
  lemma OtherOpeners(s: State, z: State, o: OpenerId)
    requires OpenersOk(s) && o in z.openers && z.openers == s.openers[o := z.openers[o]] && z.opening == s.opening
    requires o in s.openers ==> forall res :: !Answers(s.openers[o].phase, res)
    requires forall res :: !Answers(z.openers[o].phase, res)
    requires z.openers[o].phase.Waiting? ==> exists p :: AnswererOf(s, z.openers[o].phase.res, p)
    requires forall d :: d in z.reg.devices ==> d in s.reg.devices
    requires forall p :: p in s.openers && p != o ==> s.openers[p].token != z.openers[o].token
    requires forall t :: t in z.reg.used ==> t in s.reg.used || t == z.openers[o].token
    requires Unregistered(z.openers[o].phase) ==> z.openers[o].token !in z.reg.used
    ensures OpenersOk(z)
  {
    assert o in s.openers ==> !Holds(s.openers[o].phase) by {
      if o in s.openers && Holds(s.openers[o].phase) {
        assert Answers(s.openers[o].phase, s.openers[o].phase.res);
      }
    }
    assert !Holds(z.openers[o].phase) by {
      if Holds(z.openers[o].phase) {
        assert Answers(z.openers[o].phase, z.openers[o].phase.res);
      }
    }
    assert forall d, p :: HolderOf(z, d, p) == HolderOf(s, d, p);
    assert forall res, p :: AnswererOf(z, res, p) == AnswererOf(s, res, p);
  }

  // A step of the opener that holds the reservation of its device.
  predicate KeepsHold(s: State, z: State, o: OpenerId) {
    && o in s.openers && o in z.openers
    && z.openers == s.openers[o := s.openers[o].(phase := z.openers[o].phase)]
    && z.opening == s.opening
    && Holds(s.openers[o].phase) && Holds(z.openers[o].phase) && z.openers[o].phase.res == s.openers[o].phase.res
  }

  lemma HolderStep(s: State, z: State, o: OpenerId)
    requires OpenersOk(s) && KeepsHold(s, z, o)
    requires z.reg.devices.Keys <= s.reg.devices.Keys + {s.openers[o].device}
    requires BeforeInstall(z.openers[o].phase) ==> BeforeInstall(s.openers[o].phase) && z.reg.devices == s.reg.devices
    requires forall t :: t in z.reg.used ==> t in s.reg.used || t == s.openers[o].token
    requires Unregistered(z.openers[o].phase) ==> s.openers[o].token !in z.reg.used
    ensures OpenersOk(z)
  {
    HeldHolders(s, z, o);
    HeldWaiters(s, z, o);
  }

  lemma HeldWaiters(s: State, z: State, o: OpenerId)
    requires TokensOk(s) && WaitersOk(s) && KeepsHold(s, z, o)
    requires forall t :: t in z.reg.used ==> t in s.reg.used || t == s.openers[o].token
    requires Unregistered(z.openers[o].phase) ==> s.openers[o].token !in z.reg.used
    ensures TokensOk(z) && WaitersOk(z)
  {
    assert forall res, p :: AnswererOf(z, res, p) == AnswererOf(s, res, p);
  }

  lemma HeldHolders(s: State, z: State, o: OpenerId)
    requires HoldersOk(s) && KeepsHold(s, z, o)
    requires z.reg.devices.Keys <= s.reg.devices.Keys + {s.openers[o].device}
    requires BeforeInstall(z.openers[o].phase) ==> BeforeInstall(s.openers[o].phase) && z.reg.devices == s.reg.devices
    ensures HoldersOk(z)
  {
    assert forall d, p :: HolderOf(z, d, p) == HolderOf(s, d, p);
    forall p | p in z.openers && BeforeInstall(z.openers[p].phase)
      ensures z.openers[p].device !in z.reg.devices
    {
      if p != o && z.openers[p].device == s.openers[o].device {
        assert HolderOf(s, s.openers[o].device, p) && HolderOf(s, s.openers[o].device, o);
      }
    }
  }

  predicate Takes(s: State, z: State, o: OpenerId) {
    && o in s.openers && s.openers[o].phase.Trying?
    && s.openers[o].device !in s.opening && s.openers[o].device !in s.reg.devices
    && z.openers == s.openers[o := s.openers[o].(phase := Opening(s.nextReservation))]
    && z.opening == s.opening[s.openers[o].device := s.nextReservation] && z.reg == s.reg
  }

  lemma TakeReservation(s: State, z: State, o: OpenerId)
    requires OpenersOk(s) && Takes(s, z, o)
    ensures OpenersOk(z)
  {
    TakenHolders(s, z, o);
    TakenWaiters(s, z, o);
  }

  lemma TakenWaiters(s: State, z: State, o: OpenerId)
    requires TokensOk(s) && WaitersOk(s) && Takes(s, z, o)
    ensures TokensOk(z) && WaitersOk(z)
  {
    assert forall res, p :: AnswererOf(s, res, p) ==> AnswererOf(z, res, p);
  }

  lemma TakenHolders(s: State, z: State, o: OpenerId)
    requires HoldersOk(s) && Takes(s, z, o)
    ensures HoldersOk(z)
  {
    var d := s.openers[o].device;
    forall e, p ensures HolderOf(z, e, p) <==> HolderOf(s, e, p) || (e == d && p == o) {
    }
    assert forall p :: !HolderOf(s, d, p);
    forall e | e in z.opening ensures exists p :: HolderOf(z, e, p) {
      if e == d {
        assert HolderOf(z, d, o);
      } else {
        var p :| HolderOf(s, e, p);
        assert HolderOf(z, e, p);
      }
    }
  }

  predicate GivesUp(s: State, z: State, o: OpenerId) {
    && o in s.openers && s.openers[o].phase.Finishing?
    && (var op := s.openers[o];
        && z.openers == s.openers[o := op.(phase := Notifying(op.phase.res, op.phase.verdict))]
        && z.opening == s.opening - {op.device} && z.reg == s.reg)
  }

  lemma GiveUpReservation(s: State, z: State, o: OpenerId)
    requires OpenersOk(s) && GivesUp(s, z, o)
    ensures OpenersOk(z)
  {
    GivenUpHolders(s, z, o);
    GivenUpWaiters(s, z, o);
  }

  lemma GivenUpWaiters(s: State, z: State, o: OpenerId)
    requires TokensOk(s) && WaitersOk(s) && GivesUp(s, z, o)
    ensures TokensOk(z) && WaitersOk(z)
  {
    assert forall res, p :: AnswererOf(z, res, p) == AnswererOf(s, res, p);
  }

  lemma GivenUpHolders(s: State, z: State, o: OpenerId)
    requires HoldersOk(s) && GivesUp(s, z, o)
    ensures HoldersOk(z)
  {
    var d := s.openers[o].device;
    assert HolderOf(s, d, o);
    forall e, p ensures HolderOf(z, e, p) <==> HolderOf(s, e, p) && e != d {
      if HolderOf(s, d, p) {
        assert p == o;
      }
    }
    forall e | e in z.opening ensures exists p :: HolderOf(z, e, p) {
      var p :| HolderOf(s, e, p);
      assert HolderOf(z, e, p);
    }
    forall p | p in z.openers && Holds(z.openers[p].phase)
      ensures z.openers[p].device in z.opening && z.opening[z.openers[p].device] == z.openers[p].phase.res
    {
      assert HolderOf(z, z.openers[p].device, p);
    }
  }

  lemma NotifyAll(s: State, z: State, o: OpenerId)
    requires OpenersOk(s) && o in s.openers && s.openers[o].phase.Notifying?
    requires var op := s.openers[o]; var w := Wake(s.openers, op.phase.res);
      && z.openers == w[o := w[o].(phase := Returned(op.phase.verdict))]
      && z.opening == s.opening && z.reg == s.reg
    ensures OpenersOk(z)
  {
    NotifiedHolders(s, z, o);
    NotifiedWaiters(s, z, o);
  }

  lemma NotifiedHolders(s: State, z: State, o: OpenerId)
    requires TokensOk(s) && HoldersOk(s) && o in s.openers && s.openers[o].phase.Notifying?
    requires var op := s.openers[o]; var w := Wake(s.openers, op.phase.res);
      && z.openers == w[o := w[o].(phase := Returned(op.phase.verdict))]
      && z.opening == s.opening && z.reg == s.reg
    ensures TokensOk(z) && HoldersOk(z)
  {
    forall p | p in s.openers
      ensures p in z.openers && z.openers[p] == s.openers[p].(phase := z.openers[p].phase)
      ensures z.openers[p].phase == s.openers[p].phase
        || (!Holds(z.openers[p].phase) && !Holds(s.openers[p].phase)
            && (Unregistered(z.openers[p].phase) ==> Unregistered(s.openers[p].phase)))
    {
    }
    assert z.openers.Keys == s.openers.Keys;
    SameHolders(s, z);
  }

  lemma SameHolders(s: State, z: State)
    requires TokensOk(s) && HoldersOk(s) && z.openers.Keys == s.openers.Keys
    requires z.opening == s.opening && z.reg == s.reg
    requires forall p :: p in s.openers ==>
      && z.openers[p] == s.openers[p].(phase := z.openers[p].phase)
      && (z.openers[p].phase == s.openers[p].phase
          || (!Holds(z.openers[p].phase) && !Holds(s.openers[p].phase)
              && (Unregistered(z.openers[p].phase) ==> Unregistered(s.openers[p].phase))))
    ensures TokensOk(z) && HoldersOk(z)
  {
    assert forall p :: p in z.openers <==> p in s.openers;
    assert forall d, p :: HolderOf(z, d, p) == HolderOf(s, d, p);
  }

  lemma NotifiedWaiters(s: State, z: State, o: OpenerId)
    requires WaitersOk(s) && o in s.openers && s.openers[o].phase.Notifying?
    requires var op := s.openers[o]; var w := Wake(s.openers, op.phase.res);
      z.openers == w[o := w[o].(phase := Returned(op.phase.verdict))]
    ensures WaitersOk(z)
  {
    var res := s.openers[o].phase.res;
    forall p | p in z.openers && z.openers[p].phase.Waiting?
      ensures exists k :: AnswererOf(z, z.openers[p].phase.res, k)
    {
      assert z.openers[p] == s.openers[p] && z.openers[p].phase.res != res;
      var k :| AnswererOf(s, s.openers[p].phase.res, k);
      assert AnswererOf(z, z.openers[p].phase.res, k);
    }
  }

  // ------------------------------------------------ registering a session

  // A fresh token goes live: not cancelled, not pending.
  lemma CancelAfterRegister(s: State, z: State, t: Token)
    requires CancelOk(s) && t !in s.reg.used
    requires z.reg.used == s.reg.used + {t} && z.reg.sessions.Keys == s.reg.sessions.Keys + {t}
    requires z.cancelled == s.cancelled
    requires forall i: nat, j: nat, u :: PendingAt(z.tails, i, j, u) <==> PendingAt(s.tails, i, j, u)
    ensures CancelOk(z)
  {
    assert forall u :: Pending(z.tails, u) <==> Pending(s.tails, u);
    assert forall u :: u in z.reg.sessions <==> u in s.reg.sessions || u == t;
  }

  lemma RegisterFrame(r: Registry, d: DeviceId, t: Token, c: Client)
    ensures var q := Register(r, d, t, c);
      && q.devices == r.devices && q.used == r.used + {t} && q.sessions.Keys == r.sessions.Keys + {t}
  {
    RefreshFrame(r.(sessions := r.sessions[t := NewSession(d, t, c)],
                    hashes := r.hashes[AuthHash(t) := t],
                    used := r.used + {t}), d, c);
  }

  lemma AdmitRegistry(s: State, o: OpenerId)
    requires RegistryOk(s) && TokensOk(s) && o in s.openers && s.openers[o].device in s.reg.devices
    requires Unregistered(s.openers[o].phase)
    ensures var z := Admit(s, o, Returned(Granted));
      && RegistryOk(z) && Tracks(s.reg, z.reg) && z.reg.devices == s.reg.devices
      && z.reg.used == s.reg.used + {s.openers[o].token}
      && z.reg.sessions.Keys == s.reg.sessions.Keys + {s.openers[o].token}
  {
    var op := s.openers[o];
    RegisterKeeps(s.reg, op.device, op.token, op.client, Owed(s.tails));
    RegisterFrame(s.reg, op.device, op.token, op.client);
    TracksOf(s.reg, Register(s.reg, op.device, op.token, op.client));
  }

  lemma AdmitRest(s: State, z: State, o: OpenerId)
    requires Rest(s) && o in s.openers && (s.openers[o].phase.Trying? || s.openers[o].phase.Woken?)
    requires Tracks(s.reg, z.reg) && z.reg.devices == s.reg.devices
    requires z.reg.used == s.reg.used + {s.openers[o].token}
    requires z.reg.sessions.Keys == s.reg.sessions.Keys + {s.openers[o].token}
    requires z == s.(reg := z.reg, openers := s.openers[o := s.openers[o].(phase := Returned(Granted))])
    ensures Rest(z)
  {
    FreshToken(s, o);
    CancelAfterRegister(s, z, s.openers[o].token);
    AdmittedOpeners(s, z, o);
    LinesPhase(s, z, o);
    RequestsKept(s, z);
  }

  lemma FreshToken(s: State, o: OpenerId)
    requires TokensOk(s) && o in s.openers && Unregistered(s.openers[o].phase)
    ensures s.openers[o].token !in s.reg.used
  {
  }

  lemma AdmittedOpeners(s: State, z: State, o: OpenerId)
    requires OpenersOk(s) && o in s.openers && (s.openers[o].phase.Trying? || s.openers[o].phase.Woken?)
    requires z.reg.devices == s.reg.devices && z.reg.used == s.reg.used + {s.openers[o].token}
    requires z.openers == s.openers[o := s.openers[o].(phase := Returned(Granted))] && z.opening == s.opening
    ensures OpenersOk(z)
  {
    OtherOpeners(s, z, o);
  }

  function Installed(s: State, o: OpenerId): State
    requires o in s.openers && s.openers[o].phase.Spawned?
  {
    var op := s.openers[o];
    To(s.(reg := Install(s.reg, op.device, op.phase.channel, op.token, op.client),
          readers := s.readers + {op.phase.channel}), o, Finishing(op.phase.res, Granted))
  }

  lemma InstallRegistry(s: State, o: OpenerId)
    requires RegistryOk(s) && TokensOk(s) && HoldersOk(s) && o in s.openers && s.openers[o].phase.Spawned?
    ensures var op := s.openers[o]; var q := Installed(s, o).reg;
      && Tracks(s.reg, q) && Coherent(q) && CountOk(q, Owed(s.tails))
      && q.devices == s.reg.devices[op.device := op.phase.channel]
      && q.used == s.reg.used + {op.token} && q.sessions.Keys == s.reg.sessions.Keys + {op.token}
  {
    var op := s.openers[o];
    InstallTracks(s.reg, op.device, op.phase.channel, op.token, op.client, Owed(s.tails));
  }

  lemma InstallTracks(r: Registry, d: DeviceId, ch: Channel, t: Token, c: Client, owed: int)
    requires Coherent(r) && CountOk(r, owed) && t !in r.used && d !in r.devices
    ensures var q := Install(r, d, ch, t, c);
      && Tracks(r, q) && Coherent(q) && CountOk(q, owed)
      && q.devices == r.devices[d := ch] && q.used == r.used + {t} && q.sessions.Keys == r.sessions.Keys + {t}
  {
    hide CountOk, Install;
    InstallKeeps(r, d, ch, t, c, owed);
    InstallFrame(r, d, ch, t, c);
    TracksOf(r, Install(r, d, ch, t, c));
  }

  lemma InstallFrame(r: Registry, d: DeviceId, ch: Channel, t: Token, c: Client)
    ensures var q := Install(r, d, ch, t, c);
      && q.devices == r.devices[d := ch] && q.used == r.used + {t} && q.sessions.Keys == r.sessions.Keys + {t}
  {
    RegisterFrame(r.(devices := r.devices[d := ch]), d, t, c);
  }

  lemma InstallRest(s: State, z: State, o: OpenerId)
    requires Rest(s) && o in s.openers && s.openers[o].phase.Spawned? && Tracks(s.reg, z.reg)
    requires z == s.(reg := z.reg, readers := z.readers, openers := z.openers)
    requires var op := s.openers[o];
      && z.reg.devices == s.reg.devices[op.device := op.phase.channel]
      && z.reg.used == s.reg.used + {op.token} && z.reg.sessions.Keys == s.reg.sessions.Keys + {op.token}
      && z.readers == s.readers + {op.phase.channel}
      && z.openers == s.openers[o := op.(phase := Finishing(op.phase.res, Granted))]
    ensures Rest(z)
  {
    InstalledTokens(s, z, o);
    LinesInstalled(s, z, o);
    RequestsKept(s, z);
  }

  lemma InstalledTokens(s: State, z: State, o: OpenerId)
    requires CancelOk(s) && OpenersOk(s) && o in s.openers && s.openers[o].phase.Spawned?
    requires z.reg.devices.Keys == s.reg.devices.Keys + {s.openers[o].device}
    requires z.reg.used == s.reg.used + {s.openers[o].token}
    requires z.reg.sessions.Keys == s.reg.sessions.Keys + {s.openers[o].token}
    requires z.openers == s.openers[o := s.openers[o].(phase := Finishing(s.openers[o].phase.res, Granted))]
    requires z.opening == s.opening && z.cancelled == s.cancelled && z.tails == s.tails
    ensures CancelOk(z) && OpenersOk(z)
  {
    FreshToken(s, o);
    CancelAfterRegister(s, z, s.openers[o].token);
    InstalledOpeners(s, z, o);
  }

  lemma InstalledOpeners(s: State, z: State, o: OpenerId)
    requires OpenersOk(s) && o in s.openers && s.openers[o].phase.Spawned?
    requires z.reg.devices.Keys == s.reg.devices.Keys + {s.openers[o].device}
    requires z.reg.used == s.reg.used + {s.openers[o].token} && z.opening == s.opening
    requires z.openers == s.openers[o := s.openers[o].(phase := Finishing(s.openers[o].phase.res, Granted))]
    ensures OpenersOk(z)
  {
    HolderStep(s, z, o);
  }

  lemma LinesInstalled(s: State, z: State, o: OpenerId)
    requires LinesOk(s) && o in s.openers && s.openers[o].phase.Spawned? && o in z.openers
    requires var op := s.openers[o];
      && z.reg.devices == s.reg.devices[op.device := op.phase.channel] && z.readers == s.readers + {op.phase.channel}
      && z.openers == s.openers[o := z.openers[o]] && !z.openers[o].phase.Spawned?
    requires z.lines == s.lines && z.nextChannel == s.nextChannel && z.tails == s.tails
    ensures LinesOk(z)
  {
    var ch := s.openers[o].phase.channel;
    assert forall k, d :: Intact(z, k, d) == Intact(s, k, d);
    assert SpawnerOf(s, ch, o);
    assert forall k, p :: SpawnerOf(z, k, p) ==> SpawnerOf(s, k, p) && p != o;
    assert forall p :: p in z.openers && z.openers[p].phase.Spawned? ==> SpawnerOf(z, z.openers[p].phase.channel, p);
  }

  // ------------------------------------------------------ building a line

  lemma SpawnKeeps(s: State, z: State, o: OpenerId)
    requires Rest(s) && o in s.openers && s.openers[o].phase.Opening?
    requires var op := s.openers[o];
      z == To(s.(lines := s.lines[s.nextChannel := Line(op.device, 0, [], true)], nextChannel := s.nextChannel + 1),
              o, Spawned(op.phase.res, s.nextChannel))
    ensures Rest(z)
  {
    HolderStep(s, z, o);
    SpawnLines(s, z, o);
    SpawnRequests(s, z, s.openers[o].device);
    CancelSame(s, z);
  }

  lemma SpawnLines(s: State, z: State, o: OpenerId)
    requires LinesOk(s) && o in s.openers && s.openers[o].phase.Opening? && o in z.openers
    requires z.lines == s.lines[s.nextChannel := Line(s.openers[o].device, 0, [], true)]
    requires z.nextChannel == s.nextChannel + 1 && z.reg == s.reg && z.tails == s.tails && z.readers == s.readers
    requires z.openers == s.openers[o := s.openers[o].(phase := z.openers[o].phase)]
    requires z.openers[o].phase.Spawned? && z.openers[o].phase.channel == s.nextChannel
    ensures LinesOk(z)
  {
    assert s.nextChannel !in s.lines;
    assert forall ch, d :: Intact(s, ch, d) ==> Intact(z, ch, d);
    assert forall ch, p :: SpawnerOf(z, ch, p) ==> SpawnerOf(s, ch, p) || (p == o && ch == s.nextChannel);
    assert forall ch, p :: SpawnerOf(s, ch, p) ==> Intact(s, ch, s.openers[p].device);
  }

  lemma SpawnRequests(s: State, z: State, d: DeviceId)
    requires RequestsOk(s) && s.nextChannel !in s.lines
    requires z.reg == s.reg && z.requests == s.requests
    requires z.lines == s.lines[s.nextChannel := Line(d, 0, [], true)]
    ensures RequestsOk(z)
  {
    forall ch, i: nat, q ensures QueuedAt(z.lines, ch, i, q) <==> QueuedAt(s.lines, ch, i, q) {
    }
    forall q | q in z.requests ensures RequestOk(z, z.requests[q]) {
      assert RequestOk(s, s.requests[q]);
    }
    forall q | q in z.requests && z.requests[q].Queued?
      ensures exists i: nat :: QueuedAt(z.lines, z.requests[q].channel, i, q)
    {
      var i: nat :| QueuedAt(s.lines, s.requests[q].channel, i, q);
      assert QueuedAt(z.lines, z.requests[q].channel, i, q);
    }
  }

  // The line of an opener that lost its reservation is stopped.
  lemma AbandonKeeps(s: State, z: State, o: OpenerId)
    requires Rest(s) && o in s.openers && s.openers[o].phase.Spawned?
    requires var op := s.openers[o];
      z == To(s.(tails := s.tails + [StopEntry(op.phase.channel)]), o, Finishing(op.phase.res, Refused))
    ensures Rest(z) && Owed(z.tails) == Owed(s.tails)
  {
    StopTail(s, s.openers[o].phase.channel);
    AbandonOpeners(s, z, o);
    CancelTails(s, z);
    AbandonLines(s, z, o);
    OnlyRequests(s, z);
  }

  lemma CancelTails(s: State, z: State)
    requires CancelOk(s) && z.reg == s.reg && z.cancelled == s.cancelled
    requires forall i: nat, j: nat, u :: PendingAt(z.tails, i, j, u) <==> PendingAt(s.tails, i, j, u)
    ensures CancelOk(z)
  {
    assert forall u :: Pending(z.tails, u) <==> Pending(s.tails, u);
  }

  lemma AbandonOpeners(s: State, z: State, o: OpenerId)
    requires OpenersOk(s) && o in s.openers && BeforeInstall(s.openers[o].phase)
    requires z.reg == s.reg && z.opening == s.opening
    requires z.openers == s.openers[o := s.openers[o].(phase := Finishing(s.openers[o].phase.res, Refused))]
    ensures OpenersOk(z)
  {
    HolderStep(s, z, o);
  }

  lemma AbandonLines(s: State, z: State, o: OpenerId)
    requires LinesOk(s) && o in s.openers && s.openers[o].phase.Spawned? && o in z.openers
    requires z.tails == s.tails + [StopEntry(s.openers[o].phase.channel)]
    requires z.openers == s.openers[o := z.openers[o]] && !z.openers[o].phase.Spawned?
    requires z.lines == s.lines && z.nextChannel == s.nextChannel && z.reg == s.reg && z.readers == s.readers
    ensures LinesOk(z)
  {
    var ch := s.openers[o].phase.channel;
    PendingAppend(s.tails, StopEntry(ch));
    forall k | Torn(z.tails, k) ensures Torn(s.tails, k) || k == ch {
      var i: nat, j: nat :| TornAt(z.tails, i, j, k);
      assert TornAt(s.tails, i, j, k) || TornAt([StopEntry(ch)], 0, j, k);
    }
    assert forall k, d :: Intact(s, k, d) && k != ch ==> Intact(z, k, d);
    assert SpawnerOf(s, ch, o);
    assert forall k, p :: SpawnerOf(z, k, p) ==> SpawnerOf(s, k, p) && p != o;
    assert forall p :: p in z.openers && z.openers[p].phase.Spawned? ==> SpawnerOf(z, z.openers[p].phase.channel, p);
  }

  // ---------------------------------------------------- one opener's step

  // Phases of an opener that is not (any more) concerned with a reservation.
  lemma LooseStepKeeps(s: State, o: OpenerId, p: Phase)
    requires Inv(s) && o in s.openers && (s.openers[o].phase.Trying? || s.openers[o].phase.Woken?)
    requires p.Trying? || p.Returned? || (p.Waiting? && exists h :: AnswererOf(s, p.res, h))
    ensures Inv(To(s, o, p))
  {
    hide QueuesOk, CancelOk, SpawnedOk, Coherent, CountOk;
    var z := To(s, o, p);
    OtherOpeners(s, z, o);
    LinesPhase(s, z, o);
    CancelSame(s, z);
    OnlyRequests(s, z);
  }

  lemma RefusedKeeps(s: State, o: OpenerId)
    requires Inv(s) && o in s.openers && s.openers[o].phase.Opening?
    ensures Inv(To(s, o, Finishing(s.openers[o].phase.res, Refused)))
  {
    var z := To(s, o, Finishing(s.openers[o].phase.res, Refused));
    AbandonOpeners(s, z, o);
    LinesPhase(s, z, o);
    CancelSame(s, z);
    OnlyRequests(s, z);
  }

  lemma TakeKeeps(s: State, o: OpenerId)
    requires Inv(s) && o in s.openers && s.openers[o].phase.Trying?
    requires s.openers[o].device !in s.reg.devices && s.openers[o].device !in s.opening
    ensures Inv(OpenerStep(s, o))
  {
    var z := OpenerStep(s, o);
    TakeReservation(s, z, o);
    LinesPhase(s, z, o);
    CancelSame(s, z);
    OnlyRequests(s, z);
  }

  lemma GiveUpKeeps(s: State, o: OpenerId)
    requires Inv(s) && o in s.openers && s.openers[o].phase.Finishing?
    ensures Inv(OpenerStep(s, o))
  {
    hide Coherent, CountOk, WaitersOk, TokensOk, QueuesOk, CancelOk, SpawnedOk;
    var z := OpenerStep(s, o);
    GiveUpReservation(s, z, o);
    LinesPhase(s, z, o);
    CancelSame(s, z);
    OnlyRequests(s, z);
  }

  lemma NotifyKeeps(s: State, o: OpenerId)
    requires Inv(s) && o in s.openers && s.openers[o].phase.Notifying?
    ensures Inv(OpenerStep(s, o))
  {
    var z := OpenerStep(s, o);
    NotifyAll(s, z, o);
    NotifyLines(s, z, s.openers[o].phase.res, o);
    CancelSame(s, z);
    OnlyRequests(s, z);
  }

  lemma NotifyLines(s: State, z: State, res: Reservation, o: OpenerId)
    requires LinesOk(s) && o in s.openers && o in z.openers && !z.openers[o].phase.Spawned?
    requires z.openers == Wake(s.openers, res)[o := z.openers[o]]
    requires z.reg == s.reg && z.lines == s.lines && z.nextChannel == s.nextChannel
    requires z.tails == s.tails && z.readers == s.readers
    ensures LinesOk(z)
  {
    assert forall ch, d :: Intact(z, ch, d) == Intact(s, ch, d);
    assert forall ch, p :: SpawnerOf(z, ch, p) ==> SpawnerOf(s, ch, p);
    assert forall p :: p in z.openers && z.openers[p].phase.Spawned? ==> p in s.openers && s.openers[p] == z.openers[p];
  }

  // While an opener holds the reservation of its device and has published no
  // entry, nobody else has: the `register_session_locked` calls of
  // `open_physical` that precede publication never find an entry, and the
  // reservation is always the opener's own.
  lemma OpenPhysicalIsAlone(s: State, o: OpenerId)
    requires Inv(s) && o in s.openers && BeforeInstall(s.openers[o].phase)
    ensures s.openers[o].device !in s.reg.devices
    ensures s.openers[o].device in s.opening && s.opening[s.openers[o].device] == s.openers[o].phase.res
    ensures Current(s, s.openers[o].device, s.openers[o].phase.res) <==> s.openers[o].phase.res !in s.invalidated
  {
  }

  lemma OpenerStepKeeps(s: State, o: OpenerId)
    requires Inv(s) && Enabled(s, OpenStep(o))
    ensures Inv(OpenerStep(s, o))
  {
    match s.openers[o].phase {
      case Trying => TryingKeeps(s, o);
      case Woken => WokenKeeps(s, o);
      case Opening(res) => OpeningKeeps(s, o);
      case Spawned(res, ch) => SpawnedKeeps(s, o);
      case Finishing(res, v) => GiveUpKeeps(s, o);
      case Notifying(res, v) => NotifyKeeps(s, o);
      case _ =>
    }
  }

  lemma TryingKeeps(s: State, o: OpenerId)
    requires Inv(s) && o in s.openers && s.openers[o].phase.Trying?
    ensures Inv(OpenerStep(s, o))
  {
    var d := s.openers[o].device;
    if d in s.reg.devices {
      AdmitKeeps(s, o);
    } else if d in s.opening {
      var h :| HolderOf(s, d, h);
      assert AnswererOf(s, s.opening[d], h);
      LooseStepKeeps(s, o, Waiting(s.opening[d]));
    } else {
      TakeKeeps(s, o);
    }
  }

  lemma AdmitKeeps(s: State, o: OpenerId)
    requires Inv(s) && o in s.openers && s.openers[o].device in s.reg.devices
    requires s.openers[o].phase.Trying? || s.openers[o].phase.Woken?
    ensures Inv(Admit(s, o, Returned(Granted)))
  {
    AdmitRegistry(s, o);
    AdmitRest(s, Admit(s, o, Returned(Granted)), o);
  }

  lemma WokenKeeps(s: State, o: OpenerId)
    requires Inv(s) && o in s.openers && s.openers[o].phase.Woken?
    ensures Inv(OpenerStep(s, o))
  {
    var d := s.openers[o].device;
    if d in s.reg.devices {
      AdmitKeeps(s, o);
    } else if d in s.opening {
      LooseStepKeeps(s, o, Trying);
    } else {
      LooseStepKeeps(s, o, Returned(Refused));
    }
  }

  lemma OpeningKeeps(s: State, o: OpenerId)
    requires Inv(s) && o in s.openers && s.openers[o].phase.Opening?
    ensures Inv(OpenerStep(s, o))
  {
    hide Coherent, CountOk, CancelOk, LinesOk, RequestsOk, Admit, WaitersOk, TokensOk;
    OpenPhysicalIsAlone(s, o);
    if s.openers[o].phase.res in s.invalidated {
      RefusedKeeps(s, o);
    } else {
      SpawnKeeps(s, OpenerStep(s, o), o);
    }
  }

  lemma SpawnedKeeps(s: State, o: OpenerId)
    requires Inv(s) && o in s.openers && s.openers[o].phase.Spawned?
    ensures Inv(OpenerStep(s, o))
  {
    OpenPhysicalIsAlone(s, o);
    if Current(s, s.openers[o].device, s.openers[o].phase.res) {
      InstallRegistry(s, o);
      InstallRest(s, Installed(s, o), o);
    } else {
      AbandonKeeps(s, OpenerStep(s, o), o);
    }
  }

  // -------------------------------------------------------------- requests

  // One request advances outside the queues.
  lemma ProgressKeeps(s: State, z: State, q: Request)
    requires Rest(s) && q in z.requests && z == s.(requests := s.requests[q := z.requests[q]])
    requires q in s.requests ==> !s.requests[q].Queued?
    requires !z.requests[q].Queued? && RequestOk(s, z.requests[q])
    ensures Rest(z)
  {
    CancelSame(s, z);
    OpenersSame(s, z);
    LinesSame(s, z);
    ProgressRequests(s, z, q);
  }

  lemma ProgressRequests(s: State, z: State, q: Request)
    requires RequestsOk(s) && q in z.requests && z == s.(requests := s.requests[q := z.requests[q]])
    requires q in s.requests ==> !s.requests[q].Queued?
    requires !z.requests[q].Queued? && RequestOk(s, z.requests[q])
    ensures RequestsOk(z)
  {
    assert forall p :: RequestOk(z, p) == RequestOk(s, p);
    assert forall ch, i: nat :: !QueuedAt(s.lines, ch, i, q);
  }

  lemma StartKeeps(s: State, q: Request, p: Progress)
    requires Inv(s) && q !in s.requests && !p.Queued? && RequestOk(s, p)
    ensures Inv(s.(requests := s.requests[q := p]))
  {
    ProgressKeeps(s, s.(requests := s.requests[q := p]), q);
  }

  lemma HotRequest(s: State, k: HotKey)
    requires RegistryOk(s) && LinesOk(s)
    ensures RequestOk(s, NmStart(s.reg, k))
  {
    if k in s.reg.hot {
      assert Entitled(s.reg, k);
      assert Intact(s, s.reg.devices[k.device], k.device);
      assert s.reg.hot[k].cell !in s.reg.grants;
    }
  }

  lemma RequestStepKeeps(s: State, q: Request)
    requires Inv(s) && Enabled(s, RequestStep(q))
    ensures Inv(RequestStepped(s, q))
  {
    hide Coherent, CountOk, CancelOk, OpenersOk, SpawnedOk, QueuesOk, Torn;
    var z := RequestStepped(s, q);
    assert RequestOk(s, s.requests[q]);
    match s.requests[q] {
      case Checked(f) =>
        if s.reg.grants[f].device in s.reg.devices {
          assert Intact(s, s.reg.devices[s.reg.grants[f].device], s.reg.grants[f].device);
        }
        ProgressKeeps(s, z, q);
      case Attached(f, ch) => ProgressKeeps(s, z, q);
      case Stamped(f, ch, epoch) =>
        if s.lines[ch].running {
          SendKeeps(s, z, q);
        } else {
          ProgressKeeps(s, z, q);
        }
      case _ =>
    }
  }

  lemma SendKeeps(s: State, z: State, q: Request)
    requires Rest(s) && q in s.requests && s.requests[q].Stamped? && RequestOk(s, s.requests[q])
    requires var p := s.requests[q];
      && s.lines[p.channel].running && |s.lines[p.channel].queue| < CAPACITY
      && z == Push(s, p.channel, Command(q, p.cell, p.epoch)).(
                requests := s.requests[q := Queued(p.cell, p.channel, p.epoch)])
    ensures Rest(z)
  {
    CancelSame(s, z);
    OpenersSame(s, z);
    var p := s.requests[q];
    PushLines(s, z, p.channel, Command(q, p.cell, p.epoch));
    SendRequests(s, z, q);
  }

  lemma PushLines(s: State, z: State, ch: Channel, i: Item)
    requires LinesOk(s) && ch in s.lines && s.lines[ch].running && |s.lines[ch].queue| < CAPACITY && i.Command?
    requires z.lines == s.lines[ch := s.lines[ch].(queue := s.lines[ch].queue + [i])]
    requires z.reg == s.reg && z.openers == s.openers && z.tails == s.tails
    requires z.nextChannel == s.nextChannel && z.readers == s.readers
    ensures LinesOk(z)
  {
    assert forall k, d :: Intact(s, k, d) ==> Intact(z, k, d);
    TailLinesOk(s, z);
  }

  lemma SendRequests(s: State, z: State, q: Request)
    requires RequestsOk(s) && q in s.requests && s.requests[q].Stamped? && RequestOk(s, s.requests[q])
    requires var p := s.requests[q];
      z == Push(s, p.channel, Command(q, p.cell, p.epoch)).(
             requests := s.requests[q := Queued(p.cell, p.channel, p.epoch)])
    ensures RequestsOk(z)
  {
    var ch := s.requests[q].channel;
    var n := |s.lines[ch].queue|;
    forall k, i: nat, r
      ensures QueuedAt(z.lines, k, i, r) <==> QueuedAt(s.lines, k, i, r) || (k == ch && i == n && r == q)
    {
    }
    assert forall k, i: nat :: !QueuedAt(s.lines, k, i, q);
    assert QueuedAt(z.lines, ch, n, q);
    forall r | r in z.requests && z.requests[r].Queued?
      ensures exists i: nat :: QueuedAt(z.lines, z.requests[r].channel, i, r)
    {
      if r != q {
        var i: nat :| QueuedAt(s.lines, s.requests[r].channel, i, r);
        assert QueuedAt(z.lines, z.requests[r].channel, i, r);
      }
    }
    forall r | r in z.requests ensures RequestOk(z, z.requests[r]) {
      assert RequestOk(s, s.requests[r]);
    }
  }

  // ---------------------------------------------------------------- workers

  lemma WorkerStepKeeps(s: State, ch: Channel)
    requires Rest(s) && Enabled(s, Work(ch))
    ensures Rest(WorkerStep(s, ch))
  {
    var z := WorkerStep(s, ch);
    CancelSame(s, z);
    OpenersSame(s, z);
    WorkerLines(s, ch);
    if s.lines[ch].queue[0].Shutdown? {
      StopRequests(s, ch);
    } else {
      TakeRequests(s, ch);
    }
  }

  lemma WorkerLines(s: State, ch: Channel)
    requires LinesOk(s) && Enabled(s, Work(ch))
    ensures LinesOk(WorkerStep(s, ch))
  {
    hide SpawnedOk, Torn;
    var z := WorkerStep(s, ch);
    forall k, d | Intact(s, k, d) ensures Intact(z, k, d) {
      assert k == ch ==> s.lines[ch].queue[0].Command?;
    }
    TailLinesOk(s, z);
  }

  lemma StopRequests(s: State, ch: Channel)
    requires RequestsOk(s) && Enabled(s, Work(ch)) && s.lines[ch].queue[0].Shutdown?
    ensures RequestsOk(WorkerStep(s, ch))
  {
    var z := WorkerStep(s, ch);
    forall k, i: nat, r ensures QueuedAt(z.lines, k, i, r) <==> QueuedAt(s.lines, k, i, r) && k != ch {
    }
    forall r | r in z.requests ensures RequestOk(z, z.requests[r]) {
      assert RequestOk(s, s.requests[r]);
    }
    forall r | r in z.requests && z.requests[r].Queued?
      ensures exists i: nat :: QueuedAt(z.lines, z.requests[r].channel, i, r)
    {
      var i: nat :| QueuedAt(s.lines, s.requests[r].channel, i, r);
      assert QueuedAt(z.lines, z.requests[r].channel, i, r);
    }
  }

  lemma TakeRequests(s: State, ch: Channel)
    requires RequestsOk(s) && Enabled(s, Work(ch)) && s.lines[ch].queue[0].Command?
    ensures RequestsOk(WorkerStep(s, ch))
  {
    var z := WorkerStep(s, ch);
    var q := s.lines[ch].queue[0].request;
    assert QueuedAt(s.lines, ch, 0, q);
    forall k, i: nat, r ensures QueuedAt(z.lines, k, i, r) <==> QueuedAt(s.lines, k, if k == ch then i + 1 else i, r) {
    }
    assert forall k, i: nat :: !QueuedAt(z.lines, k, i, q);
    forall r | r in z.requests ensures RequestOk(z, z.requests[r]) {
      assert RequestOk(s, s.requests[r]);
    }
    forall r | r in z.requests && z.requests[r].Queued?
      ensures exists i: nat :: QueuedAt(z.lines, z.requests[r].channel, i, r)
    {
      var i: nat :| QueuedAt(s.lines, s.requests[r].channel, i, r);
      assert QueuedAt(z.lines, z.requests[r].channel, if s.requests[r].channel == ch then i - 1 else i, r);
    }
  }

  // ------------------------------------------------------------ every step

  lemma StepKeeps(s: State, e: Event)
    requires Inv(s) && Enabled(s, e)
    ensures Inv(Step(s, e))
  {
    if SimpleEvent(e) {
      SimpleEventKeeps(s, e);
    } else if TeardownEvent(e) {
      TeardownEventKeeps(s, e);
    } else if OpenEvent(e) {
      OpenEventKeeps(s, e);
    } else if e.RequestStep? {
      RequestStepKeeps(s, e.request);
    } else if e.Work? {
      WorkEvent(s, e.channel);
    } else {
      StartEventKeeps(s, e);
    }
  }

  lemma TeardownEventKeeps(s: State, e: Event)
    requires Inv(s) && Enabled(s, e) && TeardownEvent(e)
    ensures Inv(Step(s, e))
  {
    match e {
      case CloseCall(d, t, c) => CloseEventKeeps(s, d, t, c);
      case ForceClose(d) => ForceCloseKeeps(s, d);
      case ReaderDies(ch) => ReaderDiesKeeps(s, ch);
      case TailStep(i) => TailStepKeeps(s, i);
      case _ =>
    }
  }

  lemma OpenEventKeeps(s: State, e: Event)
    requires Inv(s) && Enabled(s, e) && OpenEvent(e)
    ensures Inv(Step(s, e))
  {
    match e {
      case OpenCall(o, d, c, t) => OpenCallEvent(s, o, d, c, t);
      case OpenStep(o) => OpenerStepKeeps(s, o);
      case OpenFails(o) => RefusedKeeps(s, o);
      case _ =>
    }
  }

  lemma StartEventKeeps(s: State, e: Event)
    requires Inv(s) && Enabled(s, e) && (e.NmRequest? || e.TransportRequest?)
    ensures Inv(Step(s, e))
  {
    hide Coherent, CountOk, CancelOk, OpenersOk, LinesOk;
    if e.NmRequest? {
      HotRequest(s, HotKey(e.client, e.device));
      StartKeeps(s, e.request, NmStart(s.reg, HotKey(e.client, e.device)));
    } else {
      StartKeeps(s, e.request, TransportStart(s.reg, e.cap));
    }
  }

  lemma WorkEvent(s: State, ch: Channel)
    requires Inv(s) && Enabled(s, Work(ch))
    ensures Inv(WorkerStep(s, ch))
  {
    WorkerStepKeeps(s, ch);
    assert WorkerStep(s, ch).reg == s.reg && WorkerStep(s, ch).tails == s.tails;
  }

  lemma SimpleEventKeeps(s: State, e: Event)
    requires Inv(s) && Enabled(s, e) && SimpleEvent(e)
    ensures Inv(Step(s, e))
  {
    SimpleRegistry(s, e);
    RegistryEvent(s, Step(s, e));
  }

  lemma OpenCallEvent(s: State, o: OpenerId, d: DeviceId, c: Client, t: Token)
    requires Inv(s) && Enabled(s, OpenCall(o, d, c, t))
    ensures Inv(s.(openers := s.openers[o := Opener(d, c, t, Trying)]))
  {
    var z := s.(openers := s.openers[o := Opener(d, c, t, Trying)]);
    OpenCallKeeps(s, o, d, c, t);
    CancelSame(s, z);
    OnlyRequests(s, z);
  }

  // --------------------------------------- what no step ever takes back

  predicate IoEvent(e: Event) {
    e.NmRequest? || e.TransportRequest? || e.RequestStep? || e.Work?
  }

  predicate TeardownEvent(e: Event) {
    e.CloseCall? || e.ForceClose? || e.ReaderDies? || e.TailStep?
  }

  predicate OpenEvent(e: Event) {
    e.OpenCall? || e.OpenStep? || e.OpenFails?
  }

  // Requests and workers touch queues and requests only.
  lemma IoFrame(s: State, e: Event)
    requires Enabled(s, e) && IoEvent(e)
    ensures var z := Step(s, e);
      z == s.(requests := z.requests, lines := z.lines) && z.lines.Keys == s.lines.Keys
  {
  }

  lemma TailFrame(s: State, i: nat)
    requires TailReady(s, i)
    ensures var z := TailStepped(s, i);
      && z == s.(reg := z.reg, lines := z.lines, tails := z.tails, cancelled := z.cancelled)
      && z.reg == s.reg.(nonNm := z.reg.nonNm) && z.lines.Keys == s.lines.Keys
  {
  }

  lemma TracksItself(r: Registry)
    requires Coherent(r)
    ensures Tracks(r, r)
  {
    TracksSame(r, r);
  }

  // In every step cells keep their meaning and revoked cells stay revoked.
  lemma StepTracks(s: State, e: Event)
    requires Inv(s) && Enabled(s, e)
    ensures Tracks(s.reg, Step(s, e).reg)
  {
    if SimpleEvent(e) {
      SimpleRegistry(s, e);
    } else if IoEvent(e) {
      IoFrame(s, e);
      TracksItself(s.reg);
    } else if TeardownEvent(e) {
      TeardownTracks(s, e);
    } else if e.OpenStep? {
      OpenerTracks(s, e.opener);
    } else {
      TracksItself(s.reg);
    }
  }

  lemma TeardownTracks(s: State, e: Event)
    requires Inv(s) && Enabled(s, e) && TeardownEvent(e)
    ensures Tracks(s.reg, Step(s, e).reg)
  {
    TracksItself(s.reg);
    match e {
      case CloseCall(d, t, c) =>
        if Owned(s.reg, d, t, c) {
          CloseRegistry(s, d, t, c);
        }
      case ForceClose(d) =>
        ForceCloseTailOk(s.reg, d);
        TeardownRegistry(s, d, ForceCloseTail(s.reg, d));
      case ReaderDies(ch) => ReaderTracks(s, ch);
      case TailStep(i) =>
        TailFrame(s, i);
        TracksSame(s.reg, TailStepped(s, i).reg);
      case _ =>
    }
  }

  lemma ReaderTracks(s: State, ch: Channel)
    requires Inv(s)
    ensures Tracks(s.reg, ReaderDiesStep(s, ch).reg)
  {
    if ch in s.lines && s.lines[ch].device in s.reg.devices {
      var d := s.lines[ch].device;
      ReaderTailOk(s.reg, d);
      TeardownRegistry(s, d, ReaderTail(s.reg, d));
    } else {
      TracksItself(s.reg);
    }
  }

  // What one step of an opener may do to the registry: nothing, register its session
  // with an entry that exists, or publish its own entry.
  ghost predicate OpenerEffect(s: State, z: State, o: OpenerId)
    requires o in s.openers
  {
    var op := s.openers[o];
    && Tracks(s.reg, z.reg)
    && (|| z.reg == s.reg
        || (Unregistered(op.phase) && z.reg.used == s.reg.used + {op.token} && z.reg.devices == s.reg.devices
            && o in z.openers && z.openers[o].phase == Returned(Granted))
        || (op.phase.Spawned? && op.phase.res !in s.invalidated && z.reg.used == s.reg.used + {op.token}
            && z.reg.devices == s.reg.devices[op.device := op.phase.channel]))
  }

  lemma OpenerRegistry(s: State, o: OpenerId)
    requires Inv(s) && Enabled(s, OpenStep(o))
    ensures OpenerEffect(s, OpenerStep(s, o), o)
  {
    hide CountOk, Coherent, Tracks, LinesOk, RequestsOk, CancelOk, WaitersOk;
    var op := s.openers[o];
    if BeforeInstall(op.phase) {
      OpenPhysicalIsAlone(s, o);
    }
    if (op.phase.Trying? || op.phase.Woken?) && op.device in s.reg.devices {
      AdmitRegistry(s, o);
    } else if op.phase.Spawned? && op.phase.res !in s.invalidated {
      InstallRegistry(s, o);
    } else {
      TracksItself(s.reg);
    }
  }

  lemma OpenerTracks(s: State, o: OpenerId)
    requires Inv(s) && Enabled(s, OpenStep(o))
    ensures Tracks(s.reg, OpenerStep(s, o).reg)
  {
    OpenerRegistry(s, o);
  }
}
