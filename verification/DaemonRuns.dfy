// The laws of every run of the daemon.
module DaemonRuns {
  import opened Lifecycle
  import opened LifecycleProofs
  import opened Daemon
  import opened DaemonInvariant
  import opened DaemonProofs

  // ------------------------------------------------------- reachable states

  lemma {:induction false} RunKeeps(s: State, es: seq<Event>)
    requires Inv(s) && IsRun(s, es)
    ensures Inv(After(s, es))
    decreases |es|
  {
    if es != [] {
      StepKeeps(s, es[0]);
      RunKeeps(Step(s, es[0]), es[1..]);
    }
  }

  // The maps agree after every run: an entry exists iff a session uses the device;
  // hashes are one to one with live sessions; capabilities are stored only for live
  // sessions in WS or WT mode; an NM binding exists iff the client has a sink and
  // an NM session on the device, and it leads to the current entry.
  lemma MapsAgree(es: seq<Event>)
    requires IsRun(INIT, es)
    ensures var r := After(INIT, es).reg;
      && (forall d :: d in r.devices <==> exists t :: t in r.sessions && r.sessions[t].device == d)
      && (forall h :: h in r.hashes <==> exists t :: t in r.sessions && r.sessions[t].hash == h)
      && (forall t :: t in r.sessions ==> r.sessions[t].hash in r.hashes && r.hashes[r.sessions[t].hash] == t)
      && (forall t :: t in r.validity ==> t in r.sessions && r.sessions[t].mode != Nm)
      && (forall c, d :: HotKey(c, d) in r.hot <==> c in r.sinks && HasNm(r.sessions, d, c))
      && (forall c, d :: HotKey(c, d) in r.hot ==> d in r.devices && r.hot[HotKey(c, d)].channel == r.devices[d])
  {
    InitOk();
    RunKeeps(INIT, es);
    var r := After(INIT, es).reg;
    EntryIffSession(r);
    HashIffSession(r);
    StoredIsLive(r);
    HotIffEntitled(r);
  }

  lemma EntryIffSession(r: Registry)
    requires DevicesOk(r)
    ensures forall d :: d in r.devices <==> exists t :: t in r.sessions && r.sessions[t].device == d
  {
    forall d | d in r.devices ensures exists t :: t in r.sessions && r.sessions[t].device == d {
      var t :| t in OnDevice(r.sessions, d);
      assert t in r.sessions && r.sessions[t].device == d;
    }
  }

  lemma HashIffSession(r: Registry)
    requires HashesOk(r)
    ensures forall h :: h in r.hashes <==> exists t :: t in r.sessions && r.sessions[t].hash == h
    ensures forall t :: t in r.sessions ==> r.sessions[t].hash in r.hashes && r.hashes[r.sessions[t].hash] == t
  {
  }

  lemma StoredIsLive(r: Registry)
    requires StoredOk(r)
    ensures forall t :: t in r.validity ==> t in r.sessions && r.sessions[t].mode != Nm
  {
    assert forall t :: t in r.validity ==> StoredFor(r, t);
  }

  lemma HotIffEntitled(r: Registry)
    requires HotOk(r)
    ensures forall c, d :: HotKey(c, d) in r.hot <==> c in r.sinks && HasNm(r.sessions, d, c)
    ensures forall c, d :: HotKey(c, d) in r.hot ==> d in r.devices && r.hot[HotKey(c, d)].channel == r.devices[d]
  {
    assert forall c, d :: Entitled(r, HotKey(c, d)) <==> c in r.sinks && HasNm(r.sessions, d, c);
  }

  // `non_nm_sessions` is the number of live sessions outside NM mode plus what
  // teardowns still owe, so the subtraction of a teardown never underflows and
  // with nothing owed the counter is positive iff such a session exists.
  lemma CounterLaw(es: seq<Event>)
    requires IsRun(INIT, es)
    ensures var s := After(INIT, es);
      && s.reg.nonNm == |NonNm(s.reg.sessions)| + Owed(s.tails)
      && (forall i :: 0 <= i < |s.tails| ==> OwedBy(s.tails[i]) <= s.reg.nonNm)
      && (Owed(s.tails) == 0 ==> (s.reg.nonNm > 0 <==> exists t :: t in s.reg.sessions && s.reg.sessions[t].mode != Nm))
  {
    hide Coherent, Rest;
    InitOk();
    RunKeeps(INIT, es);
    var s := After(INIT, es);
    forall i | 0 <= i < |s.tails| ensures OwedBy(s.tails[i]) <= Owed(s.tails) {
      OwedPart(s.tails, i);
    }
    CountedIffSome(s.reg.sessions);
  }

  lemma CountedIffSome(m: map<Token, Session>)
    ensures |NonNm(m)| > 0 <==> exists t :: t in m && m[t].mode != Nm
  {
    if t: Token :| t in m && m[t].mode != Nm {
      assert t in NonNm(m);
    } else {
      assert NonNm(m) == {};
    }
  }

  lemma {:induction false} OwedPart(tails: seq<seq<Action>>, i: nat)
    requires i < |tails|
    ensures OwedBy(tails[i]) <= Owed(tails)
  {
    if i > 0 {
      OwedPart(tails[1..], i - 1);
    }
  }

  // Every session ever registered is live, or cancelled, or waiting in exactly one
  // teardown to be cancelled; never two of these.
  lemma CancellationLaw(es: seq<Event>, t: Token)
    requires IsRun(INIT, es)
    ensures var s := After(INIT, es);
      && (t in s.reg.used <==> t in s.reg.sessions || t in s.cancelled || Pending(s.tails, t))
      && !(t in s.reg.sessions && t in s.cancelled)
      && !(t in s.reg.sessions && Pending(s.tails, t))
      && !(t in s.cancelled && Pending(s.tails, t))
  {
    InitOk();
    RunKeeps(INIT, es);
  }

  // ------------------------------------------------------------ capabilities

  // A capability is valid iff it is the one stored for its token, and then its
  // session is live, on its device, in its mode, at its generation.
  lemma CapabilityLaw(es: seq<Event>, f: Cell)
    requires IsRun(INIT, es) && f in After(INIT, es).reg.grants
    ensures var r := After(INIT, es).reg; var g := r.grants[f];
      && (f in r.valid <==> g.token in r.validity && r.validity[g.token] == f)
      && (f in r.valid ==> TransportActive(r, g.device, g.token, g.kind, g.generation))
  {
    InitOk();
    RunKeeps(INIT, es);
    var r := After(INIT, es).reg;
    if f in r.valid {
      assert Stored(r, f) && StoredFor(r, r.grants[f].token);
    }
  }

  lemma OneTransportPerSession(es: seq<Event>, f: Cell, g: Cell)
    requires IsRun(INIT, es)
    requires var r := After(INIT, es).reg;
      f in r.grants && g in r.grants && f in r.valid && g in r.valid && r.grants[f].token == r.grants[g].token
    ensures f == g
  {
    CapabilityLaw(es, f);
    CapabilityLaw(es, g);
  }

  // `session_transport_active` does not look at the capability.  It implies that the
  // transport of that generation may still act iff a capability is stored at all.
  lemma TransportActiveIff(es: seq<Event>, d: DeviceId, t: Token, kind: Mode, generation: nat)
    requires IsRun(INIT, es)
    ensures var r := After(INIT, es).reg;
      (exists f :: f in r.grants && f in r.valid && r.grants[f] == Grant(t, d, kind, generation))
      <==> TransportActive(r, d, t, kind, generation) && t in r.validity
  {
    InitOk();
    RunKeeps(INIT, es);
    var r := After(INIT, es).reg;
    if f: Cell :| f in r.grants && f in r.valid && r.grants[f] == Grant(t, d, kind, generation) {
      CapabilityLaw(es, f);
    }
    if TransportActive(r, d, t, kind, generation) && t in r.validity {
      assert StoredFor(r, t);
      assert Stored(r, r.validity[t]);
    }
  }

  // Setting the plane a session is already in revokes its capability but leaves mode
  // and generation alone, so `session_transport_active` stays true with nothing behind it.
  lemma SamePlaneRevokes(s: State, t: Token, kind: Mode)
    requires Inv(s) && t in s.reg.sessions && kind != Nm && s.reg.sessions[t].mode == kind
    ensures var x := s.reg.sessions[t]; var z := Step(s, ModeCall(x.device, t, kind, x.owner));
      && t !in z.reg.validity
      && TransportActive(z.reg, x.device, t, kind, x.Generation(kind))
      && (forall f :: f in z.reg.grants && z.reg.grants[f].token == t ==> f !in z.reg.valid)
  {
    var x := s.reg.sessions[t];
    var e := ModeCall(x.device, t, kind, x.owner);
    RefreshFrame(WithMode(Revoke(s.reg, {t}), t, x.(mode := kind)), x.device, x.owner);
    StepKeeps(s, e);
    var z := Step(s, e);
    forall f | f in z.reg.grants && z.reg.grants[f].token == t ensures f !in z.reg.valid {
      assert !Stored(z.reg, f);
    }
  }

  lemma {:induction false} Extend(s: State, es: seq<Event>, e: Event) returns (fs: seq<Event>)
    requires IsRun(s, es) && Enabled(After(s, es), e)
    ensures IsRun(s, fs) && After(s, fs) == Step(After(s, es), e)
    decreases |es|
  {
    if es == [] {
      fs := [e];
      assert fs[1..] == [];
    } else {
      var rest := Extend(Step(s, es[0]), es[1..], e);
      fs := [es[0]] + rest;
      assert fs[1..] == rest;
    }
  }

  lemma NothingRun(s: State)
    ensures IsRun(s, []) && After(s, []) == s
  {
  }

  lemma {:induction false} RunsConcat(s: State, a: seq<Event>, b: seq<Event>)
    requires IsRun(s, a) && IsRun(After(s, a), b)
    ensures IsRun(s, a + b) && After(s, a + b) == After(After(s, a), b)
    decreases |a|
  {
    hide Step;
    if a == [] {
      assert a + b == b;
    } else {
      assert (a + b)[1..] == a[1..] + b;
      RunsConcat(Step(s, a[0]), a[1..], b);
    }
  }

  // The state once an opener with nobody in its way has published its line.
  function Opened(s: State, o: OpenerId, d: DeviceId, c: Client, t: Token): State {
    s.(reg := Install(s.reg, d, s.nextChannel, t, c),
       openers := s.openers[o := Opener(d, c, t, Finishing(s.nextReservation, Granted))],
       opening := s.opening[d := s.nextReservation], nextReservation := s.nextReservation + 1,
       lines := s.lines[s.nextChannel := Line(d, 0, [], true)], nextChannel := s.nextChannel + 1,
       readers := s.readers + {s.nextChannel})
  }

  // A first open that nobody interferes with publishes a new line and its session.
  lemma OpensAlone(s: State, o: OpenerId, d: DeviceId, c: Client, t: Token) returns (es: seq<Event>)
    requires Enabled(s, OpenCall(o, d, c, t))
    requires d !in s.reg.devices && d !in s.opening && s.nextReservation !in s.invalidated
    ensures IsRun(s, es) && After(s, es) == Opened(s, o, d, c, t)
  {
    hide IsRun, After, Install, Admit, CloseStep, ForceCloseStep, ReaderDiesStep, TailStepped, RegisterSink,
      UnregisterSink, SetMode, Connect, Disconnect, NmStart, TransportStart, RequestStepped, WorkerStep;
    var res, ch := s.nextReservation, s.nextChannel;
    es := ReservesAlone(s, o, d, c, t);
    var z := After(s, es);
    es := Extend(s, es, OpenStep(o));
    z := To(z.(lines := s.lines[ch := Line(d, 0, [], true)], nextChannel := ch + 1), o, Spawned(res, ch));
    assert After(s, es) == z;
    es := Extend(s, es, OpenStep(o));
    assert z.openers[o := Opener(d, c, t, Finishing(res, Granted))] == Opened(s, o, d, c, t).openers;
  }

  lemma ReservesAlone(s: State, o: OpenerId, d: DeviceId, c: Client, t: Token) returns (es: seq<Event>)
    requires Enabled(s, OpenCall(o, d, c, t)) && d !in s.reg.devices && d !in s.opening
    ensures IsRun(s, es)
    ensures After(s, es) == s.(openers := s.openers[o := Opener(d, c, t, Opening(s.nextReservation))],
                               opening := s.opening[d := s.nextReservation], nextReservation := s.nextReservation + 1)
  {
    hide IsRun, After, Install, Admit, CloseStep, ForceCloseStep, ReaderDiesStep, TailStepped, RegisterSink,
      UnregisterSink, SetMode, Connect, Disconnect, NmStart, TransportStart, RequestStepped, WorkerStep;
    NothingRun(s);
    es := Extend(s, [], OpenCall(o, d, c, t));
    var z := After(s, es);
    es := Extend(s, es, OpenStep(o));
    assert z.openers[o := Opener(d, c, t, Opening(s.nextReservation))]
        == s.openers[o := Opener(d, c, t, Opening(s.nextReservation))];
  }

  lemma InstalledFields(r: Registry, d: DeviceId, ch: Channel, t: Token, c: Client)
    ensures var q := Install(r, d, ch, t, c);
      q.devices == r.devices[d := ch] && q.sessions == r.sessions[t := NewSession(d, t, c)] && q.used == r.used + {t}
  {
    hide Refresh;
    RefreshFrame(r.(devices := r.devices[d := ch], sessions := r.sessions[t := NewSession(d, t, c)],
                    hashes := r.hashes[AuthHash(t) := t], used := r.used + {t}), d, c);
  }

  // Such a state is reached: open a device, connect over WebSocket, set the plane to
  // WebSocket again.
  lemma ActiveWithoutCapability() returns (es: seq<Event>)
    ensures IsRun(INIT, es)
    ensures var r := After(INIT, es).reg; TransportActive(r, 0, 0, Ws, 1) && 0 !in r.validity
  {
    hide IsRun, After, Inv, Step, Install;
    es := OpenedAndConnected();
    var s := After(INIT, es);
    InitOk();
    RunKeeps(INIT, es);
    SamePlaneRevokes(s, 0, Ws);
    ModeCallEnabled(s, 0, 0, Ws, 0);
    es := Extend(INIT, es, ModeCall(0, 0, Ws, 0));
  }

  lemma ModeCallEnabled(s: State, d: DeviceId, t: Token, mode: Mode, c: Client)
    ensures Enabled(s, ModeCall(d, t, mode, c))
  {
  }

  lemma OpenedAndConnected() returns (es: seq<Event>)
    ensures IsRun(INIT, es)
    ensures var r := After(INIT, es).reg;
      0 in r.sessions && r.sessions[0] == Session(0, 0, Ws, AuthHash(0), true, 1, 0)
  {
    hide IsRun, After, Install, Connect;
    es := OpensAlone(INIT, 0, 0, 0, 0);
    InstalledFields(INIT.reg, 0, 0, 0, 0);
    ConnectFields(After(INIT, es).reg, 0, 0, Ws);
    es := Extend(INIT, es, ConnectCall(Ws, 0, 0));
  }

  // A revoked capability, or the flag of a dropped NM binding, never revives.
  lemma {:induction false} RevokedForever(s: State, es: seq<Event>, f: Cell)
    requires Inv(s) && IsRun(s, es) && (f in s.reg.grants || f in s.reg.bindings) && f !in s.reg.valid
    ensures f !in After(s, es).reg.valid
    ensures f in s.reg.grants ==> f in After(s, es).reg.grants && After(s, es).reg.grants[f] == s.reg.grants[f]
    decreases |es|
  {
    if es != [] {
      StepKeeps(s, es[0]);
      StepTracks(s, es[0]);
      assert TracksCell(s.reg, Step(s, es[0]).reg, f);
      RevokedForever(Step(s, es[0]), es[1..], f);
    }
  }

  // A disconnect with a granted capability does something exactly when that
  // capability is still the stored one; then the session falls back to NM.
  lemma DisconnectIffStored(s: State, f: Cell)
    requires Inv(s) && f in s.reg.grants
    ensures var g := s.reg.grants[f];
      var z := Step(s, DisconnectCall(g.kind, g.device, g.token, g.generation, f));
      && (z != s <==> f in s.reg.valid)
      && (z == s ==> g.token !in s.reg.validity || s.reg.validity[g.token] != f)
      && (z != s ==> f !in z.reg.valid && g.token !in z.reg.validity
                     && g.token in z.reg.sessions && z.reg.sessions[g.token].mode == Nm)
  {
    hide Rest, Refresh;
    var g := s.reg.grants[f];
    var z := Step(s, DisconnectCall(g.kind, g.device, g.token, g.generation, f));
    if f in s.reg.valid {
      assert Stored(s.reg, f) && StoredFor(s.reg, g.token);
      var r2 := WithMode(Revoke(s.reg, {g.token}), g.token, s.reg.sessions[g.token].(mode := Nm));
      RefreshFrame(r2, g.device, s.reg.sessions[g.token].owner);
      StepKeeps(s, DisconnectCall(g.kind, g.device, g.token, g.generation, f));
      StepTracks(s, DisconnectCall(g.kind, g.device, g.token, g.generation, f));
      assert !Stored(z.reg, f);
    } else {
      assert !Stored(s.reg, f);
    }
  }

  // Once superseded, a transport's disconnect is a no-op however late it comes and
  // whatever reconnects, plane switches and teardowns happened in between.
  lemma LateDisconnect(s: State, es: seq<Event>, f: Cell)
    requires Inv(s) && IsRun(s, es) && f in s.reg.grants && f !in s.reg.valid
    ensures var g := s.reg.grants[f]; var z := After(s, es);
      f in z.reg.grants && z.reg.grants[f] == g
      && Step(z, DisconnectCall(g.kind, g.device, g.token, g.generation, f)) == z
  {
    RevokedForever(s, es, f);
    RunKeeps(s, es);
    DisconnectIffStored(After(s, es), f);
  }

  // ------------------------------------------------------------- commands

  // Who may act on a device right now: a transport whose capability is the stored
  // one of a live session in its mode and generation, or an NM client holding the
  // current binding, with a sink and an NM session.
  ghost predicate Authorised(r: Registry, f: Cell, d: DeviceId) {
    || (f in r.grants && r.grants[f].device == d
        && r.grants[f].token in r.validity && r.validity[r.grants[f].token] == f
        && TransportActive(r, d, r.grants[f].token, r.grants[f].kind, r.grants[f].generation))
    || (f in r.bindings && r.bindings[f].device == d
        && r.bindings[f] in r.hot && r.hot[r.bindings[f]].cell == f && Entitled(r, r.bindings[f]))
  }

  // A command is performed iff its cell is still valid; then its authority is
  // current at that moment and the worker is that of the device's current entry.
  lemma PerformedIsAuthorised(s: State, ch: Channel)
    requires Inv(s) && Enabled(s, Work(ch)) && s.lines[ch].queue[0].Command?
    ensures var c := s.lines[ch].queue[0]; var d := s.lines[ch].device; var z := Step(s, Work(ch));
      && c.request in s.requests && s.requests[c.request] == Queued(c.cell, ch, c.epoch)
      && c.request in z.requests
      && z.requests[c.request] == (if c.cell in s.reg.valid then Performed else Rejected)
      && (c.cell in s.reg.valid ==>
            Authorised(s.reg, c.cell, d) && d in s.reg.devices && s.reg.devices[d] == ch)
  {
    hide OpenersOk, CancelOk, SpawnedOk, Torn;
    var c := s.lines[ch].queue[0];
    assert QueuedAt(s.lines, ch, 0, c.request);
    assert RequestOk(s, s.requests[c.request]);
    if c.cell in s.reg.valid {
      var d := CellDevice(s.reg, c.cell);
      assert Intact(s, s.reg.devices[d], d);
      ValidIsAuthorised(s.reg, c.cell);
    }
  }

  lemma ValidIsAuthorised(r: Registry, f: Cell)
    requires Coherent(r) && f in r.valid
    ensures (f in r.grants || f in r.bindings) && Authorised(r, f, CellDevice(r, f))
  {
    if f in r.grants {
      assert Stored(r, f) && StoredFor(r, r.grants[f].token);
    } else {
      assert Bound(r, f) && Entitled(r, r.bindings[f]);
    }
  }

  // A connect grants a valid capability of the next generation.
  lemma ConnectGrants(s: State, d: DeviceId, t: Token, kind: Mode)
    requires Inv(s) && kind != Nm && CanConnect(s.reg, d, t)
    ensures var z := Step(s, ConnectCall(kind, d, t)); var f := s.reg.nextCell; var x := s.reg.sessions[t];
      && f in z.reg.valid && f in z.reg.grants && z.reg.grants[f] == Grant(t, d, kind, x.Generation(kind) + 1)
      && TransportActive(z.reg, d, t, kind, x.Generation(kind) + 1)
      && z == s.(reg := z.reg) && z.reg.devices == s.reg.devices
      && (forall g :: g in s.reg.grants && s.reg.grants[g].token == t ==> g !in z.reg.valid)
  {
    hide Inv, Coherent, HasNm, Connect;
    var e := ConnectCall(kind, d, t);
    StepKeeps(s, e);
    CoherentOf(s);
    CoherentOf(Step(s, e));
    FreshCell(s.reg);
    ConnectFields(s.reg, d, t, kind);
    OnlyStoredIsValid(s.reg, Step(s, e).reg, t, s.reg.nextCell);
  }

  lemma CoherentOf(s: State)
    requires Inv(s)
    ensures Coherent(s.reg)
  {
  }

  lemma ConnectFields(r: Registry, d: DeviceId, t: Token, kind: Mode)
    requires CanConnect(r, d, t)
    ensures var q := Connect(r, d, t, kind);
      && q.validity == r.validity[t := r.nextCell] && q.grants == r.grants[r.nextCell := GrantFor(r, d, t, kind)]
      && q.sessions == r.sessions[t := Bump(r.sessions[t], kind)] && q.devices == r.devices
  {
    hide Refresh;
    RefreshFrame(WithMode(Issue(r, t, GrantFor(r, d, t, kind)), t, Bump(r.sessions[t], kind)), d, r.sessions[t].owner);
  }

  lemma FreshCell(r: Registry)
    requires Coherent(r)
    ensures r.nextCell !in r.grants
  {
  }

  lemma OnlyStoredIsValid(r: Registry, z: Registry, t: Token, f: Cell)
    requires Coherent(r) && Coherent(z) && r.nextCell == f && f in z.grants && z.grants[f].token == t
    requires t in z.validity && z.validity[t] == f
    requires forall g :: g in r.grants ==> g in z.grants && z.grants[g] == r.grants[g]
    ensures f in z.valid && forall g :: g in r.grants && r.grants[g].token == t ==> g !in z.valid
  {
    assert Stored(z, f);
    forall g | g in r.grants && r.grants[g].token == t ensures g !in z.valid {
      assert !Stored(z, g);
    }
  }

  // With an idle worker and nobody in between, a request under a valid capability is
  // performed: it finds the entry, is stamped, queued and taken.
  lemma ValidCapabilityWorks(s: State, f: Cell, q: Request) returns (es: seq<Event>)
    requires Inv(s) && f in s.reg.grants && f in s.reg.valid && q !in s.requests
    requires forall ch :: ch in s.lines && s.lines[ch].device == s.reg.grants[f].device ==> s.lines[ch].queue == []
    ensures IsRun(s, es) && q in After(s, es).requests && After(s, es).requests[q] == Performed
  {
    hide Inv, Coherent, IsRun, After, CloseStep, ForceCloseStep, ReaderDiesStep, TailStepped, OpenerStep, Connect,
      Disconnect, SetMode, RegisterSink, UnregisterSink, NmStart;
    ValidEntryRuns(s, f);
    var ch := s.reg.devices[s.reg.grants[f].device];
    es := RequestIsStamped(s, f, q);
    es := Extend(s, es, RequestStep(q));
    assert After(s, es).lines[ch].queue == [Command(q, f, s.lines[ch].epoch)];
    es := Extend(s, es, Work(ch));
  }

  lemma RequestIsStamped(s: State, f: Cell, q: Request) returns (es: seq<Event>)
    requires Inv(s) && f in s.reg.grants && f in s.reg.valid && q !in s.requests
    ensures var d := s.reg.grants[f].device;
      && d in s.reg.devices && s.reg.devices[d] in s.lines
      && IsRun(s, es)
      && After(s, es) == s.(requests := s.requests[
           q := Stamped(f, s.reg.devices[d], s.lines[s.reg.devices[d]].epoch)])
  {
    hide Inv, Coherent, IsRun, After, CloseStep, ForceCloseStep, ReaderDiesStep, TailStepped, OpenerStep, Connect,
      Disconnect, SetMode, RegisterSink, UnregisterSink, NmStart, WorkerStep;
    ValidEntryRuns(s, f);
    var ch := s.reg.devices[s.reg.grants[f].device];
    NothingRun(s);
    es := Extend(s, [], TransportRequest(q, f));
    es := Extend(s, es, RequestStep(q));
    assert After(s, es) == s.(requests := s.requests[q := Attached(f, ch)]);
    es := Extend(s, es, RequestStep(q));
    assert After(s, es) == s.(requests := s.requests[q := Stamped(f, ch, s.lines[ch].epoch)]);
  }

  lemma ValidEntryRuns(s: State, f: Cell)
    requires Inv(s) && f in s.reg.grants && f in s.reg.valid
    ensures var d := s.reg.grants[f].device;
      d in s.reg.devices && Intact(s, s.reg.devices[d], d)
  {
    hide Coherent;
    ValidHasEntry(s.reg, f);
  }

  // A line that is neither published nor about to be.
  ghost predicate Detached(s: State, ch: Channel) {
    && ch in s.lines
    && (forall d :: d in s.reg.devices ==> s.reg.devices[d] != ch)
    && (forall o :: !SpawnerOf(s, ch, o))
  }

  // Entries change only by teardown and by the publication of an opener's line.
  ghost predicate EntriesFrom(s: State, z: State) {
    forall d :: d in z.reg.devices ==>
      (d in s.reg.devices && z.reg.devices[d] == s.reg.devices[d]) || exists o :: SpawnerOf(s, z.reg.devices[d], o)
  }

  lemma StepEntries(s: State, e: Event)
    requires Inv(s) && Enabled(s, e)
    ensures EntriesFrom(s, Step(s, e))
  {
    if SimpleEvent(e) {
      SimpleRegistry(s, e);
    } else if IoEvent(e) {
      IoFrame(s, e);
    } else if e.OpenStep? {
      OpenerEntries(s, e.opener);
    } else if TeardownEvent(e) {
      TeardownEntries(s, e);
    }
  }

  lemma TeardownEntries(s: State, e: Event)
    requires Inv(s) && Enabled(s, e) && TeardownEvent(e)
    ensures EntriesFrom(s, Step(s, e))
  {
    match e {
      case CloseCall(d, t, c) =>
        if Owned(s.reg, d, t, c) {
          CloseRegistry(s, d, t, c);
        }
      case ForceClose(d) => DetachFrame(s.reg, d);
      case ReaderDies(ch) => ReaderEntries(s, ch);
      case TailStep(i) => TailFrame(s, i);
      case _ =>
    }
  }

  lemma ReaderEntries(s: State, ch: Channel)
    ensures EntriesFrom(s, ReaderDiesStep(s, ch))
  {
    if ch in s.lines {
      DetachFrame(s.reg, s.lines[ch].device);
    }
  }

  lemma OpenerEntries(s: State, o: OpenerId)
    requires Inv(s) && Enabled(s, OpenStep(o))
    ensures EntriesFrom(s, OpenerStep(s, o))
  {
    OpenerRegistry(s, o);
    assert s.openers[o].phase.Spawned? ==> SpawnerOf(s, s.openers[o].phase.channel, o);
  }

  // Lines are never forgotten, and an opener only ever builds a new one.
  ghost predicate SpawnersFrom(s: State, z: State) {
    && (forall ch :: ch in s.lines ==> ch in z.lines)
    && (forall ch, o :: ch in s.lines && SpawnerOf(z, ch, o) ==> SpawnerOf(s, ch, o))
  }

  lemma SameSpawners(s: State, z: State)
    requires s.lines.Keys <= z.lines.Keys
    requires forall o :: o in z.openers && z.openers[o].phase.Spawned? ==>
      o in s.openers && s.openers[o] == z.openers[o]
    ensures SpawnersFrom(s, z)
  {
    assert forall ch :: ch in s.lines ==> ch in s.lines.Keys;
  }

  lemma StepSpawners(s: State, e: Event)
    requires Inv(s) && Enabled(s, e)
    ensures SpawnersFrom(s, Step(s, e))
  {
    if e.OpenStep? {
      OpenerSpawners(s, e.opener);
    } else {
      OtherSpawners(s, e);
      SameSpawners(s, Step(s, e));
    }
  }

  lemma OtherSpawners(s: State, e: Event)
    requires Inv(s) && Enabled(s, e) && !e.OpenStep?
    ensures var z := Step(s, e);
      && s.lines.Keys <= z.lines.Keys
      && (forall o :: o in z.openers && z.openers[o].phase.Spawned? ==> o in s.openers && s.openers[o] == z.openers[o])
  {
    if SimpleEvent(e) {
      SimpleRegistry(s, e);
    } else if IoEvent(e) {
      IoFrame(s, e);
    } else if TeardownEvent(e) {
      TeardownLeaves(s, e);
    } else {
      assert e.OpenCall? || e.OpenFails?;
    }
  }

  // A teardown touches no request, forgets no line and publishes none.
  lemma TeardownLeaves(s: State, e: Event)
    requires Enabled(s, e) && TeardownEvent(e)
    ensures var z := Step(s, e);
      && z.requests == s.requests && z.lines.Keys == s.lines.Keys
      && (forall o :: o in z.openers && z.openers[o].phase.Spawned? ==> o in s.openers && s.openers[o] == z.openers[o])
  {
    hide Close, Detach, ForceCloseTail, ReaderTail, Owned, LastOnDevice, TailStepped;
    match e {
      case CloseCall(d, t, c) =>
      case ForceClose(d) =>
      case ReaderDies(ch) =>
      case TailStep(i) => TailFrame(s, i);
      case _ =>
    }
  }

  lemma OpenerSpawners(s: State, o: OpenerId)
    requires LinesOk(s) && Enabled(s, OpenStep(o))
    ensures SpawnersFrom(s, OpenerStep(s, o))
  {
    OpenerShape(s, o);
    OpenerLine(s, o);
    NewSpawner(s, OpenerStep(s, o), o);
  }

  lemma OpenerLine(s: State, o: OpenerId)
    requires o in s.openers
    ensures var z := OpenerStep(s, o);
      && s.lines.Keys <= z.lines.Keys
      && (o in z.openers && z.openers[o].phase.Spawned? ==> z.openers[o].phase.channel == s.nextChannel)
  {
    match s.openers[o].phase {
      case Trying =>
      case Woken =>
      case Opening(_) =>
      case Spawned(_, _) =>
      case Finishing(_, _) =>
      case Notifying(_, _) =>
      case Waiting(_) =>
      case Returned(_) =>
    }
  }

  lemma NewSpawner(s: State, z: State, o: OpenerId)
    requires s.nextChannel !in s.lines && s.lines.Keys <= z.lines.Keys && o in z.openers
    requires z.openers[o].phase.Spawned? ==> z.openers[o].phase.channel == s.nextChannel
    requires forall p :: p in z.openers && p != o && z.openers[p].phase.Spawned? ==>
      p in s.openers && s.openers[p] == z.openers[p]
    ensures SpawnersFrom(s, z)
  {
    assert forall ch :: ch in s.lines ==> ch in s.lines.Keys;
  }

  // Whatever step takes the entry of a device away detaches the line it had.
  lemma LosingTheEntryDetaches(s: State, e: Event, d: DeviceId)
    requires Inv(s) && Enabled(s, e) && d in s.reg.devices
    requires var z := Step(s, e); d in z.reg.devices ==> z.reg.devices[d] != s.reg.devices[d]
    ensures Detached(Step(s, e), s.reg.devices[d])
  {
    hide Step, CancelOk, OpenersOk, RequestsOk, RegistryOk;
    StepEntries(s, e);
    StepSpawners(s, e);
    assert Intact(s, s.reg.devices[d], d);
    assert forall o :: !SpawnerOf(s, s.reg.devices[d], o);
  }

  // So after a close, a forced close, a dying reader or anything else took the entry of
  // a device away, no command on its channel is performed in any continuation.
  lemma LostEntryPerformsNothing(s: State, e: Event, es: seq<Event>, d: DeviceId)
    requires Inv(s) && Enabled(s, e) && d in s.reg.devices
    requires var z := Step(s, e); d in z.reg.devices ==> z.reg.devices[d] != s.reg.devices[d]
    requires IsRun(Step(s, e), es)
    ensures var z := After(Step(s, e), es); Detached(z, s.reg.devices[d]) && OnlyRejects(z, s.reg.devices[d])
  {
    hide Inv, Step, Detached, OnlyRejects;
    StepKeeps(s, e);
    LosingTheEntryDetaches(s, e, d);
    DetachedForever(Step(s, e), es, s.reg.devices[d]);
  }

  // Once detached a line stays detached, and no command on it, queued or later, is
  // ever performed.
  lemma {:induction false} DetachedForever(s: State, es: seq<Event>, ch: Channel)
    requires Inv(s) && IsRun(s, es) && Detached(s, ch)
    ensures Detached(After(s, es), ch) && OnlyRejects(After(s, es), ch)
    decreases |es|
  {
    hide Inv, Detached, OnlyRejects;
    if es == [] {
      DetachedRejects(s, ch);
    } else {
      StepKeeps(s, es[0]);
      DetachedStep(s, es[0], ch);
      DetachedForever(Step(s, es[0]), es[1..], ch);
    }
  }

  lemma DetachedRejects(s: State, ch: Channel)
    requires Inv(s) && Detached(s, ch)
    ensures OnlyRejects(s, ch)
  {
    hide Inv;
    if Enabled(s, Work(ch)) && s.lines[ch].queue[0].Command? {
      PerformedIsAuthorised(s, ch);
    }
  }

  lemma DetachedStep(s: State, e: Event, ch: Channel)
    requires Inv(s) && Enabled(s, e) && Detached(s, ch)
    ensures Detached(Step(s, e), ch)
  {
    hide Inv, Step;
    StepEntries(s, e);
    StepSpawners(s, e);
  }

  // The worker of this line can do nothing but reject the command it would take.
  ghost predicate OnlyRejects(s: State, ch: Channel) {
    Enabled(s, Work(ch)) && s.lines[ch].queue[0].Command? ==>
      && s.lines[ch].queue[0].request in WorkerStep(s, ch).requests
      && WorkerStep(s, ch).requests[s.lines[ch].queue[0].request] == Rejected
  }

  // ------------------------------------------------- outcome of a command

  predicate Settled(p: Progress) {
    p.Performed? || p.Rejected? || p.Dropped? || p.Denied?
  }

  lemma SettledStep(s: State, e: Event, q: Request)
    requires Inv(s) && Enabled(s, e) && q in s.requests && Settled(s.requests[q])
    ensures q in Step(s, e).requests && Step(s, e).requests[q] == s.requests[q]
  {
    if e.Work? {
      SettledWork(s, e.channel, q);
    } else if e.RequestStep? {
      SettledRequest(s, e.request, q);
    } else {
      RequestsKeptBy(s, e);
    }
  }

  lemma SettledRequest(s: State, p: Request, q: Request)
    requires Enabled(s, RequestStep(p)) && q in s.requests && Settled(s.requests[q])
    ensures q in RequestStepped(s, p).requests && RequestStepped(s, p).requests[q] == s.requests[q]
  {
  }

  // Other events at most start a request.
  lemma RequestsKeptBy(s: State, e: Event)
    requires Inv(s) && Enabled(s, e) && !e.Work? && !e.RequestStep?
    ensures var z := Step(s, e);
      forall q :: q in s.requests ==> q in z.requests && z.requests[q] == s.requests[q]
  {
    if SimpleEvent(e) {
      SimpleRegistry(s, e);
    } else if TeardownEvent(e) {
      TeardownLeaves(s, e);
    } else if e.OpenStep? {
      OpenerRequests(s, e.opener);
    } else {
      assert e.OpenCall? || e.OpenFails? || e.NmRequest? || e.TransportRequest?;
    }
  }

  lemma OpenerRequests(s: State, o: OpenerId)
    requires o in s.openers
    ensures OpenerStep(s, o).requests == s.requests && OpenerStep(s, o).invalidated == s.invalidated
  {
    hide Register, Install, Wake, StopEntry, Current;
  }

  lemma SettledWork(s: State, ch: Channel, q: Request)
    requires RequestsOk(s) && Enabled(s, Work(ch)) && q in s.requests && Settled(s.requests[q])
    ensures q in WorkerStep(s, ch).requests && WorkerStep(s, ch).requests[q] == s.requests[q]
  {
    if s.lines[ch].queue[0].Command? {
      assert QueuedAt(s.lines, ch, 0, s.lines[ch].queue[0].request);
    }
  }

  // A request is settled at most once; a queued one sits in exactly one place of
  // exactly one queue, whose worker runs.
  lemma {:induction false} OneOutcome(s: State, es: seq<Event>, q: Request)
    requires Inv(s) && IsRun(s, es) && q in s.requests && Settled(s.requests[q])
    ensures q in After(s, es).requests && After(s, es).requests[q] == s.requests[q]
    decreases |es|
  {
    if es != [] {
      StepKeeps(s, es[0]);
      SettledStep(s, es[0], q);
      OneOutcome(Step(s, es[0]), es[1..], q);
    }
  }

  lemma QueuedOnce(es: seq<Event>, q: Request)
    requires IsRun(INIT, es)
    requires q in After(INIT, es).requests && After(INIT, es).requests[q].Queued?
    ensures var s := After(INIT, es); var ch := s.requests[q].channel;
      && ch in s.lines && s.lines[ch].running
      && (exists i: nat :: QueuedAt(s.lines, ch, i, q))
      && (forall k, i: nat, j: nat :: QueuedAt(s.lines, ch, i, q) && QueuedAt(s.lines, k, j, q) ==> k == ch && i == j)
  {
    InitOk();
    RunKeeps(INIT, es);
    var s := After(INIT, es);
    var i: nat :| QueuedAt(s.lines, s.requests[q].channel, i, q);
    assert s.lines[s.requests[q].channel].queue != [];
  }

  // ----------------------------------------------------------------- opens

  // At most one first open of a device is in flight.
  lemma OneFirstOpen(es: seq<Event>, o: OpenerId, p: OpenerId)
    requires IsRun(INIT, es)
    requires var s := After(INIT, es);
      && o in s.openers && p in s.openers && s.openers[o].device == s.openers[p].device
      && Holds(s.openers[o].phase) && Holds(s.openers[p].phase)
    ensures o == p
  {
    InitOk();
    RunKeeps(INIT, es);
    var s := After(INIT, es);
    assert HolderOf(s, s.openers[o].device, o) && HolderOf(s, s.openers[o].device, p);
  }

  // Whoever waits, waits for an opener that has yet to finish and notify, and the
  // notification wakes every waiter.
  lemma NoLostWakeup(es: seq<Event>, o: OpenerId)
    requires IsRun(INIT, es)
    requires var s := After(INIT, es); o in s.openers && s.openers[o].phase.Waiting?
    ensures var s := After(INIT, es); var res := s.openers[o].phase.res;
      exists p :: p in s.openers && Answers(s.openers[p].phase, res)
        && (s.openers[p].phase.Notifying? ==> OpenerStep(s, p).openers[o].phase == Woken)
  {
    InitOk();
    RunKeeps(INIT, es);
    var s := After(INIT, es);
    var p :| AnswererOf(s, s.openers[o].phase.res, p);
    Awakened(s, o, p);
  }

  lemma Awakened(s: State, o: OpenerId, p: OpenerId)
    requires o in s.openers && p in s.openers && s.openers[o].phase.Waiting?
    requires s.openers[p].phase.Notifying? ==> s.openers[p].phase.res == s.openers[o].phase.res
    ensures s.openers[p].phase.Notifying? ==>
      o in OpenerStep(s, p).openers && OpenerStep(s, p).openers[o].phase == Woken
  {
  }

  // An open whose reservation was invalidated ends refused and never registers its
  // session.
  ghost predicate Doomed(s: State, o: OpenerId, res: Reservation) {
    && o in s.openers && res in s.invalidated && s.openers[o].token !in s.reg.used
    && match s.openers[o].phase
       case Opening(r) => r == res
       case Spawned(r, _) => r == res
       case Finishing(r, v) => v == Refused
       case Notifying(r, v) => v == Refused
       case Returned(v) => v == Refused
       case _ => false
  }

  lemma DoomedStep(s: State, e: Event, o: OpenerId, res: Reservation)
    requires Inv(s) && Enabled(s, e) && Doomed(s, o, res)
    ensures Doomed(Step(s, e), o, res)
  {
    hide Tracks, RegistryOk, Rest;
    if SimpleEvent(e) {
      SimpleRegistry(s, e);
    } else if IoEvent(e) {
      IoFrame(s, e);
    } else if e.OpenStep? {
      OpenerDoomed(s, e.opener, o, res);
    } else if TeardownEvent(e) {
      TeardownDoomed(s, e, o, res);
    }
  }

  lemma TeardownDoomed(s: State, e: Event, o: OpenerId, res: Reservation)
    requires Inv(s) && Enabled(s, e) && TeardownEvent(e) && Doomed(s, o, res)
    ensures Doomed(Step(s, e), o, res)
  {
    TeardownFrame(s, e);
    StaysDoomed(s, Step(s, e), o, res);
  }

  lemma StaysDoomed(s: State, z: State, o: OpenerId, res: Reservation)
    requires Doomed(s, o, res) && z.reg.used == s.reg.used && s.invalidated <= z.invalidated
    requires !s.openers[o].phase.Waiting? ==> o in z.openers && z.openers[o] == s.openers[o]
    ensures Doomed(z, o, res)
  {
  }

  // A teardown registers nobody and only ever wakes openers.
  lemma TeardownFrame(s: State, e: Event)
    requires RegistryOk(s) && Enabled(s, e) && TeardownEvent(e)
    ensures var z := Step(s, e);
      && z.reg.used == s.reg.used && s.invalidated <= z.invalidated
      && (forall o :: o in s.openers && !s.openers[o].phase.Waiting? ==> o in z.openers && z.openers[o] == s.openers[o])
  {
    hide RegistryOk, Tracks, Coherent, CountOk, Close, Detach, ForceCloseTail, ReaderTail, Owned;
    match e {
      case CloseCall(d, t, c) =>
        if Owned(s.reg, d, t, c) {
          CloseRegistry(s, d, t, c);
        }
      case ForceClose(d) => DetachFrame(s.reg, d);
      case ReaderDies(ch) =>
        if ch in s.lines {
          DetachFrame(s.reg, s.lines[ch].device);
        }
      case TailStep(i) => TailFrame(s, i);
      case _ =>
    }
  }

  lemma OpenerDoomed(s: State, p: OpenerId, o: OpenerId, res: Reservation)
    requires Inv(s) && Enabled(s, OpenStep(p)) && Doomed(s, o, res)
    ensures Doomed(OpenerStep(s, p), o, res)
  {
    hide RegistryOk, CancelOk, LinesOk, RequestsOk, WaitersOk, Tracks;
    OpenerRegistry(s, p);
    OpenerRequests(s, p);
    assert p != o ==> s.openers[p].token != s.openers[o].token;
    OthersKeepPhase(s, p, o);
    if p == o {
      OwnDoom(s, o, res);
    }
  }

  // A step of one opener only changes another by waking it.
  lemma OthersKeepPhase(s: State, p: OpenerId, o: OpenerId)
    requires o in s.openers && p in s.openers
    ensures o in OpenerStep(s, p).openers && OpenerStep(s, p).openers[o].token == s.openers[o].token
    ensures p != o && !s.openers[o].phase.Waiting? ==> OpenerStep(s, p).openers[o] == s.openers[o]
  {
    OpenerShape(s, p);
  }

  lemma OpenerShape(s: State, p: OpenerId)
    requires p in s.openers
    ensures var op := s.openers[p]; var z := OpenerStep(s, p).openers;
      && p in z
      && z == (if op.phase.Notifying? then Wake(s.openers, op.phase.res) else s.openers)[p := op.(phase := z[p].phase)]
  {
    match s.openers[p].phase {
      case Trying =>
      case Woken =>
      case Opening(_) =>
      case Spawned(_, _) =>
      case Finishing(_, _) =>
      case Notifying(_, _) =>
      case Waiting(_) =>
      case Returned(_) =>
    }
  }

  lemma OwnDoom(s: State, o: OpenerId, res: Reservation)
    requires Inv(s) && Enabled(s, OpenStep(o)) && Doomed(s, o, res)
    ensures var z := OpenerStep(s, o); z.reg == s.reg && Doomed(z, o, res)
  {
    hide Inv, Admit, Install;
    if BeforeInstall(s.openers[o].phase) {
      OpenPhysicalIsAlone(s, o);
    }
  }

  // A doomed opener builds no line, and keeps the one it has or gives it up.
  lemma DoomedPhase(s: State, e: Event, o: OpenerId, res: Reservation)
    requires Inv(s) && Enabled(s, e) && Doomed(s, o, res)
    ensures var z := Step(s, e);
      && o in z.openers && (z.openers[o].phase == s.openers[o].phase || !z.openers[o].phase.Spawned?)
      && (e != OpenStep(o) && e != OpenFails(o) ==> z.openers[o] == s.openers[o])
  {
    hide Inv, Tracks, RegistryOk, Rest, OpenerStep;
    if SimpleEvent(e) {
    } else if IoEvent(e) {
      IoFrame(s, e);
    } else if e.OpenStep? {
      OthersKeepPhase(s, e.opener, o);
      if e.opener == o {
        OwnTurn(s, o, res);
      }
    } else if TeardownEvent(e) {
      TeardownPhase(s, e, o);
    }
  }

  lemma TeardownPhase(s: State, e: Event, o: OpenerId)
    requires Inv(s) && Enabled(s, e) && TeardownEvent(e) && o in s.openers && !s.openers[o].phase.Waiting?
    ensures o in Step(s, e).openers && Step(s, e).openers[o] == s.openers[o]
  {
    TeardownFrame(s, e);
  }

  lemma OwnTurn(s: State, o: OpenerId, res: Reservation)
    requires Enabled(s, OpenStep(o)) && Doomed(s, o, res)
    ensures o in OpenerStep(s, o).openers && !OpenerStep(s, o).openers[o].phase.Spawned?
  {
  }

  // Either the opener still has its line, unpublished, or the line is detached.
  lemma DoomedLine(s: State, e: Event, o: OpenerId, res: Reservation, ch: Channel)
    requires Inv(s) && Enabled(s, e) && Doomed(s, o, res) && s.openers[o].phase == Spawned(res, ch)
    ensures var z := Step(s, e); o in z.openers && (z.openers[o].phase == Spawned(res, ch) || Detached(z, ch))
  {
    hide Inv, OpenerStep, Doomed, Detached;
    DoomedExists(s, o, res);
    DoomedPhase(s, e, o, res);
    if e == OpenStep(o) {
      GivenUpLine(s, o, res, ch);
    }
  }

  lemma GivenUpLine(s: State, o: OpenerId, res: Reservation, ch: Channel)
    requires Inv(s) && Enabled(s, OpenStep(o)) && Doomed(s, o, res) && s.openers[o].phase == Spawned(res, ch)
    ensures Detached(OpenerStep(s, o), ch)
  {
    hide OpenerStep, CancelOk, OpenersOk, RequestsOk, RegistryOk;
    OwnDoom(s, o, res);
    OwnTurn(s, o, res);
    OpenerSpawners(s, o);
    UnpublishedIsNoEntry(s, o);
    assert SpawnerOf(s, ch, o);
  }

  lemma {:induction false} NoEntryIsItsLine(s: State, es: seq<Event>, o: OpenerId, res: Reservation, ch: Channel)
    requires Inv(s) && IsRun(s, es) && Doomed(s, o, res) && s.openers[o].phase == Spawned(res, ch)
    ensures forall d :: d in After(s, es).reg.devices ==> After(s, es).reg.devices[d] != ch
    decreases |es|
  {
    hide Inv, Step, Doomed, Detached, OnlyRejects;
    DoomedExists(s, o, res);
    if es == [] {
      UnpublishedIsNoEntry(s, o);
    } else {
      StepKeeps(s, es[0]);
      DoomedStep(s, es[0], o, res);
      DoomedLine(s, es[0], o, res, ch);
      if Detached(Step(s, es[0]), ch) {
        DetachedForever(Step(s, es[0]), es[1..], ch);
        DetachedIsNoEntry(After(s, es), ch);
      } else {
        NoEntryIsItsLine(Step(s, es[0]), es[1..], o, res, ch);
      }
    }
  }

  lemma UnpublishedIsNoEntry(s: State, o: OpenerId)
    requires Inv(s) && o in s.openers && s.openers[o].phase.Spawned?
    ensures forall d :: d in s.reg.devices ==> s.reg.devices[d] != s.openers[o].phase.channel
  {
    hide Intact, RegistryOk, CancelOk, OpenersOk, RequestsOk;
  }

  lemma DetachedIsNoEntry(s: State, ch: Channel)
    requires Detached(s, ch)
    ensures forall d :: d in s.reg.devices ==> s.reg.devices[d] != ch
  {
  }

  lemma {:induction false} NeverBuilds(s: State, es: seq<Event>, o: OpenerId, res: Reservation)
    requires Inv(s) && IsRun(s, es) && Doomed(s, o, res) && !s.openers[o].phase.Spawned?
    ensures o in After(s, es).openers && !After(s, es).openers[o].phase.Spawned?
    decreases |es|
  {
    hide Inv, Step, Doomed;
    DoomedExists(s, o, res);
    if es != [] {
      StepKeeps(s, es[0]);
      DoomedStep(s, es[0], o, res);
      DoomedPhase(s, es[0], o, res);
      NeverBuilds(Step(s, es[0]), es[1..], o, res);
    }
  }

  lemma DoomedExists(s: State, o: OpenerId, res: Reservation)
    requires Doomed(s, o, res)
    ensures o in s.openers
  {
  }

  // An open whose reservation was invalidated never installs anything: its session is
  // never registered, it never reports success, the line it had built is never an
  // entry, and if it had built none it never does.
  lemma InvalidatedNeverInstalls(s: State, es: seq<Event>, o: OpenerId, res: Reservation)
    requires Inv(s) && IsRun(s, es)
    requires o in s.openers && BeforeInstall(s.openers[o].phase) && s.openers[o].phase.res == res
    requires res in s.invalidated
    ensures var z := After(s, es); var p := s.openers[o].phase;
      && o in z.openers && z.openers[o].token !in z.reg.used && z.openers[o].token !in z.reg.sessions
      && !(z.openers[o].phase.Returned? && z.openers[o].phase.verdict == Granted)
      && (p.Spawned? ==> forall d :: d in z.reg.devices ==> z.reg.devices[d] != p.channel)
      && (p.Opening? ==> !z.openers[o].phase.Spawned?)
  {
    hide Intact;
    DoomedRun(s, es, o, res);
    RunKeeps(s, es);
    if s.openers[o].phase.Spawned? {
      NoEntryIsItsLine(s, es, o, res, s.openers[o].phase.channel);
    } else {
      NeverBuilds(s, es, o, res);
    }
  }

  lemma {:induction false} DoomedRun(s: State, es: seq<Event>, o: OpenerId, res: Reservation)
    requires Inv(s) && IsRun(s, es) && Doomed(s, o, res)
    ensures Doomed(After(s, es), o, res)
    decreases |es|
  {
    if es != [] {
      StepKeeps(s, es[0]);
      DoomedStep(s, es[0], o, res);
      DoomedRun(Step(s, es[0]), es[1..], o, res);
    }
  }

  // --------------------------------------------------------- dying readers

  // A dying reader changes the registry iff its device has an entry, takes that entry
  // with all its sessions, and takes another lifetime's iff the entry is not its line.
  lemma ReaderTakesPresentEntry(s: State, ch: Channel)
    requires Inv(s) && Enabled(s, ReaderDies(ch))
    ensures ch in s.lines
    ensures var z := Step(s, ReaderDies(ch)); var d := s.lines[ch].device;
      && (z.reg != s.reg <==> d in s.reg.devices)
      && z.reg.devices == s.reg.devices - {d}
      && (d in s.reg.devices ==>
            forall t :: t in z.reg.sessions <==> t in s.reg.sessions && s.reg.sessions[t].device != d)
      && ((exists e :: e in s.reg.devices && e !in z.reg.devices && s.reg.devices[e] != ch)
          <==> d in s.reg.devices && s.reg.devices[d] != ch)
  {
    hide RegistryOk, CancelOk, OpenersOk, RequestsOk, Intact, SpawnedOk;
    DetachFrame(s.reg, s.lines[ch].device);
  }

  // It does happen: a device is opened, forcibly closed and opened again, and then the
  // first reader's error takes down the second lifetime and its session.
  lemma ReaderTakesAnotherLifetime() returns (es: seq<Event>)
    ensures IsRun(INIT, es)
    ensures var s := After(INIT, es);
      && Enabled(s, ReaderDies(0)) && 0 in s.lines && s.lines[0].device == 0
      && 0 in s.reg.devices && s.reg.devices[0] == 1 && 1 in s.reg.sessions
      && (var z := Step(s, ReaderDies(0)); 0 !in z.reg.devices && 1 !in z.reg.sessions)
  {
    hide IsRun, After, Install, Inv;
    es := ClosedByForce();
    var s := After(INIT, es);
    var again := OpensAlone(s, 1, 0, 0, 1);
    RunsConcat(INIT, es, again);
    es := es + again;
    InstalledFields(s.reg, 0, 1, 1, 0);
    InitOk();
    RunKeeps(INIT, es);
    ReaderTakesPresentEntry(After(INIT, es), 0);
  }

  lemma ClosedByForce() returns (es: seq<Event>)
    ensures IsRun(INIT, es)
    ensures var s := After(INIT, es);
      && s.reg.devices == map[] && s.opening == map[] && s.invalidated == {} && s.reg.used == {0}
      && s.openers.Keys == {0} && s.openers[0].token == 0
      && s.nextChannel == 1 && s.readers == {0} && s.lines == map[0 := Line(0, 0, [], true)]
  {
    hide IsRun, After, Install, Detach, ForceCloseTail, Admit, CloseStep, ReaderDiesStep, TailStepped, RegisterSink,
      UnregisterSink, SetMode, Connect, Disconnect, NmStart, TransportStart, RequestStepped, WorkerStep;
    es := OpensAlone(INIT, 0, 0, 0, 0);
    InstalledFields(INIT.reg, 0, 0, 0, 0);
    es := Extend(INIT, es, OpenStep(0));
    var s := After(INIT, es);
    DetachFrame(s.reg, 0);
    es := Extend(INIT, es, ForceClose(0));
  }
}
