// What one call changes, read off the fields of the registry alone.
module DaemonEffects {
  import opened Lifecycle
  import opened LifecycleProofs
  import opened Daemon
  import opened DaemonInvariant
  import opened DaemonProofs
  import opened DaemonRuns

  // Everything but the sessions, capabilities, bindings, cells and the counter.
  ghost predicate OthersKept(r: Registry, q: Registry) {
    q.devices == r.devices && q.hashes == r.hashes && q.sinks == r.sinks && q.used == r.used
  }

  // The owner's call puts the session on the plane it names and revokes what the
  // session was granted; anyone else's changes nothing.
  lemma ModeCallLands(s: State, d: DeviceId, t: Token, mode: Mode, c: Client)
    requires Inv(s)
    ensures var r := s.reg; var z := Step(s, ModeCall(d, t, mode, c));
      if t in r.sessions && r.sessions[t].device == d && r.sessions[t].owner == c then
        && z == s.(reg := z.reg) && OthersKept(r, z.reg)
        && z.reg.sessions == r.sessions[t := r.sessions[t].(mode := mode)]
        && z.reg.validity == r.validity - {t}
        && (forall f :: f in z.reg.grants ==> (f in z.reg.valid <==> f in r.valid && z.reg.grants[f].token != t))
      else z == s
  {
    hide Rest, HasNm, Refresh;
    if Owned(s.reg, d, t, c) {
      var r1 := WithMode(Revoke(s.reg, {t}), t, s.reg.sessions[t].(mode := mode));
      RefreshFrame(r1, d, c);
      var e := ModeCall(d, t, mode, c);
      StepKeeps(s, e);
      ValidUnless(s.reg, Step(s, e).reg, t);
    } else {
      assert DevicesOk(s.reg);
    }
  }

  // Of the capabilities issued so far, those of one session are revoked.
  lemma ValidUnless(r: Registry, q: Registry, t: Token)
    requires GrantCells(r) && GrantCells(q) && q.grants == r.grants && q.validity == r.validity - {t}
    ensures forall f :: f in q.grants ==> (f in q.valid <==> f in r.valid && r.grants[f].token != t)
  {
    forall f | f in q.grants ensures f in q.valid <==> f in r.valid && r.grants[f].token != t {
      assert Stored(q, f) <==> Stored(r, f) && r.grants[f].token != t;
    }
  }

  // A connect puts the session on its plane at the next generation of that plane.
  lemma ConnectCallLands(s: State, kind: Mode, d: DeviceId, t: Token)
    requires Inv(s) && kind != Nm
    ensures var r := s.reg; var z := Step(s, ConnectCall(kind, d, t));
      if t in r.sessions && r.sessions[t].device == d then
        var x := r.sessions[t];
        && z == s.(reg := z.reg) && OthersKept(r, z.reg)
        && z.reg.sessions == r.sessions[t := x.(mode := kind,
             wsGeneration := x.wsGeneration + (if kind == Ws then 1 else 0),
             wtGeneration := x.wtGeneration + (if kind == Wt then 1 else 0))]
        && t in z.reg.validity && z.reg.validity == r.validity[t := z.reg.validity[t]]
        && z.reg.validity[t] !in r.grants
      else z == s
  {
    hide Rest, HasNm, Connect, HashesOk, StoredOk, CellsOk, GrantsOk, HotOk, CountOk;
    CoherentOf(s);
    if CanConnect(s.reg, d, t) {
      ConnectOthers(s.reg, d, t, kind);
      ConnectFields(s.reg, d, t, kind);
      FreshCell(s.reg);
    } else {
      NoConnect(s.reg, d, t, kind);
    }
  }

  lemma ConnectOthers(r: Registry, d: DeviceId, t: Token, kind: Mode)
    requires CanConnect(r, d, t)
    ensures OthersKept(r, Connect(r, d, t, kind))
  {
    hide Refresh;
    RefreshFrame(WithMode(Issue(r, t, GrantFor(r, d, t, kind)), t, Bump(r.sessions[t], kind)), d, r.sessions[t].owner);
  }

  lemma NoConnect(r: Registry, d: DeviceId, t: Token, kind: Mode)
    requires !CanConnect(r, d, t)
    ensures Connect(r, d, t, kind) == r
  {
  }

  // A disconnect with the stored capability puts the session back on NM; with any
  // other it changes nothing.
  lemma DisconnectCallLands(s: State, f: Cell)
    requires Inv(s) && f in s.reg.grants
    ensures var r := s.reg; var g := r.grants[f];
      var z := Step(s, DisconnectCall(g.kind, g.device, g.token, g.generation, f));
      if g.token in r.validity && r.validity[g.token] == f then
        && z == s.(reg := z.reg) && OthersKept(r, z.reg) && g.token in r.sessions
        && z.reg.sessions == r.sessions[g.token := r.sessions[g.token].(mode := Nm)]
        && z.reg.validity == r.validity - {g.token}
      else z == s
  {
    hide Rest, Refresh, DevicesOk, HashesOk, HotOk, CellsOk, GrantsOk, CountOk;
    var r, g := s.reg, s.reg.grants[f];
    if Stored(r, f) {
      StoredIsCurrent(r, f);
      var r1 := WithMode(Revoke(r, {g.token}), g.token, r.sessions[g.token].(mode := Nm));
      RefreshFrame(r1, g.device, r.sessions[g.token].owner);
    }
  }

  lemma StoredIsCurrent(r: Registry, f: Cell)
    requires DevicesOk(r) && StoredOk(r) && f in r.grants && Stored(r, f)
    ensures var g := r.grants[f]; DisconnectCurrent(r, g.device, g.token, g.kind, g.generation, f)
  {
    assert StoredFor(r, r.grants[f].token);
  }

  // The owner's close takes the session, its hash and its capability, and with the last
  // session of the device the entry, whose line is then to be stopped.  Anyone else's
  // close, and that of a session already gone, changes nothing.
  lemma CloseCallLands(s: State, d: DeviceId, t: Token, c: Client)
    requires Inv(s)
    ensures var r := s.reg; var z := Step(s, CloseCall(d, t, c));
      if t in r.sessions && r.sessions[t].device == d && r.sessions[t].owner == c then
        && z.reg.sessions == r.sessions - {t} && z.reg.hashes == r.hashes - {AuthHash(t)}
        && z.reg.validity == r.validity - {t} && z.reg.sinks == r.sinks && z.reg.used == r.used
        && z.cancelled == s.cancelled + {t}
        && z == s.(reg := z.reg, cancelled := z.cancelled, tails := z.tails)
        && d in r.devices
        && if exists u :: u in r.sessions && u != t && r.sessions[u].device == d
           then z.reg.devices == r.devices && z.tails == s.tails
           else z.reg.devices == r.devices - {d}
                && z.tails == s.tails + [[BumpEpoch(r.devices[d]), SendShutdown(r.devices[d])]]
      else z == s
  {
    hide Rest, HasNm, Close, StoredOk, CellsOk, GrantsOk, HotOk, CountOk;
    assert DevicesOk(s.reg) && HashesOk(s.reg);
    if Owned(s.reg, d, t, c) {
      CloseFields(s.reg, d, t, c);
    }
  }

  lemma CloseFields(r: Registry, d: DeviceId, t: Token, c: Client)
    requires Owned(r, d, t, c)
    ensures var q := Close(r, d, t, c);
      && q.sessions == r.sessions - {t} && q.hashes == r.hashes - {r.sessions[t].hash}
      && q.validity == r.validity - {t} && q.sinks == r.sinks && q.used == r.used
      && q.devices == if LastOnDevice(r, t) then r.devices - {d} else r.devices
  {
    hide Refresh, HasNm;
    if !LastOnDevice(r, t) {
      RefreshFrame(DropSession(r, t), d, c);
    }
  }

  // A forced close takes every session of the device, its entry, their hashes and their
  // capabilities, and leaves every other device's alone.
  lemma ForceCloseLands(s: State, d: DeviceId)
    requires Inv(s)
    ensures var r := s.reg; var z := Step(s, ForceClose(d));
      && z.reg.devices == r.devices - {d}
      && (forall t :: t in z.reg.sessions <==> t in r.sessions && r.sessions[t].device != d)
      && (forall t :: t in z.reg.sessions ==> z.reg.sessions[t] == r.sessions[t])
      && (forall t :: AuthHash(t) in z.reg.hashes <==> t in r.sessions && r.sessions[t].device != d)
      && (forall t :: t in z.reg.validity <==> t in r.validity && t in r.sessions && r.sessions[t].device != d)
      && (forall t :: t in z.reg.validity ==> z.reg.validity[t] == r.validity[t])
      && (forall k :: k in z.reg.hot <==> k in r.hot && k.device != d)
      && (forall k :: k in z.reg.hot ==> z.reg.hot[k] == r.hot[k])
  {
    hide Rest, HasNm;
    assert StoredOk(s.reg) && HashesOk(s.reg);
    forall t | t in s.reg.validity ensures t in s.reg.sessions {
      assert StoredFor(s.reg, t);
    }
  }

  // It leaves a thread that cancels exactly those sessions, takes exactly those that were
  // not in NM mode off the counter, and stops the entry's line if there was one; the
  // opener in flight is invalidated, and those who wait for it are woken.
  lemma ForceCloseOwes(s: State, d: DeviceId)
    requires Inv(s)
    ensures var r := s.reg; var z := Step(s, ForceClose(d));
      && |z.tails| == |s.tails| + 1 && z.tails[..|s.tails|] == s.tails
      && (forall t :: Cancels(z.tails[|s.tails|], t) <==> t in r.sessions && r.sessions[t].device == d)
      && OwedBy(z.tails[|s.tails|])
         == |set t | t in r.sessions && r.sessions[t].device == d && r.sessions[t].mode != Nm|
      && (forall ch :: Stops(z.tails[|s.tails|], ch) <==> d in r.devices && r.devices[d] == ch)
      && (forall x :: x in z.invalidated <==> x in s.invalidated || (d in s.opening && s.opening[d] == x))
      && (forall o :: o in s.openers && s.openers[o].phase.Waiting? && d in s.opening
                      && s.openers[o].phase.res == s.opening[d] ==>
            o in z.openers && z.openers[o].phase == Woken)
  {
    hide Inv, Detach;
    ForceCloseTailOk(s.reg, d);
    TailCancels(s.reg, d);
    TailStops(s.reg, d);
    assert NonNm(s.reg.sessions) * OnDevice(s.reg.sessions, d)
      == set t | t in s.reg.sessions && s.reg.sessions[t].device == d && s.reg.sessions[t].mode != Nm;
  }

  lemma TailCancels(r: Registry, d: DeviceId)
    ensures forall t :: Cancels(ForceCloseTail(r, d), t) <==> t in r.sessions && r.sessions[t].device == d
  {
    var tail := ForceCloseTail(r, d);
    assert tail[0] == Cancel(OnDevice(r.sessions, d));
    assert forall j :: 0 < j < |tail| ==> !tail[j].Cancel?;
  }

  lemma TailStops(r: Registry, d: DeviceId)
    ensures forall ch :: Stops(ForceCloseTail(r, d), ch) <==> d in r.devices && r.devices[d] == ch
  {
    var tail := ForceCloseTail(r, d);
    assert !tail[0].BumpEpoch? && !tail[1].BumpEpoch?;
    if d in r.devices {
      assert tail[2] == BumpEpoch(r.devices[d]) && tail[3] == SendShutdown(r.devices[d]);
    }
  }

  ghost predicate Cancels(tail: seq<Action>, t: Token) {
    exists j :: 0 <= j < |tail| && tail[j].Cancel? && t in tail[j].tokens
  }

  // The epoch is bumped first, then the worker is told to stop.
  ghost predicate Stops(tail: seq<Action>, ch: Channel) {
    exists j, k :: 0 <= j < k < |tail| && tail[j] == BumpEpoch(ch) && tail[k] == SendShutdown(ch)
  }

  // What one turn of the loop in `open` comes to.  Whoever finds an entry joins it.  Only
  // one who was woken and finds neither entry nor reservation is refused; the others wait
  // for the reservation they find, try once more, or take one of their own.
  lemma TurnsOfOpen(s: State, o: OpenerId)
    requires Enabled(s, OpenStep(o)) && (s.openers[o].phase.Trying? || s.openers[o].phase.Woken?)
    ensures var op, z := s.openers[o], OpenerStep(s, o); var d := op.device;
      && o in z.openers
      && (z.openers[o].phase == Returned(Granted) <==> d in s.reg.devices)
      && (z.openers[o].phase == Returned(Refused) <==> op.phase.Woken? && d !in s.reg.devices && d !in s.opening)
      && (z.openers[o].phase == Trying <==> op.phase.Woken? && d !in s.reg.devices && d in s.opening)
      && (z.openers[o].phase.Waiting? <==> op.phase.Trying? && d !in s.reg.devices && d in s.opening)
      && (z.openers[o].phase.Waiting? ==> z.openers[o].phase.res == s.opening[d])
      && (z.openers[o].phase.Opening? <==> op.phase.Trying? && d !in s.reg.devices && d !in s.opening)
      && (z.openers[o].phase.Opening? ==> z.opening == s.opening[d := z.openers[o].phase.res])
  {
    hide Register;
  }

  // An open of a device that has an entry joins it: a new NM session of its own, and
  // nothing else changes but its binding.
  lemma JoinsTheEntry(s: State, o: OpenerId)
    requires Inv(s) && Enabled(s, OpenStep(o)) && (s.openers[o].phase.Trying? || s.openers[o].phase.Woken?)
    requires s.openers[o].device in s.reg.devices
    ensures var r, op := s.reg, s.openers[o]; var z := OpenerStep(s, o);
      && op.token !in r.sessions
      && z.reg.sessions == r.sessions[op.token := Session(op.device, op.client, Nm, AuthHash(op.token), true, 0, 0)]
      && z.reg.hashes == r.hashes[AuthHash(op.token) := op.token]
      && z.reg.devices == r.devices && z.reg.validity == r.validity && z.reg.sinks == r.sinks
      && z == s.(reg := z.reg, openers := s.openers[o := op.(phase := Returned(Granted))])
  {
    hide Refresh, CancelOk, LinesOk, RequestsOk, CellsOk, HotOk, HashesOk, StoredOk, GrantsOk, CountOk;
    var op := s.openers[o];
    RefreshFrame(s.reg.(sessions := s.reg.sessions[op.token := NewSession(op.device, op.token, op.client)],
                        hashes := s.reg.hashes[AuthHash(op.token) := op.token],
                        used := s.reg.used + {op.token}), op.device, op.client);
  }

  // -------------------------------------------------- requests over NM

  // A client's request is let through iff the client has a sink and an NM session on
  // the device, whichever way it came by them.
  lemma NmLetsThrough(s: State, q: Request, c: Client, d: DeviceId)
    requires Inv(s) && q !in s.requests
    ensures var r := s.reg; var z := Step(s, NmRequest(q, c, d));
      && q in z.requests && z == s.(requests := s.requests[q := z.requests[q]])
      && (z.requests[q] != Denied <==>
            c in r.sinks && exists t :: t in r.sessions && IsNmOf(r.sessions[t], d, c))
      && (z.requests[q] != Denied ==>
            && z.requests[q].Attached? && z.requests[q].cell in r.valid
            && d in r.devices && z.requests[q].channel == r.devices[d])
  {
    hide Rest, DevicesOk, HashesOk, StoredOk, GrantsOk, CountOk;
    var k := HotKey(c, d);
    assert k in s.reg.hot <==> Entitled(s.reg, k);
    if k in s.reg.hot {
      assert Bound(s.reg, s.reg.hot[k].cell);
    }
  }

  // With an idle worker and nobody in between it is performed.
  lemma NmSessionWorks(s: State, t: Token, q: Request) returns (es: seq<Event>)
    requires Inv(s) && q !in s.requests
    requires t in s.reg.sessions && s.reg.sessions[t].mode == Nm && s.reg.sessions[t].owner in s.reg.sinks
    requires forall ch :: ch in s.lines && s.lines[ch].device == s.reg.sessions[t].device ==> s.lines[ch].queue == []
    ensures IsRun(s, es) && q in After(s, es).requests && After(s, es).requests[q] == Performed
  {
    hide Inv, Coherent, IsRun, After, CloseStep, ForceCloseStep, ReaderDiesStep, TailStepped, OpenerStep, Connect,
      Disconnect, SetMode, RegisterSink, UnregisterSink, TransportStart, Intact, NmStart;
    var d, c := s.reg.sessions[t].device, s.reg.sessions[t].owner;
    NmSessionRuns(s, t);
    NmLetsThrough(s, q, c, d);
    var ch := s.reg.devices[d];
    NothingRun(s);
    es := Extend(s, [], NmRequest(q, c, d));
    var f := After(s, es).requests[q].cell;
    assert After(s, es) == s.(requests := s.requests[q := Attached(f, ch)]);
    es := Extend(s, es, RequestStep(q));
    assert After(s, es) == s.(requests := s.requests[q := Stamped(f, ch, s.lines[ch].epoch)]);
    es := Extend(s, es, RequestStep(q));
    assert After(s, es).lines[ch].queue == [Command(q, f, s.lines[ch].epoch)];
    es := Extend(s, es, Work(ch));
  }

  lemma NmSessionRuns(s: State, t: Token)
    requires Inv(s) && t in s.reg.sessions && s.reg.sessions[t].mode == Nm
    ensures var x := s.reg.sessions[t];
      && IsNmOf(x, x.device, x.owner) && x.device in s.reg.devices
      && s.reg.devices[x.device] in s.lines && s.lines[s.reg.devices[x.device]].running
      && s.lines[s.reg.devices[x.device]].device == x.device
  {
    hide HotOk, HashesOk, StoredOk, GrantsOk, CellsOk, OpenersOk, CancelOk, RequestsOk, SpawnedOk;
    assert Intact(s, s.reg.devices[s.reg.sessions[t].device], s.reg.sessions[t].device);
  }

  // ------------------------------------------------------- stopping a line

  // A worker left alone empties its queue; nothing else changes but its requests.
  lemma {:induction false} Drains(s: State, ch: Channel) returns (es: seq<Event>)
    requires Inv(s) && ch in s.lines
    ensures IsRun(s, es)
    ensures var z := After(s, es);
      && ch in z.lines && z.lines[ch].queue == [] && z.lines[ch].epoch == s.lines[ch].epoch
      && (Shutdown in s.lines[ch].queue || !s.lines[ch].running ==> !z.lines[ch].running)
      && z == s.(lines := z.lines, requests := z.requests)
    decreases |s.lines[ch].queue|
  {
    hide Inv, IsRun, After, IsCurrent;
    NothingRun(s);
    es := [];
    if s.lines[ch].queue != [] {
      QueuedRuns(s, ch);
      StepKeeps(s, Work(ch));
      var z := Step(s, Work(ch));
      es := Drains(z, ch);
      FirstThen(s, Work(ch), es);
      es := [Work(ch)] + es;
    }
  }

  lemma QueuedRuns(s: State, ch: Channel)
    requires Inv(s) && ch in s.lines && s.lines[ch].queue != []
    ensures s.lines[ch].running
  {
    hide RegistryOk, CancelOk, OpenersOk, RequestsOk;
  }

  lemma FirstThen(s: State, e: Event, es: seq<Event>)
    requires Enabled(s, e) && IsRun(Step(s, e), es)
    ensures IsRun(s, [e] + es) && After(s, [e] + es) == After(Step(s, e), es)
  {
    hide Step, Enabled;
    assert ([e] + es)[1..] == es;
  }

  // Whoever stops a line gets it stopped, however full its queue is: the epoch is bumped,
  // the worker ends, and no request is left waiting in its queue.
  lemma StopIsObeyed(s: State, i: nat, ch: Channel) returns (es: seq<Event>)
    requires Inv(s) && i < |s.tails| && s.tails[i] == [BumpEpoch(ch), SendShutdown(ch)]
    ensures IsRun(s, es)
    ensures var z := After(s, es);
      && ch in s.lines && ch in z.lines && z.lines[ch].epoch == s.lines[ch].epoch + 1
      && !z.lines[ch].running && z.lines[ch].queue == []
      && (forall q :: q in z.requests && z.requests[q].Queued? ==> z.requests[q].channel != ch)
      && z == s.(tails := s.tails[i := []], lines := z.lines, requests := z.requests)
  {
    hide Inv, IsRun, After, IsCurrent;
    StopHasLine(s, i, ch);
    StepKeeps(s, TailStep(i));
    var s1 := Step(s, TailStep(i));
    var a := Drains(s1, ch);
    FirstThen(s, TailStep(i), a);
    RunKeeps(s1, a);
    var s2 := After(s1, a);
    StepKeeps(s2, TailStep(i));
    var s3 := Step(s2, TailStep(i));
    assert s.tails[i][1..] == [SendShutdown(ch)] && s2.tails[i][1..] == [];
    assert s3.tails == s.tails[i := []];
    var b := Drains(s3, ch);
    FirstThen(s2, TailStep(i), b);
    es := [TailStep(i)] + a + ([TailStep(i)] + b);
    RunsConcat(s, [TailStep(i)] + a, [TailStep(i)] + b);
    RunKeeps(s3, b);
    EmptyHoldsNone(After(s, es), ch);
  }

  lemma EmptyHoldsNone(s: State, ch: Channel)
    requires Inv(s) && ch in s.lines && s.lines[ch].queue == []
    ensures forall q :: q in s.requests && s.requests[q].Queued? ==> s.requests[q].channel != ch
  {
    hide RegistryOk, CancelOk, OpenersOk, LinesOk;
  }

  lemma StopHasLine(s: State, i: nat, ch: Channel)
    requires Inv(s) && i < |s.tails| && s.tails[i] != [] && s.tails[i][0] == BumpEpoch(ch)
    ensures ch in s.lines
  {
    hide RegistryOk, CancelOk, OpenersOk, RequestsOk;
    assert TornAt(s.tails, i, 0, ch);
  }

  // ------------------------------------------------------------- the sinks

  lemma {:induction false} RefreshAllFrame(r: Registry, ds: seq<DeviceId>, c: Client)
    ensures var q := RefreshAll(r, ds, c);
      q.sessions == r.sessions && q.validity == r.validity && OthersKept(r, q)
    decreases |ds|
  {
    hide Refresh;
    if ds != [] {
      RefreshFrame(r, ds[0], c);
      RefreshAllFrame(Refresh(r, ds[0], c), ds[1..], c);
    }
  }

  // A client that connects is bound to every device it has an NM session on, and one
  // that goes is bound to none; nobody else's bindings and no session change.
  lemma SinkCallsLand(s: State, c: Client, order: seq<DeviceId>)
    requires Inv(s) && Enabled(s, SinkOn(c, order))
    ensures var r := s.reg; var on, off := Step(s, SinkOn(c, order)), Step(s, SinkOff(c));
      && on == s.(reg := on.reg) && off == s.(reg := off.reg)
      && on.reg.sinks == r.sinks + {c} && off.reg.sinks == r.sinks - {c}
      && on.reg.sessions == r.sessions == off.reg.sessions && on.reg.validity == r.validity == off.reg.validity
      && on.reg.devices == r.devices == off.reg.devices
      && (forall d :: HotKey(c, d) in on.reg.hot <==> HasNm(r.sessions, d, c))
      && (forall d :: HotKey(c, d) !in off.reg.hot)
  {
    hide Rest, RefreshAll;
    RefreshAllFrame(s.reg.(sinks := s.reg.sinks + {c}), order, c);
    StepKeeps(s, SinkOn(c, order));
    var q := Step(s, SinkOn(c, order)).reg;
    forall d ensures HotKey(c, d) in q.hot <==> HasNm(s.reg.sessions, d, c) {
      assert HotKey(c, d) in q.hot <==> Entitled(q, HotKey(c, d));
    }
  }

  // --------------------------------------------------- every open returns

  // Once it has its reservation an opener can return whatever the others do, and when it
  // does its reservation is gone and all who waited for it are awake.
  lemma {:induction false} Finishes(s: State, p: OpenerId) returns (es: seq<Event>)
    requires Inv(s) && p in s.openers && (Holds(s.openers[p].phase) || s.openers[p].phase.Notifying?)
    ensures IsRun(s, es)
    ensures var z := After(s, es); var res := s.openers[p].phase.res;
      && p in z.openers && z.openers[p].phase.Returned?
      && s.openers.Keys <= z.openers.Keys
      && (forall o :: o in s.openers && o != p ==>
            z.openers[o]
            == if s.openers[o].phase == Waiting(res) then s.openers[o].(phase := Woken) else s.openers[o])
      && (Holds(s.openers[p].phase) ==> s.openers[p].device !in z.opening)
      && (s.openers[p].phase.Notifying? ==> z.opening == s.opening)
    decreases match s.openers[p].phase
              case Notifying(_, _) => 0
              case Finishing(_, _) => 1
              case _ => 2
  {
    hide Inv, OpenerStep;
    var e := if s.openers[p].phase.Opening? then OpenFails(p) else OpenStep(p);
    var z := Step(s, e);
    OpenerShape(s, p);
    Nears(s, p);
    StepKeeps(s, e);
    if s.openers[p].phase.Notifying? {
      NothingRun(z);
      es := [];
    } else {
      es := Finishes(z, p);
    }
    FirstThen(s, e, es);
    es := [e] + es;
  }

  // Each step of such an opener brings it nearer to its return.
  lemma Nears(s: State, p: OpenerId)
    requires Inv(s) && p in s.openers && (Holds(s.openers[p].phase) || s.openers[p].phase.Notifying?)
    ensures var z := OpenerStep(s, p); var phase := s.openers[p].phase;
      && p in z.openers
      && (phase.Spawned? ==> z.openers[p].phase.Finishing? && z.openers[p].phase.res == phase.res)
      && (phase.Finishing? ==>
            && z.openers[p].phase.Notifying? && z.openers[p].phase.res == phase.res
            && s.openers[p].device !in z.opening)
      && (phase.Notifying? ==> z.openers[p].phase.Returned? && z.opening == s.opening)
  {
    hide RegistryOk, CancelOk, LinesOk, RequestsOk, WaitersOk;
  }

  // Somebody holds every reservation, and it is not one who waits or tries.
  lemma HolderExists(s: State, d: DeviceId) returns (p: OpenerId)
    requires Inv(s) && d in s.opening
    ensures HolderOf(s, d, p)
  {
    hide RegistryOk, CancelOk, LinesOk, RequestsOk;
    p :| HolderOf(s, d, p);
  }

  lemma AnswererExists(s: State, o: OpenerId) returns (p: OpenerId)
    requires Inv(s) && o in s.openers && s.openers[o].phase.Waiting?
    ensures p in s.openers && Answers(s.openers[p].phase, s.openers[o].phase.res)
  {
    hide RegistryOk, CancelOk, LinesOk, RequestsOk;
    p :| AnswererOf(s, s.openers[o].phase.res, p);
  }

  // No open hangs: from every reachable state each can come to its return, whether it
  // tries, waits or was woken, and whoever has the device reserved.
  lemma OpenAlwaysReturns(s: State, o: OpenerId) returns (es: seq<Event>)
    requires Inv(s) && o in s.openers
    ensures IsRun(s, es) && o in After(s, es).openers && After(s, es).openers[o].phase.Returned?
  {
    hide Inv, OpenerStep, IsRun, After;
    match s.openers[o].phase {
      case Returned(_) =>
        NothingRun(s);
        es := [];
      case Waiting(_) =>
        var p := AnswererExists(s, o);
        es := Finishes(s, p);
        RunKeeps(s, es);
        var rest := WokenReturns(After(s, es), o);
        RunsConcat(s, es, rest);
        es := es + rest;
      case Woken => es := WokenReturns(s, o);
      case Trying => es := TryingReturns(s, o);
      case _ => es := Finishes(s, o);
    }
  }

  // The device's reservation, if there is one, can be got out of the way.
  lemma Unreserves(s: State, o: OpenerId) returns (es: seq<Event>)
    requires Inv(s) && o in s.openers && (s.openers[o].phase.Woken? || s.openers[o].phase.Trying?)
    ensures IsRun(s, es) && Inv(After(s, es)) && s.openers[o].device !in After(s, es).opening
    ensures o in After(s, es).openers && After(s, es).openers[o] == s.openers[o]
  {
    hide Inv, OpenerStep, IsRun, After;
    NothingRun(s);
    es := [];
    if s.openers[o].device in s.opening {
      var p := HolderExists(s, s.openers[o].device);
      es := Finishes(s, p);
      RunKeeps(s, es);
    }
  }

  lemma WokenReturns(s: State, o: OpenerId) returns (es: seq<Event>)
    requires Inv(s) && o in s.openers && s.openers[o].phase.Woken?
    ensures IsRun(s, es) && o in After(s, es).openers && After(s, es).openers[o].phase.Returned?
  {
    hide Inv, IsRun, After;
    es := Unreserves(s, o);
    es := Extend(s, es, OpenStep(o));
  }

  lemma TryingReturns(s: State, o: OpenerId) returns (es: seq<Event>)
    requires Inv(s) && o in s.openers && s.openers[o].phase.Trying?
    ensures IsRun(s, es) && o in After(s, es).openers && After(s, es).openers[o].phase.Returned?
  {
    hide Inv, IsRun, After;
    es := Unreserves(s, o);
    var z := After(s, es);
    es := Extend(s, es, OpenStep(o));
    RunKeeps(s, es);
    if z.openers[o].device !in z.reg.devices {
      var rest := Finishes(After(s, es), o);
      RunsConcat(s, es, rest);
      es := es + rest;
    }
  }

  // Who waits for another's first open joins it once that open succeeds: both return
  // granted, each with its own session.
  lemma WaiterJoins(s: State, o: OpenerId, p: OpenerId) returns (es: seq<Event>)
    requires Inv(s) && o in s.openers && p in s.openers && s.openers[p].phase.Spawned?
    requires s.openers[o].phase == Waiting(s.openers[p].phase.res) && s.openers[o].device == s.openers[p].device
    requires s.openers[p].phase.res !in s.invalidated
    ensures IsRun(s, es)
    ensures var z := After(s, es); var d := s.openers[o].device;
      && o in z.openers && z.openers[o].phase == Returned(Granted)
      && p in z.openers && z.openers[p].phase == Returned(Granted)
      && d in z.reg.devices && z.reg.devices[d] == s.openers[p].phase.channel
      && s.openers[o].token in z.reg.sessions && z.reg.sessions[s.openers[o].token].device == d
      && s.openers[p].token in z.reg.sessions && z.reg.sessions[s.openers[p].token].device == d
  {
    hide Inv, IsRun, After, Install, Admit, CloseStep, ForceCloseStep, ReaderDiesStep, TailStepped, RegisterSink,
      UnregisterSink, SetMode, Connect, Disconnect, NmStart, TransportStart, RequestStepped, WorkerStep;
    var ch, d := s.openers[p].phase.channel, s.openers[p].device;
    NothingRun(s);
    Installs(s, p);
    es := Extend(s, [], OpenStep(p));
    var y := After(s, es);
    RunKeeps(s, es);
    Nears(y, p);
    es := Extend(s, es, OpenStep(p));
    es := Extend(s, es, OpenStep(p));
    var w := After(s, es);
    assert w.reg == y.reg && w.openers[o] == s.openers[o].(phase := Woken);
    RunKeeps(s, es);
    JoinsTheEntry(w, o);
    es := Extend(s, es, OpenStep(o));
  }

  // The opener that still has its reservation publishes its line.
  lemma Installs(s: State, p: OpenerId)
    requires Inv(s) && p in s.openers && s.openers[p].phase.Spawned? && s.openers[p].phase.res !in s.invalidated
    ensures var op := s.openers[p]; var z := OpenerStep(s, p);
      && z.reg.devices == s.reg.devices[op.device := op.phase.channel]
      && z.reg.sessions == s.reg.sessions[
           op.token := Session(op.device, op.client, Nm, AuthHash(op.token), true, 0, 0)]
      && z == s.(reg := z.reg, readers := s.readers + {op.phase.channel},
                 openers := s.openers[p := op.(phase := Finishing(op.phase.res, Granted))])
  {
    hide Install, RegistryOk, CancelOk, LinesOk, RequestsOk, WaitersOk;
    var op := s.openers[p];
    InstalledFields(s.reg, op.device, op.phase.channel, op.token, op.client);
  }
}
