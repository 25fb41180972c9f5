// The daemon's `DeviceManager` as it works: maps changed in place, retained and
// counted in loops.  Every method that runs under the `lifecycle` mutex is proved
// to make exactly the transition of the same name in `Lifecycle`.
module DeviceManagers {
  import opened Common
  import opened Lifecycle
  import opened LifecycleProofs

  const MODE_NM := "nm"
  const MODE_WS := "ws"
  const MODE_WT := "wt"

  datatype TransportGrant = TransportGrant(generation: nat, capability: Cell)

  // What one pass of the loop in `open` finds.
  datatype Attempt = Joined | Wait(reservation: nat) | First(reservation: nat)

  datatype Publication = Installed | Unused | Invalidated

  function ParseMode(mode: string): Option<Mode> {
    if mode == MODE_NM then Some(Nm)
    else if mode == MODE_WS then Some(Ws)
    else if mode == MODE_WT then Some(Wt)
    else None
  }

  lemma RevokeMore(r: Registry, a: set<Token>, t: Token)
    requires t !in a
    ensures Revoke(Revoke(r, a), {t}) == Revoke(r, a + {t})
  {
    var q, z := Revoke(Revoke(r, a), {t}), Revoke(r, a + {t});
    assert q.validity == z.validity;
    assert q.valid == z.valid;
  }

  lemma RevokeNone(r: Registry, ts: set<Token>)
    requires forall t :: t in ts ==> t !in r.validity
    ensures Revoke(r, ts) == r
  {
    assert r.validity - ts == r.validity;
    assert Revoke(r, ts).valid == r.valid;
  }

  lemma OthersLeft(r: Registry, t: Token)
    requires t in r.sessions
    ensures var left := r.sessions - {t};
      LastOnDevice(r, t) <==> !exists u :: u in left && left[u].device == r.sessions[t].device && left[u].active
  {
    var left := r.sessions - {t};
    if u: Token :| u in r.sessions && u != t && r.sessions[u].device == r.sessions[t].device && r.sessions[u].active {
      assert u in left;
    }
  }

  lemma {:induction false} RefreshLast(r: Registry, ds: seq<DeviceId>, d: DeviceId, c: Client)
    ensures RefreshAll(r, ds + [d], c) == Refresh(RefreshAll(r, ds, c), d, c)
    decreases |ds|
  {
    if ds == [] {
      assert (ds + [d])[1..] == [];
    } else {
      assert (ds + [d])[1..] == ds[1..] + [d];
      RefreshLast(Refresh(r, ds[0], c), ds[1..], d, c);
    }
  }

  lemma RefreshNothing(r: Registry, c: Client)
    ensures RefreshAll(r, [], c) == r
  {
  }

  lemma ListsNothing()
    ensures Lists([], {})
  {
  }

  lemma ListsMore(order: seq<DeviceId>, ds: set<DeviceId>, d: DeviceId)
    requires Lists(order, ds) && d !in ds
    ensures Lists(order + [d], ds + {d})
  {
  }

  // The new flag is stored before the old one is cleared.
  lemma IssueFields(r: Registry, t: Token, g: Grant)
    requires GrantCells(r) && ValidityCells(r)
    ensures var q := Issue(r, t, g);
      && q.validity == r.validity[t := r.nextCell]
      && q.valid == r.valid + {r.nextCell} - (if t in r.validity then {r.validity[t]} else {})
  {
    assert Revoke(r, {t}).valid == r.valid - (if t in r.validity then {r.validity[t]} else {});
  }

  lemma RevokeOnlyStored(r: Registry, ts: set<Token>, done: set<Token>)
    requires done == ts * r.validity.Keys
    ensures Revoke(r, done) == Revoke(r, ts)
  {
    assert Revoke(r, done).validity == Revoke(r, ts).validity;
    assert Revoke(r, done).valid == Revoke(r, ts).valid;
  }

  lemma DropHotMore(r: Registry, a: set<HotKey>, k: HotKey)
    requires k !in a
    ensures DropHot(DropHot(r, a), {k}) == DropHot(r, a + {k})
  {
    var q, z := DropHot(DropHot(r, a), {k}), DropHot(r, a + {k});
    assert q.hot == z.hot;
    assert q.valid == z.valid;
  }

  lemma DropHotNone(r: Registry, ks: set<HotKey>)
    requires forall k :: k in ks ==> k !in r.hot
    ensures DropHot(r, ks) == r
  {
    assert r.hot - ks == r.hot;
    assert DropHot(r, ks).valid == r.valid;
  }

  lemma CountedWith(outside: set<Token>, ts: set<Token>, t: Token)
    requires t !in ts
    ensures |outside * (ts + {t})| == |outside * ts| + if t in outside then 1 else 0
  {
    if t in outside {
      assert outside * (ts + {t}) == outside * ts + {t};
    } else {
      assert outside * (ts + {t}) == outside * ts;
    }
  }

  class DeviceManager {
    var devices: map<DeviceId, Channel>
    var sessions: map<Token, Session>
    var hashes: map<AuthHash, Token>
    var validity: map<Token, Cell>
    var sinks: set<Client>
    var hot: map<HotKey, Hot>
    var nonNm: int
    var opening: map<DeviceId, nat>
    var invalidated: set<nat>
    var lifetimes: nat
    // The heap of atomic flags: which were allocated and which hold `true`.
    var valid: set<Cell>
    var nextCell: Cell
    ghost var used: set<Token>
    ghost var grants: map<Cell, Grant>
    ghost var bindings: map<Cell, HotKey>

    ghost function View(): Registry
      reads this
    {
      Registry(devices, sessions, hashes, validity, sinks, hot, nonNm, valid, nextCell, used, grants, bindings)
    }

    constructor ()
      ensures View() == EMPTY && opening == map[] && invalidated == {} && lifetimes == 0
    {
      devices, sessions, hashes, validity, sinks, hot, nonNm := map[], map[], map[], map[], {}, map[], 0;
      opening, invalidated, lifetimes := map[], {}, 0;
      valid, nextCell := {}, 0;
      used, grants, bindings := {}, map[], map[];
    }

    // ------------------------------------------------------ read-only scans

    method HasNmSessionForClient(d: DeviceId, c: Client) returns (found: bool)
      ensures found <==> HasNm(sessions, d, c)
    {
      found := false;
      var rest := sessions.Keys;
      while rest != {} && !found
        invariant rest <= sessions.Keys
        invariant found ==> HasNm(sessions, d, c)
        invariant forall t :: t in sessions && t !in rest && IsNmOf(sessions[t], d, c) ==> found
        decreases |rest|
      {
        var t :| t in rest;
        found := IsNmOf(sessions[t], d, c);
        rest := rest - {t};
      }
    }

    method AnyActiveOn(d: DeviceId) returns (found: bool)
      ensures found <==> exists t :: t in sessions && sessions[t].device == d && sessions[t].active
    {
      found := false;
      var rest := sessions.Keys;
      while rest != {} && !found
        invariant rest <= sessions.Keys
        invariant found ==> exists t :: t in sessions && sessions[t].device == d && sessions[t].active
        invariant forall t :: t in sessions && t !in rest && sessions[t].device == d && sessions[t].active ==> found
        decreases |rest|
      {
        var t :| t in rest;
        found := sessions[t].device == d && sessions[t].active;
        rest := rest - {t};
      }
    }

    method DevicesOfClient(c: Client) returns (ds: set<DeviceId>)
      ensures ds == DevicesOf(View(), c)
    {
      ds := {};
      var rest := sessions.Keys;
      while rest != {}
        invariant rest <= sessions.Keys
        invariant ds
          == set t | t in sessions && t !in rest && sessions[t].owner == c && sessions[t].active :: sessions[t].device
        decreases |rest|
      {
        var t :| t in rest;
        if sessions[t].owner == c && sessions[t].active {
          ds := ds + {sessions[t].device};
        }
        rest := rest - {t};
      }
    }

    // The sessions of a device and how many of them are outside NM mode.
    method SessionsOn(d: DeviceId) returns (tokens: set<Token>, nonNmCount: nat)
      ensures tokens == OnDevice(sessions, d)
      ensures nonNmCount == |NonNm(sessions) * OnDevice(sessions, d)|
    {
      tokens, nonNmCount := {}, 0;
      ghost var outside := NonNm(sessions);
      var rest := sessions.Keys;
      while rest != {}
        invariant rest <= sessions.Keys
        invariant tokens == OnDevice(sessions, d) - rest
        invariant nonNmCount == |outside * tokens|
        decreases |rest|
      {
        var t :| t in rest;
        if sessions[t].device == d {
          CountedWith(outside, tokens, t);
          if sessions[t].mode != Nm {
            nonNmCount := nonNmCount + 1;
          }
          tokens := tokens + {t};
        }
        rest := rest - {t};
      }
      assert OnDevice(sessions, d) - {} == OnDevice(sessions, d);
    }

    // Looks a session up by the hash a transport presents.
    method GetDeviceByWsAuth(h: AuthHash) returns (r: Option<(DeviceId, Token)>)
      requires DevicesOk(View()) && HashesOk(View())
      ensures r.Some? <==> exists t :: t in sessions && sessions[t].hash == h
      ensures r.Some? ==>
        r.value.1 in sessions && sessions[r.value.1].hash == h && sessions[r.value.1].device == r.value.0
    {
      if h !in hashes {
        return None;
      }
      var token := hashes[h];
      if token !in sessions || !sessions[token].active {
        return None;
      }
      return Some((sessions[token].device, token));
    }

    // ------------------------------------------------------ building blocks

    // A new capability for the session; the one it replaces is revoked.
    method ReplaceTransportValidity(t: Token, ghost g: Grant) returns (cap: Cell)
      requires GrantCells(View()) && ValidityCells(View())
      modifies `validity, `valid, `nextCell, `grants
      ensures View() == Issue(old(View()), t, g) && cap == old(nextCell) && validity == old(validity)[t := cap]
    {
      cap := nextCell;
      nextCell := nextCell + 1;
      valid := valid + {cap};
      grants := grants[cap := g];
      if t in validity {
        var previous := validity[t];
        validity := validity[t := cap];
        valid := valid - {previous};
      } else {
        validity := validity[t := cap];
      }
      IssueFields(old(View()), t, g);
    }

    method InvalidateTransportValidity(t: Token)
      modifies `validity, `valid
      ensures View() == Revoke(old(View()), {t}) && validity == old(validity) - {t}
    {
      if t in validity {
        var previous := validity[t];
        validity := validity - {t};
        valid := valid - {previous};
        assert valid == Revoke(old(View()), {t}).valid;
      } else {
        RevokeNone(View(), {t});
      }
    }

    // `transport_validity.retain`: every capability of these sessions is revoked.
    method RetainValidity(tokens: set<Token>)
      modifies `validity, `valid
      ensures View() == Revoke(old(View()), tokens)
    {
      var rest := validity.Keys;
      ghost var done := {};
      RevokeNone(View(), {});
      while rest != {}
        invariant rest <= validity.Keys
        invariant done <= tokens && done == (tokens * old(validity.Keys)) - rest
        invariant View() == Revoke(old(View()), done)
        decreases |rest|
      {
        var t :| t in rest;
        if t in tokens {
          RevokeMore(old(View()), done, t);
          done := done + {t};
          InvalidateTransportValidity(t);
        }
        rest := rest - {t};
      }
      RevokeOnlyStored(old(View()), tokens, done);
    }

    method RetainHashes(tokens: set<Token>)
      modifies `hashes
      ensures hashes == map h | h in old(hashes) && old(hashes)[h] !in tokens :: old(hashes)[h]
    {
      var rest := hashes.Keys;
      while rest != {}
        invariant rest <= hashes.Keys <= old(hashes).Keys
        invariant forall h :: h in hashes <==> h in old(hashes) && (h in rest || old(hashes)[h] !in tokens)
        invariant forall h :: h in hashes ==> hashes[h] == old(hashes)[h]
        decreases |rest|
      {
        var h :| h in rest;
        if hashes[h] in tokens {
          hashes := hashes - {h};
        }
        rest := rest - {h};
      }
    }

    method DropBinding(k: HotKey)
      modifies `hot, `valid
      ensures View() == DropHot(old(View()), {k}) && hot == old(hot) - {k}
    {
      if k in hot {
        var previous := hot[k];
        hot := hot - {k};
        valid := valid - {previous.cell};
        assert valid == DropHot(old(View()), {k}).valid;
      } else {
        DropHotNone(View(), {k});
      }
    }

    method InvalidateNmHotForDevice(d: DeviceId)
      modifies `hot, `valid
      ensures View() == DropHot(old(View()), HotOfDevice(old(View()), d))
    {
      hide DropHot;
      var rest := hot.Keys;
      ghost var done := {};
      DropHotNone(View(), {});
      while rest != {}
        invariant rest <= hot.Keys <= old(hot).Keys
        invariant done == HotOfDevice(old(View()), d) - rest
        invariant View() == DropHot(old(View()), done)
        decreases |rest|
      {
        var k :| k in rest;
        if k.device == d {
          DropHotMore(old(View()), done, k);
          done := done + {k};
          DropBinding(k);
        }
        rest := rest - {k};
      }
      assert done == HotOfDevice(old(View()), d);
    }

    method InvalidateNmHotForClient(c: Client)
      modifies `hot, `valid
      ensures View() == DropHot(old(View()), HotOfClient(old(View()), c))
    {
      hide DropHot;
      var rest := hot.Keys;
      ghost var done := {};
      DropHotNone(View(), {});
      while rest != {}
        invariant rest <= hot.Keys <= old(hot).Keys
        invariant done == HotOfClient(old(View()), c) - rest
        invariant View() == DropHot(old(View()), done)
        decreases |rest|
      {
        var k :| k in rest;
        if k.client == c {
          DropHotMore(old(View()), done, k);
          done := done + {k};
          DropBinding(k);
        }
        rest := rest - {k};
      }
      assert done == HotOfClient(old(View()), c);
    }

    method UpdateNonNmCount(was: bool, now: bool)
      modifies `nonNm
      ensures nonNm == old(nonNm) + CountChange(was, now)
    {
      if !was && now {
        nonNm := nonNm + 1;
      } else if was && !now {
        nonNm := nonNm - 1;
      }
    }

    method RefreshNmHotLocked(d: DeviceId, c: Client)
      modifies `hot, `valid, `nextCell, `bindings
      ensures View() == Refresh(old(View()), d, c)
    {
      var active := HasNmSessionForClient(d, c);
      var k := HotKey(c, d);
      DropBinding(k);
      if active && c in sinks && d in devices {
        hot := hot[k := Hot(nextCell, devices[d])];
        valid := valid + {nextCell};
        bindings := bindings[nextCell := k];
        nextCell := nextCell + 1;
      }
    }

    // ------------------------------------------- under the lifecycle mutex

    // The order in which the hash set of devices is visited is returned as ghost.
    method RegisterNmSink(c: Client) returns (ghost order: seq<DeviceId>)
      modifies `sinks, `hot, `valid, `nextCell, `bindings
      ensures Lists(order, DevicesOf(old(View()), c))
      ensures View() == RegisterSink(old(View()), c, order)
    {
      hide Refresh, Lists, RefreshAll;
      ListsNothing();
      RefreshNothing(View().(sinks := sinks + {c}), c);
      sinks := sinks + {c};
      ghost var r1 := View();
      var rest := DevicesOfClient(c);
      ghost var all, done := rest, {};
      order := [];
      while rest != {}
        invariant Lists(order, done) && done + rest == all && done !! rest
        invariant View() == RefreshAll(r1, order, c)
        decreases |rest|
      {
        var d :| d in rest;
        RefreshLast(r1, order, d, c);
        ListsMore(order, done, d);
        RefreshNmHotLocked(d, c);
        order := order + [d];
        rest := rest - {d};
        done := done + {d};
      }
      assert done == all;
    }

    method UnregisterNmSink(c: Client)
      modifies `sinks, `hot, `valid
      ensures View() == UnregisterSink(old(View()), c)
    {
      sinks := sinks - {c};
      InvalidateNmHotForClient(c);
      assert HotOfClient(old(View()).(sinks := sinks), c) == HotOfClient(old(View()), c);
    }

    // Also says which line must be stopped, once the mutex is released.
    method CloseSession(d: DeviceId, t: Token, c: Client) returns (outcome: Outcome, entry: Option<Channel>)
      modifies `devices, `sessions, `hashes, `validity, `hot, `nonNm, `valid, `nextCell, `bindings
      ensures View() == Close(old(View()), d, t, c)
      ensures outcome == CloseOutcome(old(View()), d, t, c)
      ensures entry == if Owned(old(View()), d, t, c) && LastOnDevice(old(View()), t) && d in old(devices)
                       then Some(old(devices)[d]) else None
      ensures outcome == Failed(WrongDevice) <==> t in old(sessions) && old(sessions)[t].device != d
      ensures outcome == Failed(WrongOwner)
        <==> t in old(sessions) && old(sessions)[t].device == d && old(sessions)[t].owner != c
      ensures outcome != Done || t !in old(sessions) || !old(sessions)[t].active ==>
        View() == old(View()) && entry.None?
      ensures outcome == Done && t in old(sessions) && old(sessions)[t].active ==>
        sessions == old(sessions) - {t} && hashes == old(hashes) - {old(sessions)[t].hash} && t !in validity
    {
      hide Refresh, HasNm, LastOnDevice, DropSession;
      entry := None;
      if t !in sessions {
        return Done, entry;
      }
      if sessions[t].device != d {
        return Failed(WrongDevice), entry;
      }
      if sessions[t].owner != c {
        return Failed(WrongOwner), entry;
      }
      if !sessions[t].active {
        return Done, entry;
      }
      entry := CloseOwned(d, t, c);
      outcome := Done;
    }

    // The session goes, and with the last one of its device the entry.
    method CloseOwned(d: DeviceId, t: Token, c: Client) returns (entry: Option<Channel>)
      requires Owned(View(), d, t, c)
      modifies `devices, `sessions, `hashes, `validity, `hot, `nonNm, `valid, `nextCell, `bindings
      ensures View() == Close(old(View()), d, t, c)
      ensures entry == if LastOnDevice(old(View()), t) && d in old(devices) then Some(old(devices)[d]) else None
      ensures sessions == old(sessions) - {t} && hashes == old(hashes) - {old(sessions)[t].hash} && t !in validity
    {
      hide Refresh, HasNm;
      entry := None;
      var session := sessions[t];
      sessions := sessions - {t};
      var others := AnyActiveOn(d);
      OthersLeft(old(View()), t);
      InvalidateTransportValidity(t);
      hashes := hashes - {session.hash};
      UpdateNonNmCount(session.mode != Nm, false);
      assert View() == DropSession(old(View()), t);
      if others {
        RefreshNmHotLocked(d, c);
      } else {
        InvalidateNmHotForDevice(d);
        if d in devices {
          entry := Some(devices[d]);
        }
        devices := devices - {d};
      }
    }

    method SetDataplaneMode(d: DeviceId, t: Token, mode: string, c: Client) returns (outcome: Outcome)
      modifies `sessions, `validity, `hot, `nonNm, `valid, `nextCell, `bindings
      ensures ParseMode(mode).None? ==> outcome == Failed(InvalidMode) && View() == old(View())
      ensures ParseMode(mode).Some? ==>
        && outcome == SetModeOutcome(old(View()), d, t, c)
        && View() == SetMode(old(View()), d, t, ParseMode(mode).value, c)
      ensures outcome == Failed(InvalidMode) <==> mode != "nm" && mode != "ws" && mode != "wt"
      ensures outcome == Failed(NoSession) <==> outcome != Failed(InvalidMode) && t !in old(sessions)
      ensures outcome == Failed(SessionClosed)
        <==> outcome != Failed(InvalidMode) && t in old(sessions) && !old(sessions)[t].active
      ensures outcome == Failed(WrongDevice)
        <==> outcome != Failed(InvalidMode) && t in old(sessions) && old(sessions)[t].active
             && old(sessions)[t].device != d
      ensures outcome == Failed(WrongOwner)
        <==> outcome != Failed(InvalidMode) && t in old(sessions) && old(sessions)[t].active
             && old(sessions)[t].device == d && old(sessions)[t].owner != c
      ensures outcome != Done ==> View() == old(View())
      ensures outcome == Done ==>
        && t in old(sessions) && t !in validity
        && (mode == "nm" ==> sessions == old(sessions)[t := old(sessions)[t].(mode := Nm)])
        && (mode == "ws" ==> sessions == old(sessions)[t := old(sessions)[t].(mode := Ws)])
        && (mode == "wt" ==> sessions == old(sessions)[t := old(sessions)[t].(mode := Wt)])
    {
      if mode != MODE_NM && mode != MODE_WS && mode != MODE_WT {
        return Failed(InvalidMode);
      }
      var plane := ParseMode(mode).value;
      if t !in sessions {
        return Failed(NoSession);
      }
      if !sessions[t].active {
        return Failed(SessionClosed);
      }
      if sessions[t].device != d {
        return Failed(WrongDevice);
      }
      if sessions[t].owner != c {
        return Failed(WrongOwner);
      }
      var was := sessions[t].mode != Nm;
      sessions := sessions[t := sessions[t].(mode := plane)];
      InvalidateTransportValidity(t);
      UpdateNonNmCount(was, plane != Nm);
      assert View() == WithMode(Revoke(old(View()), {t}), t, old(sessions)[t].(mode := plane));
      RefreshNmHotLocked(d, c);
      outcome := Done;
    }

    method WsConnect(d: DeviceId, t: Token) returns (grant: Option<TransportGrant>)
      requires GrantCells(View()) && ValidityCells(View())
      modifies `sessions, `validity, `hot, `nonNm, `valid, `nextCell, `grants, `bindings
      ensures View() == Connect(old(View()), d, t, Ws)
      ensures grant.Some? <==> t in old(sessions) && old(sessions)[t].active && old(sessions)[t].device == d
      ensures grant.None? ==> View() == old(View())
      ensures grant.Some? ==> var next := old(sessions)[t].wsGeneration + 1;
        && sessions == old(sessions)[t := old(sessions)[t].(mode := Ws, wsGeneration := next)]
        && grant.value == TransportGrant(next, old(nextCell)) && validity == old(validity)[t := old(nextCell)]
    {
      hide Refresh, HasNm, DropHot;
      if t !in sessions {
        return None;
      }
      if !sessions[t].active || sessions[t].device != d {
        return None;
      }
      var session := sessions[t];
      var was := session.mode != Nm;
      var next := session.(wsGeneration := session.wsGeneration + 1, mode := Ws);
      ghost var g := GrantFor(View(), d, t, Ws);
      sessions := sessions[t := next];
      var capability := ReplaceTransportValidity(t, g);
      UpdateNonNmCount(was, true);
      assert View() == WithMode(Issue(old(View()), t, g), t, next);
      RefreshNmHotLocked(d, session.owner);
      grant := Some(TransportGrant(next.wsGeneration, capability));
    }

    method WtConnect(d: DeviceId, t: Token) returns (grant: Option<TransportGrant>)
      requires GrantCells(View()) && ValidityCells(View())
      modifies `sessions, `validity, `hot, `nonNm, `valid, `nextCell, `grants, `bindings
      ensures View() == Connect(old(View()), d, t, Wt)
      ensures grant.Some? <==> t in old(sessions) && old(sessions)[t].active && old(sessions)[t].device == d
      ensures grant.None? ==> View() == old(View())
      ensures grant.Some? ==> var next := old(sessions)[t].wtGeneration + 1;
        && sessions == old(sessions)[t := old(sessions)[t].(mode := Wt, wtGeneration := next)]
        && grant.value == TransportGrant(next, old(nextCell)) && validity == old(validity)[t := old(nextCell)]
    {
      hide Refresh, HasNm, DropHot;
      if t !in sessions {
        return None;
      }
      if !sessions[t].active || sessions[t].device != d {
        return None;
      }
      var session := sessions[t];
      var was := session.mode != Nm;
      var next := session.(wtGeneration := session.wtGeneration + 1, mode := Wt);
      ghost var g := GrantFor(View(), d, t, Wt);
      sessions := sessions[t := next];
      var capability := ReplaceTransportValidity(t, g);
      UpdateNonNmCount(was, true);
      assert View() == WithMode(Issue(old(View()), t, g), t, next);
      RefreshNmHotLocked(d, session.owner);
      grant := Some(TransportGrant(next.wtGeneration, capability));
    }

    method WsDisconnect(d: DeviceId, t: Token, generation: nat, capability: Cell)
      modifies `sessions, `validity, `hot, `nonNm, `valid, `nextCell, `bindings
      ensures View() == Disconnect(old(View()), d, t, Ws, generation, capability)
      ensures var x := if t in old(sessions) then Some(old(sessions)[t]) else None;
        if x.Some? && x.value.active && x.value.device == d && x.value.mode == Ws && x.value.wsGeneration == generation
          && t in old(validity) && old(validity)[t] == capability
        then sessions == old(sessions)[t := x.value.(mode := Nm)] && validity == old(validity) - {t}
        else View() == old(View())
    {
      if t !in sessions || !sessions[t].active || sessions[t].device != d {
        return;
      }
      var session := sessions[t];
      var modeCurrent := session.wsGeneration == generation && session.mode == Ws;
      if modeCurrent && t in validity && validity[t] == capability {
        FallBack(d, t, Ws, generation, capability);
      }
    }

    method WtDisconnect(d: DeviceId, t: Token, generation: nat, capability: Cell)
      modifies `sessions, `validity, `hot, `nonNm, `valid, `nextCell, `bindings
      ensures View() == Disconnect(old(View()), d, t, Wt, generation, capability)
      ensures var x := if t in old(sessions) then Some(old(sessions)[t]) else None;
        if x.Some? && x.value.active && x.value.device == d && x.value.mode == Wt && x.value.wtGeneration == generation
          && t in old(validity) && old(validity)[t] == capability
        then sessions == old(sessions)[t := x.value.(mode := Nm)] && validity == old(validity) - {t}
        else View() == old(View())
    {
      if t !in sessions || !sessions[t].active || sessions[t].device != d {
        return;
      }
      var session := sessions[t];
      var modeCurrent := session.wtGeneration == generation && session.mode == Wt;
      if modeCurrent && t in validity && validity[t] == capability {
        FallBack(d, t, Wt, generation, capability);
      }
    }

    // The common end of both disconnects: back to NM, capability gone.
    method FallBack(d: DeviceId, t: Token, ghost kind: Mode, ghost generation: nat, ghost capability: Cell)
      requires kind != Nm && DisconnectCurrent(View(), d, t, kind, generation, capability)
      modifies `sessions, `validity, `hot, `nonNm, `valid, `nextCell, `bindings
      ensures View() == Disconnect(old(View()), d, t, kind, generation, capability)
    {
      var session := sessions[t];
      sessions := sessions[t := session.(mode := Nm)];
      InvalidateTransportValidity(t);
      UpdateNonNmCount(true, false);
      assert View() == WithMode(Revoke(old(View()), {t}), t, session.(mode := Nm));
      RefreshNmHotLocked(d, session.owner);
    }

    // Everything about the device goes; the caller still owes the counter the
    // returned number and has to cancel the returned sessions.
    method DetachLocked(d: DeviceId) returns (entry: Option<Channel>, cancels: set<Token>, count: nat)
      modifies `devices, `sessions, `hashes, `validity, `hot, `valid
      ensures View() == Detach(old(View()), d)
      ensures cancels == OnDevice(old(sessions), d)
      ensures count == |NonNm(old(sessions)) * OnDevice(old(sessions), d)|
      ensures entry == if d in old(devices) then Some(old(devices)[d]) else None
      ensures devices == old(devices) - {d} && sessions.Keys !! cancels
      ensures forall t :: t in old(sessions) && old(sessions)[t].device != d ==>
        t in sessions && sessions[t] == old(sessions)[t]
    {
      cancels, count := SessionsOn(d);
      sessions := sessions - cancels;
      RetainHashes(cancels);
      RetainValidity(cancels);
      InvalidateNmHotForDevice(d);
      entry := if d in devices then Some(devices[d]) else None;
      devices := devices - {d};
      assert HotOfDevice(old(View()), d) == HotOfDevice(Revoke(old(View()), cancels), d);
    }

    // A dying reader does nothing when its device has no entry any more, and takes
    // down whichever lifetime the device has otherwise.
    method DetachDeadReaderLifetime(d: DeviceId)
      returns (entry: Option<Channel>, cancels: set<Token>, count: nat)
      modifies `devices, `sessions, `hashes, `validity, `hot, `valid
      ensures d !in old(devices) ==> View() == old(View()) && entry.None? && count == 0 && cancels == {}
      ensures d in old(devices) ==>
        && View() == Detach(old(View()), d) && entry == Some(old(devices)[d])
        && cancels == OnDevice(old(sessions), d)
        && count == |NonNm(old(sessions)) * OnDevice(old(sessions), d)|
    {
      if d !in devices {
        return None, {}, 0;
      }
      entry, cancels, count := DetachLocked(d);
    }

    // Hotplug removal: a first open in flight is invalidated as well, and everyone who
    // waits for its reservation is woken.
    method ForceCloseLocked(d: DeviceId)
      returns (entry: Option<Channel>, cancels: set<Token>, count: nat, woken: Option<nat>)
      modifies `devices, `sessions, `hashes, `validity, `hot, `valid, `invalidated
      ensures View() == Detach(old(View()), d)
      ensures cancels == OnDevice(old(sessions), d)
      ensures count == |NonNm(old(sessions)) * OnDevice(old(sessions), d)|
      ensures entry == if d in old(devices) then Some(old(devices)[d]) else None
      ensures woken == if d in opening then Some(opening[d]) else None
      ensures invalidated == old(invalidated) + (if woken.Some? then {woken.value} else {})
    {
      woken := None;
      if d in opening {
        invalidated := invalidated + {opening[d]};
        woken := Some(opening[d]);
      }
      entry, cancels, count := DetachLocked(d);
    }

    // ------------------------------------------------------------- opening

    // Registers a session if the device has an entry; tokens are fresh.
    method RegisterSessionLocked(d: DeviceId, t: Token, c: Client) returns (registered: bool)
      modifies `sessions, `hashes, `used
      ensures registered == (d in devices)
      ensures !registered ==> View() == old(View())
      ensures registered ==> Refresh(View(), d, c) == Register(old(View()), d, t, c)
      ensures registered ==>
        sessions == old(sessions)[t := Session(d, c, Nm, AuthHash(t), true, 0, 0)]
        && hashes == old(hashes)[AuthHash(t) := t]
    {
      if d !in devices {
        return false;
      }
      sessions := sessions[t := Session(d, c, Nm, AuthHash(t), true, 0, 0)];
      hashes := hashes[AuthHash(t) := t];
      used := used + {t};
      registered := true;
    }

    // One pass of the loop in `open`.
    method TryOpen(d: DeviceId, t: Token, c: Client) returns (attempt: Attempt)
      modifies `sessions, `hashes, `used, `hot, `valid, `nextCell, `bindings, `opening, `lifetimes
      ensures attempt.Joined? <==> d in old(devices)
      ensures attempt.Joined? ==> View() == Register(old(View()), d, t, c)
      ensures !attempt.Joined? ==> View() == old(View())
      ensures attempt.Wait? ==> d in old(opening) && attempt.reservation == old(opening)[d]
      ensures attempt.First? ==>
        && d !in old(opening) && attempt.reservation > old(lifetimes) && lifetimes == attempt.reservation
        && opening == old(opening)[d := attempt.reservation]
      ensures !attempt.First? ==> opening == old(opening) && lifetimes == old(lifetimes)
    {
      var registered := RegisterSessionLocked(d, t, c);
      if registered {
        RefreshNmHotLocked(d, c);
        return Joined;
      }
      if d in opening {
        return Wait(opening[d]);
      }
      lifetimes := lifetimes + 1;
      opening := opening[d := lifetimes];
      attempt := First(lifetimes);
    }

    // What an opener does after its notification: `None` asks for another pass.
    method AfterWait(d: DeviceId, t: Token, c: Client) returns (result: Option<bool>)
      modifies `sessions, `hashes, `used, `hot, `valid, `nextCell, `bindings
      ensures d in old(devices) ==> result == Some(true) && View() == Register(old(View()), d, t, c)
      ensures d !in old(devices) ==> View() == old(View()) && result == if d in opening then None else Some(false)
    {
      var registered := RegisterSessionLocked(d, t, c);
      if registered {
        RefreshNmHotLocked(d, c);
        return Some(true);
      }
      result := if d in opening then None else Some(false);
    }

    // The last section of `open_physical`: the new entry goes in only while the
    // reservation is current.
    method PublishEntry(d: DeviceId, reservation: nat, t: Token, c: Client, ch: Channel)
      returns (publication: Publication)
      modifies `devices, `sessions, `hashes, `used, `hot, `valid, `nextCell, `bindings
      ensures publication.Invalidated?
        <==> reservation in invalidated || d !in opening || opening[d] != reservation
      ensures publication.Invalidated? ==> View() == old(View())
      ensures publication.Unused? ==> d in old(devices) && View() == Register(old(View()), d, t, c)
      ensures publication.Installed? ==> d !in old(devices) && View() == Install(old(View()), d, ch, t, c)
    {
      if reservation in invalidated || d !in opening || opening[d] != reservation {
        return Invalidated;
      }
      var registered := RegisterSessionLocked(d, t, c);
      if registered {
        RefreshNmHotLocked(d, c);
        return Unused;
      }
      devices := devices[d := ch];
      registered := RegisterSessionLocked(d, t, c);
      RefreshNmHotLocked(d, c);
      publication := Installed;
    }

    // Gives the reservation up; the result says whether waiters must be notified.
    method FinishOpen(d: DeviceId, reservation: nat) returns (notify: bool)
      modifies `opening
      ensures notify <==> d in old(opening) && old(opening)[d] == reservation
      ensures opening == if notify then old(opening) - {d} else old(opening)
    {
      notify := d in opening && opening[d] == reservation;
      if notify {
        opening := opening - {d};
      }
    }

    // ------------------------------------------------------ a whole client

    // A client that disconnects loses all its sessions and nobody else loses any.
    method CloseAllForClient(c: Client)
      requires forall t :: t in sessions ==> sessions[t].active
      modifies `devices, `sessions, `hashes, `validity, `hot, `nonNm, `valid, `nextCell, `bindings
      ensures forall t :: t in sessions <==> t in old(sessions) && old(sessions)[t].owner != c
      ensures forall t :: t in sessions ==> sessions[t] == old(sessions)[t]
    {
      var owned := set t | t in sessions && sessions[t].owner == c && sessions[t].active;
      while owned != {}
        invariant owned <= old(sessions).Keys && forall t :: t in owned ==> old(sessions)[t].owner == c
        invariant forall t :: t in sessions <==> t in old(sessions) && (old(sessions)[t].owner != c || t in owned)
        invariant forall t :: t in sessions ==> sessions[t] == old(sessions)[t]
        decreases |owned|
      {
        var t :| t in owned;
        ghost var r := View();
        CloseRemoves(r, sessions[t].device, t, c);
        var outcome, entry := CloseSession(sessions[t].device, t, c);
        owned := owned - {t};
      }
    }
  }

  lemma CloseRemoves(r: Registry, d: DeviceId, t: Token, c: Client)
    requires Owned(r, d, t, c)
    ensures Close(r, d, t, c).sessions == r.sessions - {t}
  {
    if !LastOnDevice(r, t) {
      RefreshFrame(DropSession(r, t), d, c);
    }
  }
}
