// What every transition under the lifecycle mutex keeps.
module LifecycleProofs {
  import opened Lifecycle

  // ------------------------------------------------- the four cell operations

  lemma RevokeKeeps(r: Registry, ts: set<Token>)
    requires CellsOk(r)
    ensures CellsOk(Revoke(r, ts)) && Grows(r, Revoke(r, ts))
  {
    var q := Revoke(r, ts);
    forall f | f in r.grants ensures f in q.valid <==> Stored(q, f) {
      assert f in r.valid <==> Stored(r, f);
    }
    assert forall f :: f in r.bindings ==> (f in q.valid <==> f in r.valid);
  }

  lemma AddGrantKeeps(r: Registry, t: Token, g: Grant)
    requires CellsOk(r) && t !in r.validity && g.token == t && t in r.used
    ensures CellsOk(AddGrant(r, t, g)) && Grows(r, AddGrant(r, t, g))
  {
    var q := AddGrant(r, t, g);
    assert r.nextCell !in r.grants && r.nextCell !in r.bindings;
    forall f | f in q.grants ensures f in q.valid <==> Stored(q, f) {
      if f in r.grants {
        assert Stored(q, f) <==> Stored(r, f);
      }
    }
  }

  lemma DropHotKeeps(r: Registry, ks: set<HotKey>)
    requires CellsOk(r)
    ensures CellsOk(DropHot(r, ks)) && Grows(r, DropHot(r, ks))
  {
    var q := DropHot(r, ks);
    forall f | f in r.bindings ensures f in q.valid <==> Bound(q, f) {
      assert f in r.valid <==> Bound(r, f);
    }
    assert forall f :: f in r.grants ==> (f in q.valid <==> f in r.valid);
  }

  lemma AddHotKeeps(r: Registry, k: HotKey, ch: Channel)
    requires CellsOk(r) && k !in r.hot
    ensures CellsOk(AddHot(r, k, ch)) && Grows(r, AddHot(r, k, ch))
  {
    var q := AddHot(r, k, ch);
    assert r.nextCell !in r.grants && r.nextCell !in r.bindings;
    forall f | f in q.bindings ensures f in q.valid <==> Bound(q, f) {
      if f in r.bindings {
        assert Bound(q, f) <==> Bound(r, f);
      }
    }
  }

  lemma GrowsTransitive(r: Registry, q: Registry, z: Registry)
    requires Grows(r, q) && Grows(q, z)
    ensures Grows(r, z)
  {
  }

  // ------------------------------------------------------------- refresh

  // After any change that can only have upset one (client, device) binding,
  // the refresh of that binding restores the NM law.
  lemma RefreshRestores(r: Registry, d: DeviceId, c: Client)
    requires CellsOk(r) && HotOkExcept(r, HotKey(c, d))
    requires HasNm(r.sessions, d, c) ==> d in r.devices
    ensures CellsOk(Refresh(r, d, c)) && HotOk(Refresh(r, d, c)) && Grows(r, Refresh(r, d, c))
  {
    var k := HotKey(c, d);
    var r1 := DropHot(r, {k});
    DropHotKeeps(r, {k});
    if Entitled(r, k) {
      AddHotKeeps(r1, k, r.devices[d]);
      GrowsTransitive(r, r1, Refresh(r, d, c));
    }
    RefreshKeys(r, d, c);
  }

  lemma RefreshKeys(r: Registry, d: DeviceId, c: Client)
    requires HotOkExcept(r, HotKey(c, d))
    requires HasNm(r.sessions, d, c) ==> d in r.devices
    ensures HotOk(Refresh(r, d, c))
  {
    RefreshFrame(r, d, c);
    RefreshBinding(r, d, c);
    var q := Refresh(r, d, c);
    forall k: HotKey ensures k in q.hot <==> Entitled(r, k) {
    }
    assert forall k :: Entitled(q, k) <==> Entitled(r, k);
  }

  lemma RefreshBinding(r: Registry, d: DeviceId, c: Client)
    requires HasNm(r.sessions, d, c) ==> d in r.devices
    ensures var k := HotKey(c, d); var q := Refresh(r, d, c);
      && (k in q.hot <==> Entitled(r, k))
      && (k in q.hot ==> q.hot[k] == Hot(r.nextCell, r.devices[d]))
      && (forall j :: j != k ==> (j in q.hot <==> j in r.hot))
      && (forall j :: j != k && j in r.hot ==> q.hot[j] == r.hot[j])
  {
  }

  lemma RefreshFrame(r: Registry, d: DeviceId, c: Client)
    ensures var q := Refresh(r, d, c);
      && q.sessions == r.sessions && q.devices == r.devices && q.hashes == r.hashes && q.sinks == r.sinks
      && q.validity == r.validity && q.grants == r.grants && q.nonNm == r.nonNm && q.used == r.used
  {
  }

  // The laws that speak of sessions and grants only.
  ghost predicate SessionsOk(r: Registry) {
    DevicesOk(r) && HashesOk(r) && StoredOk(r) && GrantsOk(r)
  }

  lemma SameSessions(r: Registry, q: Registry)
    requires SessionsOk(r)
    requires q.sessions == r.sessions && q.devices == r.devices && q.hashes == r.hashes
    requires q.validity == r.validity && q.grants == r.grants && q.used == r.used
    ensures SessionsOk(q)
  {
    SameLaws(r, q);
  }

  // A change of one session leaves every other binding alone.
  lemma OtherBindings(r: Registry, q: Registry, t: Token, e: HotKey)
    requires HotOk(r)
    requires q.hot == r.hot && q.sinks == r.sinks
    requires forall u :: u != t ==> (u in r.sessions <==> u in q.sessions)
    requires forall u :: u != t && u in r.sessions ==> q.sessions[u] == r.sessions[u]
    requires t in r.sessions ==> HotKey(r.sessions[t].owner, r.sessions[t].device) == e
    requires t in q.sessions ==> HotKey(q.sessions[t].owner, q.sessions[t].device) == e
    requires forall k :: k in r.hot && k != e ==> k.device in q.devices && q.devices[k.device] == r.devices[k.device]
    ensures HotOkExcept(q, e)
  {
    forall k: HotKey | k != e ensures k in q.hot <==> Entitled(q, k) {
      if HasNm(r.sessions, k.device, k.client) {
        var u :| u in r.sessions && IsNmOf(r.sessions[u], k.device, k.client);
        assert IsNmOf(q.sessions[u], k.device, k.client);
      }
      if HasNm(q.sessions, k.device, k.client) {
        var u :| u in q.sessions && IsNmOf(q.sessions[u], k.device, k.client);
        assert IsNmOf(r.sessions[u], k.device, k.client);
      }
      assert k in r.hot <==> Entitled(r, k);
    }
  }

  lemma FinishRefresh(r: Registry, d: DeviceId, c: Client)
    requires SessionsOk(r) && CellsOk(r) && HotOkExcept(r, HotKey(c, d))
    ensures Coherent(Refresh(r, d, c)) && Grows(r, Refresh(r, d, c))
  {
    RefreshRestores(r, d, c);
    RefreshFrame(r, d, c);
    SameSessions(r, Refresh(r, d, c));
  }

  // ------------------------------------------------------------- the counter

  lemma CountUpdate(m: map<Token, Session>, t: Token, s: Session)
    requires t in m
    ensures |NonNm(m[t := s])| == |NonNm(m)| + CountChange(m[t].mode != Nm, s.mode != Nm)
  {
    var rest := NonNm(m) - {t};
    assert NonNm(m) == if m[t].mode != Nm then rest + {t} else rest;
    assert NonNm(m[t := s]) == if s.mode != Nm then rest + {t} else rest;
  }

  lemma CountInsert(m: map<Token, Session>, t: Token, s: Session)
    requires t !in m && s.mode == Nm
    ensures NonNm(m[t := s]) == NonNm(m)
  {
  }

  lemma CountRemove(m: map<Token, Session>, ts: set<Token>)
    ensures |NonNm(m - ts)| == |NonNm(m)| - |NonNm(m) * ts|
  {
    assert NonNm(m - ts) == NonNm(m) - NonNm(m) * ts;
  }

  // ------------------------------------------------- one session changes mode

  lemma ModeChangeKeeps(r: Registry, q: Registry, t: Token, s: Session)
    requires Coherent(r) && t in r.sessions
    requires CellsOk(q) && Grows(r, q)
    requires q.sessions == r.sessions[t := s] && q.devices == r.devices && q.hashes == r.hashes
    requires q.hot == r.hot && q.sinks == r.sinks && r.used == q.used
    requires var o := r.sessions[t];
      s.device == o.device && s.owner == o.owner && s.hash == o.hash && s.active
      && o.wsGeneration <= s.wsGeneration && o.wtGeneration <= s.wtGeneration
    requires forall u :: u != t ==> (u in q.validity <==> u in r.validity)
    requires forall u :: u != t && u in r.validity ==> q.validity[u] == r.validity[u]
    requires t in q.validity ==> StoredFor(q, t)
    requires GrantsOk(q)
    ensures SessionsOk(q) && HotOkExcept(q, HotKey(s.owner, s.device))
  {
    OtherBindings(r, q, t, HotKey(s.owner, s.device));
    ModeChangeDevices(r, q, t, s);
    forall u | u in q.validity ensures StoredFor(q, u) {
      if u != t {
        assert StoredFor(r, u);
      }
    }
  }

  lemma ModeChangeDevices(r: Registry, q: Registry, t: Token, s: Session)
    requires DevicesOk(r) && HashesOk(r) && t in r.sessions
    requires q.sessions == r.sessions[t := s] && q.devices == r.devices && q.hashes == r.hashes && q.used == r.used
    requires s.device == r.sessions[t].device && s.hash == r.sessions[t].hash && s.active
    ensures DevicesOk(q) && HashesOk(q)
  {
    ModeChangeHashes(r, q, t, s);
    hide HashesOk;
    forall d | d in q.devices ensures OnDevice(q.sessions, d) != {} {
      var u :| u in OnDevice(r.sessions, d);
      assert u in OnDevice(q.sessions, d);
    }
  }

  lemma ModeChangeHashes(r: Registry, q: Registry, t: Token, s: Session)
    requires HashesOk(r) && t in r.sessions && q.sessions == r.sessions[t := s] && q.hashes == r.hashes
    requires s.hash == r.sessions[t].hash
    ensures HashesOk(q)
  {
  }

  lemma SetModeKeeps(r: Registry, d: DeviceId, t: Token, mode: Mode, c: Client, owed: int)
    requires Coherent(r) && CountOk(r, owed)
    ensures var q := SetMode(r, d, t, mode, c); Coherent(q) && CountOk(q, owed) && Grows(r, q)
  {
    if Owned(r, d, t, c) {
      LeavePlane(r, t, mode, owed);
      var r2 := WithMode(Revoke(r, {t}), t, r.sessions[t].(mode := mode));
      FinishRefresh(r2, d, c);
      RefreshFrame(r2, d, c);
      GrowsTransitive(r, r2, SetMode(r, d, t, mode, c));
    }
  }

  lemma LeavePlane(r: Registry, t: Token, mode: Mode, owed: int)
    requires Coherent(r) && CountOk(r, owed) && t in r.sessions
    ensures var q := WithMode(Revoke(r, {t}), t, r.sessions[t].(mode := mode));
      && SessionsOk(q) && CellsOk(q) && CountOk(q, owed) && Grows(r, q)
      && HotOkExcept(q, HotKey(r.sessions[t].owner, r.sessions[t].device))
  {
    hide GrantsOk, CellsOk, SessionsOk, Grows, HotOkExcept, StoredFor, HotOk, HashesOk;
    var s := r.sessions[t].(mode := mode);
    var r1 := Revoke(r, {t});
    RevokeKeeps(r, {t});
    WithModeKeeps(r, r1, t, s, owed);
    var q := WithMode(r1, t, s);
    assert t !in q.validity && q.sessions == r.sessions[t := s];
    SameGrants(r, q, t);
    ModeChangeKeeps(r, q, t, s);
  }

  lemma WithModeKeeps(r: Registry, r1: Registry, t: Token, s: Session, owed: int)
    requires CellsOk(r1) && Grows(r, r1) && CountOk(r1, owed) && t in r1.sessions
    ensures var q := WithMode(r1, t, s); CellsOk(q) && Grows(r, q) && CountOk(q, owed)
  {
    SameCells(r1, WithMode(r1, t, s));
    CountUpdate(r1.sessions, t, s);
  }

  lemma SameGrants(r: Registry, q: Registry, t: Token)
    requires GrantsOk(r) && t in r.sessions && t in q.sessions
    requires q.grants == r.grants && q.sessions == r.sessions[t := q.sessions[t]]
    requires q.sessions[t].device == r.sessions[t].device
    requires r.sessions[t].wsGeneration <= q.sessions[t].wsGeneration
    requires r.sessions[t].wtGeneration <= q.sessions[t].wtGeneration
    ensures GrantsOk(q)
  {
    assert forall g :: GrantBelow(r, g) ==> GrantBelow(q, g);
  }

  lemma SameCells(r: Registry, q: Registry)
    requires CellsOk(r)
    requires q.validity == r.validity && q.hot == r.hot && q.valid == r.valid && q.nextCell == r.nextCell
    requires q.grants == r.grants && q.bindings == r.bindings && r.used <= q.used
    ensures CellsOk(q) && Grows(r, q)
  {
    assert forall f :: f in r.grants ==> Stored(r, f) == Stored(q, f);
    assert forall f :: f in r.bindings ==> Bound(r, f) == Bound(q, f);
  }

  lemma DisconnectKeeps(r: Registry, d: DeviceId, t: Token, kind: Mode, generation: nat, cap: Cell, owed: int)
    requires Coherent(r) && CountOk(r, owed)
    ensures var q := Disconnect(r, d, t, kind, generation, cap); Coherent(q) && CountOk(q, owed) && Grows(r, q)
  {
    if DisconnectCurrent(r, d, t, kind, generation, cap) {
      LeavePlane(r, t, Nm, owed);
      var r2 := WithMode(Revoke(r, {t}), t, r.sessions[t].(mode := Nm));
      FinishRefresh(r2, d, r.sessions[t].owner);
      RefreshFrame(r2, d, r.sessions[t].owner);
      GrowsTransitive(r, r2, Disconnect(r, d, t, kind, generation, cap));
    }
  }

  lemma ConnectKeeps(r: Registry, d: DeviceId, t: Token, kind: Mode, owed: int)
    requires Coherent(r) && CountOk(r, owed) && kind != Nm
    ensures var q := Connect(r, d, t, kind); Coherent(q) && CountOk(q, owed) && Grows(r, q)
  {
    if CanConnect(r, d, t) {
      var s := r.sessions[t];
      EnterPlane(r, d, t, kind, owed);
      var r2 := WithMode(Issue(r, t, GrantFor(r, d, t, kind)), t, Bump(s, kind));
      FinishRefresh(r2, d, s.owner);
      RefreshFrame(r2, d, s.owner);
      GrowsTransitive(r, r2, Connect(r, d, t, kind));
    }
  }

  lemma EnterPlane(r: Registry, d: DeviceId, t: Token, kind: Mode, owed: int)
    requires Coherent(r) && CountOk(r, owed) && kind != Nm && CanConnect(r, d, t)
    ensures var q := WithMode(Issue(r, t, GrantFor(r, d, t, kind)), t, Bump(r.sessions[t], kind));
      && SessionsOk(q) && CellsOk(q) && CountOk(q, owed) && Grows(r, q)
      && HotOkExcept(q, HotKey(r.sessions[t].owner, d))
  {
    var s := Bump(r.sessions[t], kind);
    var g := GrantFor(r, d, t, kind);
    var r1 := Issue(r, t, g);
    IssueKeeps(r, t, g);
    WithModeKeeps(r, r1, t, s, owed);
    NewGrant(r, WithMode(r1, t, s), t, g);
    ModeChangeKeeps(r, WithMode(r1, t, s), t, s);
  }

  lemma IssueKeeps(r: Registry, t: Token, g: Grant)
    requires CellsOk(r) && g.token == t && t in r.used
    ensures CellsOk(Issue(r, t, g)) && Grows(r, Issue(r, t, g))
  {
    RevokeKeeps(r, {t});
    AddGrantKeeps(Revoke(r, {t}), t, g);
  }

  lemma NewGrant(r: Registry, q: Registry, t: Token, g: Grant)
    requires GrantsOk(r) && t in r.sessions && t in q.sessions && r.nextCell !in r.grants
    requires q.grants == r.grants[r.nextCell := g]
    requires g.token == t && g.kind != Nm && g.device == r.sessions[t].device == q.sessions[t].device
    requires r.sessions[t].Generation(g.kind) < g.generation <= q.sessions[t].Generation(g.kind)
    requires r.sessions[t].wsGeneration <= q.sessions[t].wsGeneration
    requires r.sessions[t].wtGeneration <= q.sessions[t].wtGeneration
    requires q.sessions == r.sessions[t := q.sessions[t]]
    ensures GrantsOk(q)
  {
    assert forall f :: f in r.grants ==> GrantBelow(r, r.grants[f]);
    assert forall f :: f in r.grants ==> r.grants[f] != g;
  }

  // ------------------------------------------------- sessions come and go

  // Grants of sessions that are gone stay harmless because tokens are fresh.
  lemma RemoveSessions(r: Registry, q: Registry, ts: set<Token>)
    requires HashesOk(r) && StoredOk(r) && GrantsOk(r)
    requires q.sessions == r.sessions - ts && q.validity == r.validity - ts && q.grants == r.grants
    requires forall h :: h in q.hashes <==> h in r.hashes && h.token !in ts
    requires forall h :: h in q.hashes ==> q.hashes[h] == h.token
    ensures HashesOk(q) && StoredOk(q) && GrantsOk(q)
  {
    assert forall t :: t in q.validity && StoredFor(r, t) ==> StoredFor(q, t);
    assert forall g :: GrantBelow(r, g) ==> GrantBelow(q, g);
  }

  lemma DropSessionKeeps(r: Registry, t: Token, owed: int)
    requires Coherent(r) && CountOk(r, owed) && t in r.sessions
    ensures var q := DropSession(r, t);
      && CellsOk(q) && Grows(r, q) && CountOk(q, owed)
      && HashesOk(q) && StoredOk(q) && GrantsOk(q)
  {
    hide CellsOk, Grows, HotOk;
    var q := DropSession(r, t);
    RevokeKeeps(r, {t});
    SameCells(Revoke(r, {t}), q);
    GrowsTransitive(r, Revoke(r, {t}), q);
    CountRemove(r.sessions, {t});
    assert NonNm(r.sessions) * {t} == if r.sessions[t].mode != Nm then {t} else {};
    RemoveSessions(r, q, {t});
  }

  lemma CloseKeeps(r: Registry, d: DeviceId, t: Token, c: Client, owed: int)
    requires Coherent(r) && CountOk(r, owed)
    ensures var q := Close(r, d, t, c); Coherent(q) && CountOk(q, owed) && Grows(r, q)
  {
    if Owned(r, d, t, c) {
      if LastOnDevice(r, t) {
        CloseLast(r, d, t, owed);
      } else {
        CloseShared(r, d, t, c, owed);
      }
    }
  }

  lemma CloseLast(r: Registry, d: DeviceId, t: Token, owed: int)
    requires Coherent(r) && CountOk(r, owed) && t in r.sessions && r.sessions[t].device == d && LastOnDevice(r, t)
    ensures var r1 := DropSession(r, t);
      var q := DropHot(r1, HotOfDevice(r1, d)).(devices := r.devices - {d});
      Coherent(q) && CountOk(q, owed) && Grows(r, q)
  {
    hide CellsOk, Grows, HashesOk, GrantsOk, StoredOk, HotOk, CountOk;
    CloseLastCells(r, d, t, owed);
    var r1 := DropSession(r, t);
    var q := DropHot(r1, HotOfDevice(r1, d)).(devices := r.devices - {d});
    LastIsOnly(r, t);
    DeviceGone(r, q, {t}, d);
  }

  lemma LastIsOnly(r: Registry, t: Token)
    requires DevicesOk(r) && t in r.sessions && LastOnDevice(r, t)
    ensures OnDevice(r.sessions, r.sessions[t].device) == {t}
  {
  }

  lemma SameLaws(r: Registry, q: Registry)
    requires HashesOk(r) && StoredOk(r) && GrantsOk(r)
    requires q.sessions == r.sessions && q.hashes == r.hashes && q.validity == r.validity && q.grants == r.grants
    ensures HashesOk(q) && StoredOk(q) && GrantsOk(q)
  {
    assert forall t :: t in r.validity && StoredFor(r, t) ==> StoredFor(q, t);
    assert forall g :: GrantBelow(r, g) ==> GrantBelow(q, g);
  }

  lemma CloseLastCells(r: Registry, d: DeviceId, t: Token, owed: int)
    requires Coherent(r) && CountOk(r, owed) && t in r.sessions
    ensures var r1 := DropSession(r, t);
      var q := DropHot(r1, HotOfDevice(r1, d)).(devices := r.devices - {d});
      CellsOk(q) && Grows(r, q) && CountOk(q, owed) && HashesOk(q) && StoredOk(q) && GrantsOk(q)
  {
    var r1 := DropSession(r, t);
    DropSessionKeeps(r, t, owed);
    var r2 := DropHot(r1, HotOfDevice(r1, d));
    DropHotKeeps(r1, HotOfDevice(r1, d));
    GrowsTransitive(r, r1, r2);
    SameCells(r2, r2.(devices := r.devices - {d}));
    SameLaws(r1, r2.(devices := r.devices - {d}));
  }

  lemma CloseShared(r: Registry, d: DeviceId, t: Token, c: Client, owed: int)
    requires Coherent(r) && CountOk(r, owed) && Owned(r, d, t, c) && !LastOnDevice(r, t)
    ensures var q := Refresh(DropSession(r, t), d, c); Coherent(q) && CountOk(q, owed) && Grows(r, q)
  {
    var r1 := DropSession(r, t);
    DropSessionKeeps(r, t, owed);
    CloseSharedReady(r, d, t, c);
    FinishRefresh(r1, d, c);
    RefreshFrame(r1, d, c);
    GrowsTransitive(r, r1, Refresh(r1, d, c));
  }

  lemma CloseSharedReady(r: Registry, d: DeviceId, t: Token, c: Client)
    requires DevicesOk(r) && HotOk(r) && Owned(r, d, t, c) && !LastOnDevice(r, t)
    ensures DevicesOk(DropSession(r, t)) && HotOkExcept(DropSession(r, t), HotKey(c, d))
  {
    SharedDevice(r, DropSession(r, t), t);
    OtherBindings(r, DropSession(r, t), t, HotKey(c, d));
  }

  lemma SharedDevice(r: Registry, q: Registry, t: Token)
    requires DevicesOk(r) && t in r.sessions && !LastOnDevice(r, t)
    requires q.sessions == r.sessions - {t} && q.devices == r.devices && q.used == r.used
    ensures DevicesOk(q)
  {
    forall d | d in q.devices ensures OnDevice(q.sessions, d) != {} {
      if d == r.sessions[t].device {
        var u :| u in r.sessions && u != t && r.sessions[u].device == d && r.sessions[u].active;
        assert u in OnDevice(q.sessions, d);
      } else {
        var u :| u in OnDevice(r.sessions, d);
        assert u in OnDevice(q.sessions, d);
      }
    }
  }

  // The whole device goes: its sessions, its bindings, its entry.
  lemma DeviceGone(r: Registry, q: Registry, ts: set<Token>, d: DeviceId)
    requires Coherent(r) && ts == OnDevice(r.sessions, d)
    requires q.sessions == r.sessions - ts && q.devices == r.devices - {d} && q.used == r.used
    requires q.hot == r.hot - HotOfDevice(r, d) && q.sinks == r.sinks
    requires HashesOk(q) && StoredOk(q) && GrantsOk(q) && CellsOk(q)
    ensures Coherent(q)
  {
    GoneDevices(r, q, d);
    GoneBindings(r, q, d);
  }

  lemma GoneDevices(r: Registry, q: Registry, d: DeviceId)
    requires DevicesOk(r) && q.used == r.used
    requires q.sessions == r.sessions - OnDevice(r.sessions, d) && q.devices == r.devices - {d}
    ensures DevicesOk(q)
  {
    forall e | e in q.devices ensures OnDevice(q.sessions, e) != {} {
      var u :| u in OnDevice(r.sessions, e);
      assert u in OnDevice(q.sessions, e);
    }
  }

  lemma GoneBindings(r: Registry, q: Registry, d: DeviceId)
    requires HotOk(r)
    requires q.sessions == r.sessions - OnDevice(r.sessions, d) && q.devices == r.devices - {d}
    requires q.hot == r.hot - HotOfDevice(r, d) && q.sinks == r.sinks
    ensures HotOk(q)
  {
    forall k: HotKey ensures k in q.hot <==> Entitled(q, k) {
      if HasNm(r.sessions, k.device, k.client) && k.device != d {
        var u :| u in r.sessions && IsNmOf(r.sessions[u], k.device, k.client);
        assert IsNmOf(q.sessions[u], k.device, k.client);
      }
      assert k in r.hot <==> Entitled(r, k);
    }
  }

  // The counter is now too high by the sessions that were not in NM mode.
  lemma DetachKeeps(r: Registry, d: DeviceId, owed: int)
    requires Coherent(r) && CountOk(r, owed)
    ensures var q := Detach(r, d);
      && Coherent(q) && Grows(r, q)
      && CountOk(q, owed + |NonNm(r.sessions) * OnDevice(r.sessions, d)|)
  {
    var ts := OnDevice(r.sessions, d);
    var r1 := Revoke(r, ts);
    RevokeKeeps(r, ts);
    var r2 := DropHot(r1, HotOfDevice(r1, d));
    DropHotKeeps(r1, HotOfDevice(r1, d));
    GrowsTransitive(r, r1, r2);
    var q := Detach(r, d);
    SameCells(r2, q);
    GrowsTransitive(r, r2, q);
    CountRemove(r.sessions, ts);
    DetachSessions(r, d);
    DeviceGone(r, q, ts, d);
  }

  lemma DetachSessions(r: Registry, d: DeviceId)
    requires HashesOk(r) && StoredOk(r) && GrantsOk(r)
    ensures var q := Detach(r, d); HashesOk(q) && StoredOk(q) && GrantsOk(q)
  {
    RemoveSessions(r, Detach(r, d), OnDevice(r.sessions, d));
  }

  lemma RegisterKeeps(r: Registry, d: DeviceId, t: Token, c: Client, owed: int)
    requires Coherent(r) && CountOk(r, owed) && t !in r.used && d in r.devices
    ensures var q := Register(r, d, t, c); Coherent(q) && CountOk(q, owed) && Grows(r, q)
  {
    NewSessionKeeps(r, r.devices, d, t, c, owed);
  }

  // A new physical entry and its first session appear together.
  lemma InstallKeeps(r: Registry, d: DeviceId, ch: Channel, t: Token, c: Client, owed: int)
    requires Coherent(r) && CountOk(r, owed) && t !in r.used && d !in r.devices
    ensures var q := Install(r, d, ch, t, c); Coherent(q) && CountOk(q, owed) && Grows(r, q)
  {
    NewSessionKeeps(r, r.devices[d := ch], d, t, c, owed);
  }

  function Admitted(r: Registry, devices: map<DeviceId, Channel>, d: DeviceId, t: Token, c: Client): Registry {
    r.(devices := devices,
       sessions := r.sessions[t := NewSession(d, t, c)],
       hashes := r.hashes[AuthHash(t) := t],
       used := r.used + {t})
  }

  lemma NewSessionKeeps(r: Registry, devices: map<DeviceId, Channel>, d: DeviceId, t: Token, c: Client, owed: int)
    requires Coherent(r) && CountOk(r, owed) && t !in r.used
    requires d in devices && devices == r.devices[d := devices[d]]
    requires d in r.devices ==> devices == r.devices
    ensures var q := Register(r.(devices := devices), d, t, c); Coherent(q) && CountOk(q, owed) && Grows(r, q)
  {
    var q := Admitted(r, devices, d, t, c);
    AdmittedSessions(r, devices, d, t, c);
    AdmittedCells(r, devices, d, t, c, owed);
    FinishRefresh(q, d, c);
    RefreshFrame(q, d, c);
    GrowsTransitive(r, q, Refresh(q, d, c));
  }

  lemma AdmittedCells(r: Registry, devices: map<DeviceId, Channel>, d: DeviceId, t: Token, c: Client, owed: int)
    requires CellsOk(r) && HotOk(r) && CountOk(r, owed) && t !in r.sessions
    requires d in devices && devices == r.devices[d := devices[d]]
    requires d in r.devices ==> devices == r.devices
    ensures var q := Admitted(r, devices, d, t, c);
      CellsOk(q) && Grows(r, q) && CountOk(q, owed) && HotOkExcept(q, HotKey(c, d))
  {
    var q := Admitted(r, devices, d, t, c);
    SameCells(r, q);
    CountInsert(r.sessions, t, NewSession(d, t, c));
    OtherBindings(r, q, t, HotKey(c, d));
  }

  lemma AdmittedSessions(r: Registry, devices: map<DeviceId, Channel>, d: DeviceId, t: Token, c: Client)
    requires Coherent(r) && t !in r.used
    requires d in devices && devices == r.devices[d := devices[d]]
    ensures SessionsOk(Admitted(r, devices, d, t, c))
  {
    var q := Admitted(r, devices, d, t, c);
    AddSession(r, q, d, t, c);
    NewSessionDevices(r, q, d, t, c);
  }

  lemma NewSessionDevices(r: Registry, q: Registry, d: DeviceId, t: Token, c: Client)
    requires DevicesOk(r)
    requires q.sessions == r.sessions[t := NewSession(d, t, c)] && q.used == r.used + {t}
    requires d in q.devices && q.devices == r.devices[d := q.devices[d]]
    requires t !in r.used
    ensures DevicesOk(q)
  {
    forall e | e in q.devices ensures OnDevice(q.sessions, e) != {} {
      if e == d {
        assert t in OnDevice(q.sessions, d);
      } else {
        var u :| u in OnDevice(r.sessions, e);
        assert u in OnDevice(q.sessions, e);
      }
    }
  }

  lemma AddSession(r: Registry, q: Registry, d: DeviceId, t: Token, c: Client)
    requires HashesOk(r) && StoredOk(r) && GrantsOk(r) && GrantCells(r) && t !in r.used
    requires forall u :: u in r.sessions ==> u in r.used
    requires q.sessions == r.sessions[t := NewSession(d, t, c)] && q.hashes == r.hashes[AuthHash(t) := t]
    requires q.validity == r.validity && q.grants == r.grants
    ensures HashesOk(q) && StoredOk(q) && GrantsOk(q)
  {
    assert forall u :: u in r.validity && StoredFor(r, u) ==> StoredFor(q, u);
    assert forall f :: f in r.grants ==> r.grants[f].token != t;
    assert forall g: Grant :: g.token != t && GrantBelow(r, g) ==> GrantBelow(q, g);
  }

  // -------------------------------------------------------------- NM sinks

  lemma UnregisterSinkKeeps(r: Registry, c: Client, owed: int)
    requires Coherent(r) && CountOk(r, owed)
    ensures var q := UnregisterSink(r, c); Coherent(q) && CountOk(q, owed) && Grows(r, q)
  {
    var r1 := r.(sinks := r.sinks - {c});
    var q := UnregisterSink(r, c);
    SameCells(r, r1);
    DropHotKeeps(r1, HotOfClient(r, c));
    SameSessions(r, q);
    SinkGone(r, q, c);
  }

  lemma SinkGone(r: Registry, q: Registry, c: Client)
    requires HotOk(r)
    requires q.sessions == r.sessions && q.devices == r.devices && q.sinks == r.sinks - {c}
    requires q.hot == r.hot - HotOfClient(r, c)
    ensures HotOk(q)
  {
    forall k: HotKey ensures k in q.hot <==> Entitled(q, k) {
      assert k in r.hot <==> Entitled(r, k);
    }
  }

  // Every binding not in the list is right.
  ghost predicate HotOkOutside(r: Registry, ds: seq<DeviceId>, c: Client) {
    && HotChannels(r)
    && forall k: HotKey :: k.client != c || k.device !in ds ==> (k in r.hot <==> Entitled(r, k))
  }

  // Refreshing every device of the client in any order restores the NM law.
  lemma RefreshAllRestores(r: Registry, ds: seq<DeviceId>, c: Client)
    requires SessionsOk(r) && CellsOk(r) && HotOkOutside(r, ds, c)
    ensures var q := RefreshAll(r, ds, c);
      Coherent(q) && Grows(r, q) && q.sessions == r.sessions && q.nonNm == r.nonNm
    decreases |ds|
  {
    if ds != [] {
      var r1 := Refresh(r, ds[0], c);
      RefreshOne(r, ds[0], c);
      RefreshFrame(r, ds[0], c);
      SameSessions(r, r1);
      RefreshFirst(r, ds, c);
      RefreshAllRestores(r1, ds[1..], c);
      GrowsTransitive(r, r1, RefreshAll(r, ds, c));
    }
  }

  lemma RefreshFirst(r: Registry, ds: seq<DeviceId>, c: Client)
    requires DevicesOk(r) && HotOkOutside(r, ds, c) && ds != []
    ensures HotOkOutside(Refresh(r, ds[0], c), ds[1..], c)
  {
    var r1 := Refresh(r, ds[0], c);
    RefreshFrame(r, ds[0], c);
    RefreshBinding(r, ds[0], c);
    assert forall k :: Entitled(r1, k) <==> Entitled(r, k);
    assert forall d :: d in ds <==> d == ds[0] || d in ds[1..];
  }

  lemma RefreshOne(r: Registry, d: DeviceId, c: Client)
    requires CellsOk(r) && HotChannels(r)
    ensures CellsOk(Refresh(r, d, c)) && HotChannels(Refresh(r, d, c)) && Grows(r, Refresh(r, d, c))
  {
    hide CellsOk, Grows, HasNm;
    var k := HotKey(c, d);
    var r1 := DropHot(r, {k});
    DropHotKeeps(r, {k});
    if HasNm(r.sessions, d, c) && c in r.sinks && d in r.devices {
      AddHotKeeps(r1, k, r.devices[d]);
      GrowsTransitive(r, r1, Refresh(r, d, c));
    }
  }

  lemma RegisterSinkKeeps(r: Registry, c: Client, order: seq<DeviceId>, owed: int)
    requires Coherent(r) && CountOk(r, owed) && Lists(order, DevicesOf(r, c))
    ensures var q := RegisterSink(r, c, order); Coherent(q) && CountOk(q, owed) && Grows(r, q)
  {
    var r1 := r.(sinks := r.sinks + {c});
    SameCells(r, r1);
    SameSessions(r, r1);
    forall k: HotKey | k.client != c || k.device !in order ensures k in r1.hot <==> Entitled(r1, k) {
      assert k in r.hot <==> Entitled(r, k);
      if k.client == c {
        NoSessionNoDevice(r, k.device, c);
      }
    }
    RefreshAllRestores(r1, order, c);
    GrowsTransitive(r, r1, RegisterSink(r, c, order));
  }

  lemma NoSessionNoDevice(r: Registry, d: DeviceId, c: Client)
    ensures HasNm(r.sessions, d, c) ==> d in DevicesOf(r, c)
  {
  }
}
