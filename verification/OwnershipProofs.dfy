// No daemon session is ever lost by the browser, and a retired frame owns nothing that
// is not being closed.
module OwnershipProofs {
  import opened Common
  import opened Ownership

  ghost predicate InSessions(s: State, t: Token) {
    exists d :: OwnerOf(s.sessions, d, t).Some?
  }

  ghost predicate InFlight(s: State, t: Token) {
    exists id :: id in s.flights && s.flights[id].token == t
  }

  ghost predicate Accounted(s: State, t: Token) {
    InSessions(s, t) || t in s.orphans || InFlight(s, t) || t in s.confirmed || t in s.cleared
  }

  // Every token known is still tracked, or was confirmed closed, or was cleared.
  ghost predicate Tracked(s: State) {
    && (forall t :: t in s.known ==> Accounted(s, t))
    && (forall d, t :: OwnerOf(s.sessions, d, t).Some? ==> t in s.known)
  }

  predicate Consistent(x: Owner) {
    x.frame.BridgeKey? ==> x.bridge == Some(x.frame.bridge)
  }

  ghost predicate BeingClosed(s: State, d: Device, t: Token, x: Owner) {
    exists id :: id in s.flights && s.flights[id] == Flight(d, t, Some(x))
  }

  // A session whose frame is retired is being closed, under its present owner.
  ghost predicate RetiredOk(s: State) {
    forall d, t :: OwnerOf(s.sessions, d, t).Some? ==> SessionOk(s, d, t, OwnerOf(s.sessions, d, t).value)
  }

  ghost predicate SessionOk(s: State, d: Device, t: Token, x: Owner) {
    && x.serial < s.nextSerial && Consistent(x)
    && (IsRetired(s, x.tab, x.frame) ==> BeingClosed(s, d, t, x))
  }

  ghost predicate FlightsOk(s: State) {
    && (forall id :: id in s.flights ==> id < s.nextClose)
    && (forall id :: id in s.flights && s.flights[id].ownerAtStart.Some? ==>
          s.flights[id].ownerAtStart.value.serial < s.nextSerial)
  }

  ghost predicate Inv(s: State) {
    Tracked(s) && RetiredOk(s) && FlightsOk(s)
  }

  lemma InitialOk()
    ensures Inv(INITIAL)
  {
  }

  // ------------------------------------------------------------ small steps

  lemma UnregisterOwners(sessions: map<Device, map<Token, Owner>>, d: Device, t: Token)
    ensures forall e, u ::
      OwnerOf(Unregister(sessions, d, t), e, u) == if e == d && u == t then None else OwnerOf(sessions, e, u)
  {
    if d in sessions {
      var left := sessions[d] - {t};
      assert forall u :: u in left <==> u in sessions[d] && u != t;
    }
  }

  lemma SetOwnerOwners(s: State, d: Device, t: Token, x: Owner)
    ensures forall e, u ::
      OwnerOf(SetOwner(s, d, t, x).sessions, e, u) == if e == d && u == t then Some(x) else OwnerOf(s.sessions, e, u)
  {
  }

  lemma SetFrameLifetimes(s: State, tab: Tab, frame: FrameKey, n: nat)
    ensures forall u, k ::
      Lifetime(SetFrame(s, tab, frame, n).frames, u, k)
      == if u == tab && k == frame then Some(n) else Lifetime(s.frames, u, k)
  {
  }

  lemma StartCloseKeeps(s: State, d: Device, t: Token)
    requires Inv(s)
    ensures var z := StartClose(s, d, t);
      && Inv(z) && z.sessions == s.sessions && z.frames == s.frames && z.orphans == s.orphans
      && (OwnerOf(s.sessions, d, t).Some? ==> BeingClosed(z, d, t, OwnerOf(s.sessions, d, t).value))
      && (forall id :: id in s.flights ==> id in z.flights && z.flights[id] == s.flights[id])
  {
    var z := StartClose(s, d, t);
    assert s.nextClose !in s.flights;
    assert z.flights[s.nextClose].token == t;
    MoreFlights(s, z);
  }

  // More closes in flight lose nothing.
  lemma MoreFlights(s: State, z: State)
    requires Tracked(s) && RetiredOk(s)
    requires z == s.(flights := z.flights, nextClose := z.nextClose, known := z.known) && s.known <= z.known
    requires forall id :: id in s.flights ==> id in z.flights && z.flights[id] == s.flights[id]
    requires forall t :: t in z.known && t !in s.known ==> InFlight(z, t)
    ensures Tracked(z) && RetiredOk(z)
  {
    forall t | t in z.known ensures Accounted(z, t) {
      if t in s.known {
        assert Accounted(s, t);
        if InFlight(s, t) {
          var id :| id in s.flights && s.flights[id].token == t;
          assert z.flights[id].token == t;
        }
      }
    }
    forall d, t | OwnerOf(z.sessions, d, t).Some? ensures SessionOk(z, d, t, OwnerOf(z.sessions, d, t).value) {
      var x := OwnerOf(s.sessions, d, t).value;
      assert SessionOk(s, d, t, x);
      if BeingClosed(s, d, t, x) {
        var id :| id in s.flights && s.flights[id] == Flight(d, t, Some(x));
        assert z.flights[id] == Flight(d, t, Some(x));
      }
    }
  }

  lemma {:induction false} StartAllKeeps(s: State, order: seq<Pair>)
    requires Inv(s)
    ensures var z := StartAll(s, order);
      && Inv(z) && z.sessions == s.sessions && z.frames == s.frames && z.orphans == s.orphans
      && (forall id :: id in s.flights ==> id in z.flights && z.flights[id] == s.flights[id])
      && (forall p :: p in order && OwnerOf(s.sessions, p.device, p.token).Some? ==>
            BeingClosed(z, p.device, p.token, OwnerOf(s.sessions, p.device, p.token).value))
    decreases |order|
  {
    hide Inv, StartClose;
    if order != [] {
      var p := order[0];
      var y := StartClose(s, p.device, p.token);
      StartCloseKeeps(s, p.device, p.token);
      StartAllKeeps(y, order[1..]);
      var z := StartAll(s, order);
      if OwnerOf(s.sessions, p.device, p.token).Some? {
        var x := OwnerOf(s.sessions, p.device, p.token).value;
        var id :| id in y.flights && y.flights[id] == Flight(p.device, p.token, Some(x));
        assert z.flights[id] == Flight(p.device, p.token, Some(x));
      }
    }
  }

  // ------------------------------------------------------------- each event

  // Frames change, but no key in use by a session becomes retired.
  lemma FramesChange(s: State, z: State)
    requires Inv(s) && z == s.(frames := z.frames)
    requires forall d, t :: OwnerOf(s.sessions, d, t).Some? ==>
      || SessionOk(z, d, t, OwnerOf(s.sessions, d, t).value)
      || !IsRetired(z, OwnerOf(s.sessions, d, t).value.tab, OwnerOf(s.sessions, d, t).value.frame)
    ensures Inv(z)
  {
    forall t | t in z.known ensures Accounted(z, t) {
      assert Accounted(s, t);
      SameAccount(s, z, t);
    }
    forall d, t | OwnerOf(z.sessions, d, t).Some? ensures SessionOk(z, d, t, OwnerOf(z.sessions, d, t).value) {
      assert SessionOk(s, d, t, OwnerOf(s.sessions, d, t).value);
    }
  }

  // Accounting only looks at sessions, orphans, flights and the two final sets.
  lemma SameAccount(s: State, z: State, t: Token)
    requires Accounted(s, t) && z.sessions == s.sessions && z.orphans.Keys == s.orphans.Keys && z.flights == s.flights
    requires s.confirmed <= z.confirmed && s.cleared <= z.cleared
    ensures Accounted(z, t)
  {
    assert t in z.orphans <==> t in s.orphans.Keys;
    if InSessions(s, t) {
      var d :| OwnerOf(s.sessions, d, t).Some?;
      assert OwnerOf(z.sessions, d, t).Some?;
    }
    if InFlight(s, t) {
      var id :| id in s.flights && s.flights[id].token == t;
      assert z.flights[id].token == t;
    }
  }

  lemma RegisterFrameKeeps(s: State, tab: Tab, frame: FrameKey)
    requires Inv(s)
    ensures Inv(FrameRegistered(s, tab, frame))
  {
    var z := FrameRegistered(s, tab, frame);
    SetFrameLifetimes(s, tab, frame, Lifetime(s.frames, tab, frame).GetOr(0) + 1);
    forall d, t | OwnerOf(s.sessions, d, t).Some?
      ensures var x := OwnerOf(s.sessions, d, t).value; SessionOk(z, d, t, x) || !IsRetired(z, x.tab, x.frame)
    {
      var x := OwnerOf(s.sessions, d, t).value;
      assert SessionOk(s, d, t, x);
      SameFlights(s, z, d, t, x);
    }
    FramesChange(s, z);
  }

  lemma SameFlights(s: State, z: State, d: Device, t: Token, x: Owner)
    requires z.flights == s.flights
    ensures BeingClosed(z, d, t, x) == BeingClosed(s, d, t, x)
  {
  }

  lemma RegisterSessionKeeps(s: State, d: Device, t: Token, x: Owner)
    requires Inv(s) && Consistent(x)
    ensures Inv(SessionRegistered(s, d, t, x))
  {
    if !IsRetired(s, x.tab, x.frame) {
      var live := if IsActive(s, x.tab, x.frame) then s else FrameRegistered(s, x.tab, x.frame);
      RegisterFrameKeeps(s, x.tab, x.frame);
      SetFrameLifetimes(s, x.tab, x.frame, Lifetime(s.frames, x.tab, x.frame).GetOr(0) + 1);
      var y := x.(serial := s.nextSerial);
      SetOwnerOwners(live, d, t, y);
      NewOwnerKeeps(live, SessionRegistered(s, d, t, x), d, t, y);
    }
  }

  lemma NewOwnerKeeps(s: State, z: State, d: Device, t: Token, y: Owner)
    requires Inv(s) && Consistent(y) && !IsRetired(s, y.tab, y.frame) && y.serial == s.nextSerial
    requires z == s.(sessions := z.sessions, nextSerial := s.nextSerial + 1, known := s.known + {t})
    requires forall e, u :: OwnerOf(z.sessions, e, u) == if e == d && u == t then Some(y) else OwnerOf(s.sessions, e, u)
    ensures Inv(z)
  {
    assert OwnerOf(z.sessions, d, t).Some?;
    forall u | u in z.known ensures Accounted(z, u) {
      if u != t {
        assert Accounted(s, u);
        if InSessions(s, u) {
          var e :| OwnerOf(s.sessions, e, u).Some?;
          assert OwnerOf(z.sessions, e, u).Some?;
        }
        if InFlight(s, u) {
          var id :| id in s.flights && s.flights[id].token == u;
          assert z.flights[id].token == u;
        }
      }
    }
    forall e, u | OwnerOf(z.sessions, e, u).Some? ensures SessionOk(z, e, u, OwnerOf(z.sessions, e, u).value) {
      var x := OwnerOf(z.sessions, e, u).value;
      if !(e == d && u == t) {
        assert SessionOk(s, e, u, x);
        SameFlights(s, z, e, u, x);
      }
    }
  }

  lemma FinishKeeps(s: State, id: CloseId, confirmed: bool)
    requires Inv(s) && id in s.flights
    ensures Inv(FinishClose(s, id, confirmed))
  {
    var f := s.flights[id];
    var z := FinishClose(s, id, confirmed);
    UnregisterOwners(s.sessions, f.device, f.token);
    assert forall e, u ::
      OwnerOf(z.sessions, e, u)
      == if StillOwned(s, f) && e == f.device && u == f.token then None else OwnerOf(s.sessions, e, u);
    forall u | u in z.known ensures Accounted(z, u) {
      FinishAccounts(s, z, id, u);
    }
    forall e, u | OwnerOf(z.sessions, e, u).Some? ensures SessionOk(z, e, u, OwnerOf(z.sessions, e, u).value) {
      FinishSession(s, z, id, e, u);
    }
  }

  lemma FinishAccounts(s: State, z: State, id: CloseId, u: Token)
    requires Tracked(s) && id in s.flights && u in s.known
    requires var f := s.flights[id];
      && (forall e, v :: OwnerOf(z.sessions, e, v)
            == if StillOwned(s, f) && e == f.device && v == f.token then None else OwnerOf(s.sessions, e, v))
      && z.flights == s.flights - {id} && s.cleared <= z.cleared && s.confirmed <= z.confirmed
      && (f.token in z.orphans || f.token in z.confirmed)
      && (forall v :: v in s.orphans && v != f.token ==> v in z.orphans)
    ensures Accounted(z, u)
  {
    var f := s.flights[id];
    if u != f.token {
      assert Accounted(s, u);
      if InSessions(s, u) {
        var e :| OwnerOf(s.sessions, e, u).Some?;
        assert OwnerOf(z.sessions, e, u).Some?;
      }
      if InFlight(s, u) {
        var i :| i in s.flights && s.flights[i].token == u;
        assert i in z.flights && z.flights[i].token == u;
      }
    }
  }

  lemma FinishSession(s: State, z: State, id: CloseId, e: Device, u: Token)
    requires RetiredOk(s) && id in s.flights && z.flights == s.flights - {id} && z.frames == s.frames
    requires z.nextSerial == s.nextSerial
    requires var f := s.flights[id];
      OwnerOf(z.sessions, e, u)
        == if StillOwned(s, f) && e == f.device && u == f.token then None else OwnerOf(s.sessions, e, u)
    requires OwnerOf(z.sessions, e, u).Some?
    ensures SessionOk(z, e, u, OwnerOf(z.sessions, e, u).value)
  {
    var x := OwnerOf(s.sessions, e, u).value;
    assert SessionOk(s, e, u, x);
    if BeingClosed(s, e, u, x) {
      var i :| i in s.flights && s.flights[i] == Flight(e, u, Some(x));
      assert i != id;
      assert i in z.flights && z.flights[i] == Flight(e, u, Some(x));
    }
  }

  // A session goes, and its token is accounted for otherwise.
  lemma RemovalKeeps(s: State, z: State)
    requires Inv(s)
    requires z == s.(sessions := z.sessions, orphans := z.orphans, confirmed := z.confirmed, cleared := z.cleared)
    requires s.confirmed <= z.confirmed && s.cleared <= z.cleared
    requires forall e, u :: OwnerOf(z.sessions, e, u) == OwnerOf(s.sessions, e, u) || OwnerOf(z.sessions, e, u) == None
    requires forall e, u :: OwnerOf(s.sessions, e, u).Some? && OwnerOf(z.sessions, e, u).None? ==>
      u in z.orphans || u in z.confirmed || u in z.cleared
    requires forall u :: u in s.orphans ==> u in z.orphans || u in z.confirmed || u in z.cleared
    ensures Inv(z)
  {
    forall u | u in z.known ensures Accounted(z, u) {
      assert Accounted(s, u);
      if InSessions(s, u) {
        var e :| OwnerOf(s.sessions, e, u).Some?;
        assert OwnerOf(z.sessions, e, u).Some? || OwnerOf(z.sessions, e, u).None?;
      }
      if InFlight(s, u) {
        var i :| i in s.flights && s.flights[i].token == u;
        assert z.flights[i].token == u;
      }
    }
    forall e, u | OwnerOf(z.sessions, e, u).Some? ensures SessionOk(z, e, u, OwnerOf(z.sessions, e, u).value) {
      var x := OwnerOf(s.sessions, e, u).value;
      assert SessionOk(s, e, u, x);
      SameFlights(s, z, e, u, x);
    }
  }

  lemma PageClosedKeeps(s: State, d: Device, t: Token)
    requires Inv(s)
    ensures Inv(Step(s, PageClosed(d, t)))
  {
    UnregisterOwners(s.sessions, d, t);
    RemovalKeeps(s, Step(s, PageClosed(d, t)));
  }

  lemma EnqueueKeeps(s: State, d: Device, t: Token)
    requires Inv(s)
    ensures Inv(Step(s, EnqueueOrphan(d, t)))
  {
    UnregisterOwners(s.sessions, d, t);
    RemovalKeeps(s, Step(s, EnqueueOrphan(d, t)));
  }

  lemma ClearDeviceKeeps(s: State, d: Device)
    requires Inv(s)
    ensures Inv(Step(s, ClearDevice(d)))
  {
    var z := Step(s, ClearDevice(d));
    forall e, u ensures OwnerOf(z.sessions, e, u) == if e == d then None else OwnerOf(s.sessions, e, u) {
    }
    RemovalKeeps(s, z);
  }

  lemma ClearAuthorityKeeps(s: State)
    requires Inv(s)
    ensures Inv(Step(s, ClearAuthority))
  {
    var y := s.(sessions := map[], orphans := map[], cleared := s.cleared + AllTokens(s.sessions) + s.orphans.Keys);
    RemovalKeeps(s, y);
    FramesChange(y, Step(s, ClearAuthority));
  }

  lemma RetryKeeps(s: State, order: seq<Pair>)
    requires Inv(s)
    ensures Inv(Step(s, RetryOrphans(order)))
  {
    var y := s.(orphans := CountAttempts(s.orphans));
    RemovalKeeps(s, y);
    StartAllKeeps(y, order);
  }

  lemma PurgeTabKeeps(s: State, tab: Tab, order: seq<Pair>)
    requires Inv(s)
    ensures Inv(Step(s, PurgeTab(tab, order)))
  {
    StartAllKeeps(s, order);
    var y := StartAll(s, order);
    var z := y.(frames := s.frames - {tab});
    forall d, t | OwnerOf(y.sessions, d, t).Some?
      ensures var x := OwnerOf(y.sessions, d, t).value; SessionOk(z, d, t, x) || !IsRetired(z, x.tab, x.frame)
    {
      var x := OwnerOf(y.sessions, d, t).value;
      assert SessionOk(y, d, t, x);
      SameFlights(y, z, d, t, x);
    }
    FramesChange(y, z);
  }

  // Closes first, then the keys retire: in either order the same state results.
  lemma StartAllFrames(s: State, frames: map<Tab, map<FrameKey, nat>>, order: seq<Pair>)
    ensures StartAll(s.(frames := frames), order) == StartAll(s, order).(frames := frames)
    decreases |order|
  {
    if order != [] {
      StartAllFrames(StartClose(s, order[0].device, order[0].token), frames, order[1..]);
    }
  }

  // Some keys retire, and every session of theirs is being closed.
  lemma RetireKeeps(s: State, frames: map<Tab, map<FrameKey, nat>>, order: seq<Pair>)
    requires Inv(s)
    requires forall d, t :: OwnerOf(s.sessions, d, t).Some? ==>
      Pair(d, t) in order || RetiredBefore(s, frames, OwnerOf(s.sessions, d, t).value)
    ensures Inv(StartAll(s.(frames := frames), order))
  {
    StartAllKeeps(s, order);
    StartAllFrames(s, frames, order);
    var y := StartAll(s, order);
    var z := y.(frames := frames);
    forall d, t | OwnerOf(y.sessions, d, t).Some?
      ensures var x := OwnerOf(y.sessions, d, t).value; SessionOk(z, d, t, x) || !IsRetired(z, x.tab, x.frame)
    {
      var x := OwnerOf(y.sessions, d, t).value;
      assert SessionOk(y, d, t, x);
      SameFlights(y, z, d, t, x);
      if Pair(d, t) in order {
        var p := Pair(d, t);
        assert p in order && OwnerOf(s.sessions, p.device, p.token).Some?;
      }
    }
    FramesChange(y, z);
  }

  // The key was retired already, or is not retired now either.
  predicate RetiredBefore(s: State, frames: map<Tab, map<FrameKey, nat>>, x: Owner) {
    Lifetime(frames, x.tab, x.frame) == Some(0) ==> IsRetired(s, x.tab, x.frame)
  }

  lemma PurgeFrameKeeps(s: State, tab: Tab, frame: FrameKey, order: seq<Pair>)
    requires Inv(s) && Lists(order, s.sessions, x => OfFrame(x, tab, frame))
    ensures Inv(Step(s, PurgeFrame(tab, frame, order)))
  {
    SetFrameLifetimes(s, tab, frame, 0);
    RetireKeeps(s, SetFrame(s, tab, frame, 0).frames, order);
  }

  lemma PurgeBridgeKeeps(s: State, tab: Tab, bridge: Bridge, order: seq<Pair>)
    requires Inv(s) && Lists(order, s.sessions, x => OfBridge(x, tab, bridge))
    ensures Inv(Step(s, PurgeBridge(tab, bridge, order)))
  {
    var frames := RetireBridge(s.frames, tab, bridge);
    forall d, t | OwnerOf(s.sessions, d, t).Some?
      ensures Pair(d, t) in order || RetiredBefore(s, frames, OwnerOf(s.sessions, d, t).value)
    {
      assert SessionOk(s, d, t, OwnerOf(s.sessions, d, t).value);
    }
    RetireKeeps(s, frames, order);
  }

  lemma StepKeeps(s: State, e: Event)
    requires Inv(s) && Enabled(s, e)
    ensures Inv(Step(s, e))
  {
    hide Inv, StartAll, FinishClose;
    match e {
      case RegisterFrame(tab, frame) => RegisterFrameKeeps(s, tab, frame);
      case RegisterSession(d, t, tab, origin, frame, bridge, client) =>
        RegisterSessionKeeps(s, d, t, Owner(0, tab, origin, frame, bridge, client));
      case CloseForCleanup(d, t) => StartCloseKeeps(s, d, t);
      case Finish(id, confirmed) => FinishKeeps(s, id, confirmed);
      case PageClosed(d, t) => PageClosedKeeps(s, d, t);
      case PurgeFrame(tab, frame, order) => PurgeFrameKeeps(s, tab, frame, order);
      case PurgeBridge(tab, bridge, order) => PurgeBridgeKeeps(s, tab, bridge, order);
      case PurgeTab(tab, order) => PurgeTabKeeps(s, tab, order);
      case RetryOrphans(order) => RetryKeeps(s, order);
      case EnqueueOrphan(d, t) => EnqueueKeeps(s, d, t);
      case ClearAuthority => ClearAuthorityKeeps(s);
      case ClearDevice(d) => ClearDeviceKeeps(s, d);
    }
  }

  // ------------------------------------------------------------- main laws

  lemma {:induction false} RunKeeps(s: State, es: seq<Event>)
    requires Inv(s) && IsRun(s, es)
    ensures Inv(After(s, es))
    decreases |es|
  {
    hide Inv;
    if es != [] {
      StepKeeps(s, es[0]);
      RunKeeps(Step(s, es[0]), es[1..]);
    }
  }

  // A token once registered or handed to a close is owned, queued for another try or
  // being closed, until the daemon confirms or its device or authority is cleared.
  lemma NoTokenIsLost(es: seq<Event>, t: Token)
    requires IsRun(INITIAL, es) && t in After(INITIAL, es).known
    ensures var s := After(INITIAL, es);
      || (exists d :: OwnerOf(s.sessions, d, t).Some?) || t in s.orphans
      || (exists id :: id in s.flights && s.flights[id].token == t)
      || t in s.confirmed || t in s.cleared
  {
    InitialOk();
    RunKeeps(INITIAL, es);
    assert Accounted(After(INITIAL, es), t);
  }

  // Whatever a retired frame still owns is being closed under that very owner record.
  lemma RetiredFramesAreClosing(es: seq<Event>, d: Device, t: Token)
    requires IsRun(INITIAL, es) && OwnerOf(After(INITIAL, es).sessions, d, t).Some?
    requires var s := After(INITIAL, es); var x := OwnerOf(s.sessions, d, t).value; IsRetired(s, x.tab, x.frame)
    ensures var s := After(INITIAL, es);
      exists id :: id in s.flights && s.flights[id] == Flight(d, t, OwnerOf(s.sessions, d, t))
  {
    InitialOk();
    RunKeeps(INITIAL, es);
    var s := After(INITIAL, es);
    var x := OwnerOf(s.sessions, d, t).value;
    assert SessionOk(s, d, t, x);
    var id :| id in s.flights && s.flights[id] == Flight(d, t, Some(x));
  }

  predicate EndsTab(e: Event, tab: Tab) {
    e.ClearAuthority? || (e.PurgeTab? && e.tab == tab)
  }

  lemma {:induction false} StartAllFrame(s: State, order: seq<Pair>)
    ensures StartAll(s, order).frames == s.frames
    decreases |order|
  {
    if order != [] {
      StartAllFrame(StartClose(s, order[0].device, order[0].token), order[1..]);
    }
  }

  lemma RetiredStaysStep(s: State, e: Event, tab: Tab, frame: FrameKey)
    requires Enabled(s, e) && IsRetired(s, tab, frame) && !EndsTab(e, tab)
    ensures IsRetired(Step(s, e), tab, frame)
  {
    hide StartAll;
    match e {
      case PurgeFrame(u, k, order) => StartAllFrame(SetFrame(s, u, k, 0), order);
      case PurgeBridge(u, b, order) => StartAllFrame(s.(frames := RetireBridge(s.frames, u, b)), order);
      case PurgeTab(u, order) => StartAllFrame(s, order);
      case RetryOrphans(order) => StartAllFrame(s.(orphans := CountAttempts(s.orphans)), order);
      case _ =>
    }
  }

  // A retired frame key never becomes active again while its tab lives.
  lemma {:induction false} RetiredForever(s: State, es: seq<Event>, tab: Tab, frame: FrameKey)
    requires IsRun(s, es) && IsRetired(s, tab, frame)
    requires forall i :: 0 <= i < |es| ==> !EndsTab(es[i], tab)
    ensures IsRetired(After(s, es), tab, frame)
    decreases |es|
  {
    hide IsRetired;
    if es != [] {
      RetiredStaysStep(s, es[0], tab, frame);
      RetiredForever(Step(s, es[0]), es[1..], tab, frame);
    }
  }

  // What the answer to a close settles: a confirmed token is gone from the queue, any
  // other is in it; ownership goes only if it is still the one the close began under;
  // nothing else changes hands.
  lemma FinishSettles(s: State, id: CloseId, confirmed: bool)
    requires id in s.flights
    ensures var f := s.flights[id]; var z := FinishClose(s, id, confirmed);
      && id !in z.flights && (f.token in z.orphans <==> !confirmed) && (confirmed ==> f.token in z.confirmed)
      && (forall e, u :: OwnerOf(z.sessions, e, u)
            == if e == f.device && u == f.token && StillOwned(s, f) then None else OwnerOf(s.sessions, e, u))
      && (forall u :: u != f.token ==> (u in z.orphans <==> u in s.orphans))
      && (forall u :: u in s.orphans && u in z.orphans ==> z.orphans[u] == s.orphans[u])
  {
    hide OwnerOf, Unregister;
    UnregisterOwners(s.sessions, s.flights[id].device, s.flights[id].token);
  }

  // z comes after s: an owner is the one of s or was registered since, and a close
  // that had begun in s is either answered or still the same close.
  ghost predicate Later(s: State, z: State) {
    && s.nextSerial <= z.nextSerial && s.nextClose <= z.nextClose
    && (forall d, t :: OwnerOf(z.sessions, d, t).Some? ==>
          OwnerOf(z.sessions, d, t) == OwnerOf(s.sessions, d, t)
          || s.nextSerial <= OwnerOf(z.sessions, d, t).value.serial)
    && (forall id :: id in z.flights && id < s.nextClose ==> id in s.flights && z.flights[id] == s.flights[id])
  }

  lemma LaterTransitive(s: State, y: State, z: State)
    requires Later(s, y) && Later(y, z)
    ensures Later(s, z)
  {
    hide OwnerOf;
  }

  lemma {:induction false} StartAllIsLater(s: State, order: seq<Pair>)
    ensures Later(s, StartAll(s, order))
    decreases |order|
  {
    if order != [] {
      var y := StartClose(s, order[0].device, order[0].token);
      StartAllIsLater(y, order[1..]);
      LaterTransitive(s, y, StartAll(s, order));
    }
  }

  // Frames, orphans and the final sets do not matter.
  lemma LaterFrame(s: State, y: State, z: State)
    requires Later(s, y)
    requires z.sessions == y.sessions && z.flights == y.flights
    requires z.nextSerial == y.nextSerial && z.nextClose == y.nextClose
    ensures Later(s, z)
  {
    hide OwnerOf;
  }

  lemma StepIsLater(s: State, e: Event)
    requires Enabled(s, e)
    ensures Later(s, Step(s, e))
  {
    hide StartAll, Unregister, Later, Retain, StillOwned, SessionRegistered, FrameRegistered;
    match e {
      case RegisterFrame(tab, frame) => FrameIsLater(s, tab, frame);
      case RegisterSession(d, t, tab, origin, frame, via, client) =>
        RegistrationIsLater(s, d, t, Owner(0, tab, origin, frame, via, client));
      case CloseForCleanup(d, t) => StartIsLater(s, d, t);
      case Finish(id, confirmed) => FinishIsLater(s, id, confirmed);
      case PageClosed(d, t) => UnregisterIsLater(s, Step(s, e), d, t);
      case EnqueueOrphan(d, t) => EnqueueIsLater(s, d, t);
      case PurgeFrame(tab, frame, order) => StartsAreLater(s, SetFrame(s, tab, frame, 0), order);
      case PurgeBridge(tab, bridge, order) =>
        StartsAreLater(s, s.(frames := RetireBridge(s.frames, tab, bridge)), order);
      case PurgeTab(tab, order) =>
        StartAllIsLater(s, order);
        LaterFrame(s, StartAll(s, order), Step(s, e));
      case RetryOrphans(order) => StartsAreLater(s, s.(orphans := CountAttempts(s.orphans)), order);
      case ClearAuthority => FewerIsLater(s, Step(s, e));
      case ClearDevice(d) => FewerIsLater(s, Step(s, e));
    }
  }

  lemma FewerIsLater(s: State, z: State)
    requires forall d, t :: OwnerOf(z.sessions, d, t) == OwnerOf(s.sessions, d, t) || OwnerOf(z.sessions, d, t).None?
    requires z.flights == s.flights && z.nextSerial == s.nextSerial && z.nextClose == s.nextClose
    ensures Later(s, z)
  {
    hide OwnerOf;
  }

  lemma UnregisterIsLater(s: State, z: State, d: Device, t: Token)
    requires z.sessions == Unregister(s.sessions, d, t)
    requires z.flights == s.flights && z.nextSerial == s.nextSerial && z.nextClose == s.nextClose
    ensures Later(s, z)
  {
    UnregisterOwners(s.sessions, d, t);
    FewerIsLater(s, z);
  }

  lemma EnqueueIsLater(s: State, d: Device, t: Token)
    ensures Later(s, Step(s, EnqueueOrphan(d, t)))
  {
    UnregisterIsLater(s, Step(s, EnqueueOrphan(d, t)), d, t);
  }

  lemma FrameIsLater(s: State, tab: Tab, frame: FrameKey)
    ensures Later(s, FrameRegistered(s, tab, frame))
  {
  }

  lemma StartIsLater(s: State, d: Device, t: Token)
    ensures Later(s, StartClose(s, d, t))
  {
  }

  lemma StartsAreLater(s: State, y: State, order: seq<Pair>)
    requires y.sessions == s.sessions && y.flights == s.flights
    requires y.nextSerial == s.nextSerial && y.nextClose == s.nextClose
    ensures Later(s, StartAll(y, order))
  {
    hide OwnerOf;
    StartAllIsLater(y, order);
  }

  lemma FinishIsLater(s: State, id: CloseId, confirmed: bool)
    requires id in s.flights
    ensures Later(s, FinishClose(s, id, confirmed))
  {
    hide OwnerOf, Unregister, StillOwned;
    UnregisterOwners(s.sessions, s.flights[id].device, s.flights[id].token);
  }

  lemma RegistrationIsLater(s: State, d: Device, t: Token, x: Owner)
    ensures Later(s, SessionRegistered(s, d, t, x))
  {
    hide OwnerOf;
    if !IsRetired(s, x.tab, x.frame) {
      var live := if IsActive(s, x.tab, x.frame) then s else FrameRegistered(s, x.tab, x.frame);
      SetOwnerOwners(live, d, t, x.(serial := s.nextSerial));
    }
  }

  lemma {:induction false} RunIsLater(s: State, es: seq<Event>)
    requires IsRun(s, es)
    ensures Later(s, After(s, es))
    decreases |es|
  {
    hide Later, Step;
    if es == [] {
      StartAllIsLater(s, []);
    } else {
      StepIsLater(s, es[0]);
      RunIsLater(Step(s, es[0]), es[1..]);
      LaterTransitive(s, Step(s, es[0]), After(s, es));
    }
  }

  // However late the answer to a close comes and whatever happens in between, it never
  // takes away a session that was registered after the close began.
  lemma LateCloseSparesNewOwner(s: State, es: seq<Event>, id: CloseId, d: Device, t: Token, confirmed: bool)
    requires Inv(s) && IsRun(s, es) && id in s.flights && id in After(s, es).flights
    requires OwnerOf(After(s, es).sessions, d, t) != OwnerOf(s.sessions, d, t)
    ensures var z := After(s, es);
      OwnerOf(FinishClose(z, id, confirmed).sessions, d, t) == OwnerOf(z.sessions, d, t)
  {
    hide OwnerOf, Unregister, Tracked, RetiredOk;
    var z := After(s, es);
    RunIsLater(s, es);
    assert z.flights[id] == s.flights[id];
    FinishSettles(z, id, confirmed);
  }
}
