// Which closes an operation starts and whose ownership it changes, read off the maps.
module OwnershipEffects {
  import opened Common
  import opened Ownership
  import opened OwnershipProofs

  // A close in z that was not there in s, for this session as s has it.
  ghost predicate NewFlight(s: State, z: State, id: CloseId, p: Pair) {
    id in z.flights && id !in s.flights
    && z.flights[id] == Flight(p.device, p.token, OwnerOf(s.sessions, p.device, p.token))
  }

  // A close has been started for each of these and for nothing else.
  ghost predicate StartsFor(s: State, z: State, asked: set<Pair>) {
    && (forall id :: id in s.flights ==> id in z.flights && z.flights[id] == s.flights[id])
    && (forall p :: p in asked ==> exists id :: NewFlight(s, z, id, p))
    && (forall id :: id in z.flights && id !in s.flights ==> exists p :: p in asked && NewFlight(s, z, id, p))
  }

  // The sessions whose owner `chosen` picks.
  function Chosen(s: State, chosen: Owner -> bool): set<Pair> {
    set d, t | d in s.sessions && t in s.sessions[d] && chosen(s.sessions[d][t]) :: Pair(d, t)
  }

  // Every session that `chosen` picks is being closed under its owner, nothing else is
  // that was not before, and no session or orphan changes hands yet.
  ghost predicate ClosesChosen(s: State, z: State, chosen: Owner -> bool) {
    && StartsFor(s, z, Chosen(s, chosen))
    && z.sessions == s.sessions && z.orphans == s.orphans && z.confirmed == s.confirmed && z.cleared == s.cleared
  }

  ghost predicate Numbered(s: State) {
    forall id :: id in s.flights ==> id < s.nextClose
  }

  function Members(order: seq<Pair>): set<Pair> {
    set p | p in order
  }

  lemma {:induction false} StartAllStarts(s: State, order: seq<Pair>)
    requires Numbered(s)
    ensures StartsFor(s, StartAll(s, order), Members(order))
    decreases |order|
  {
    hide StartsFor;
    if order == [] {
      StartNone(s);
    } else {
      StartAllStarts(StartClose(s, order[0].device, order[0].token), order[1..]);
      StartMore(s, order);
    }
  }

  lemma StartNone(s: State)
    ensures StartsFor(s, s, Members([])) && StartAll(s, []) == s
  {
  }

  lemma StartMore(s: State, order: seq<Pair>)
    requires Numbered(s) && order != []
    requires var y := StartClose(s, order[0].device, order[0].token);
      StartsFor(y, StartAll(y, order[1..]), Members(order[1..]))
    ensures StartsFor(s, StartAll(s, order), Members(order))
  {
    hide StartAll, OwnerOf;
    StartFirst(s, order);
    var y := StartClose(s, order[0].device, order[0].token);
    var z := StartAll(y, order[1..]);
    forall p | p in Members(order) ensures exists id :: NewFlight(s, z, id, p) {
      if p == order[0] {
        assert NewFlight(s, z, s.nextClose, p);
      } else {
        assert p in Members(order[1..]);
        var id :| NewFlight(y, z, id, p);
        assert NewFlight(s, z, id, p);
      }
    }
    forall id | id in z.flights && id !in s.flights ensures exists p :: p in Members(order) && NewFlight(s, z, id, p) {
      if id in y.flights {
        assert NewFlight(s, z, id, order[0]);
      } else {
        var p :| p in Members(order[1..]) && NewFlight(y, z, id, p);
        assert NewFlight(s, z, id, p);
      }
    }
  }

  lemma StartFirst(s: State, order: seq<Pair>)
    requires order != []
    ensures StartAll(s, order) == StartAll(StartClose(s, order[0].device, order[0].token), order[1..])
  {
  }

  lemma {:induction false} StartAllFrame(s: State, order: seq<Pair>)
    ensures var z := StartAll(s, order);
      z == s.(flights := z.flights, nextClose := z.nextClose, known := z.known)
    decreases |order|
  {
    if order != [] {
      StartAllFrame(StartClose(s, order[0].device, order[0].token), order[1..]);
    }
  }

  // Only the sessions and the closes in flight matter.
  lemma StartsIn(s: State, x: State, y: State, z: State, asked: set<Pair>)
    requires StartsFor(x, y, asked)
    requires x.sessions == s.sessions && x.flights == s.flights && z.flights == y.flights
    ensures StartsFor(s, z, asked)
  {
    hide OwnerOf;
    assert forall id, p :: NewFlight(s, z, id, p) <==> NewFlight(x, y, id, p);
  }

  // Whatever picks the sessions and however their frames change meanwhile.
  lemma ListedAreClosed(s: State, y: State, z: State, order: seq<Pair>, chosen: Owner -> bool)
    requires Numbered(s) && Lists(order, s.sessions, chosen)
    requires y == s.(frames := y.frames) && z == StartAll(y, order).(frames := z.frames)
    ensures ClosesChosen(s, z, chosen)
  {
    hide StartAll, StartsFor;
    StartAllStarts(y, order);
    StartAllFrame(y, order);
    assert Members(order) == Chosen(s, chosen) by {
      forall p: Pair ensures p in order <==> p in Chosen(s, chosen) {
        assert p == Pair(p.device, p.token);
      }
    }
    StartsIn(s, y, StartAll(y, order), z, Chosen(s, chosen));
  }

  // A closing tab closes each of its sessions and no other, and forgets its frames.
  lemma PurgeTabCloses(s: State, tab: Tab, order: seq<Pair>)
    requires Numbered(s) && Enabled(s, PurgeTab(tab, order))
    ensures var z := Step(s, PurgeTab(tab, order));
      && ClosesChosen(s, z, (x: Owner) => x.tab == tab)
      && tab !in z.frames && forall u :: u != tab ==> FramesOf(z.frames, u) == FramesOf(s.frames, u)
  {
    hide StartAll, StartsFor;
    StartAllFrame(s, order);
    ListedAreClosed(s, s, Step(s, PurgeTab(tab, order)), order, (x: Owner) => x.tab == tab);
  }

  // A frame that goes closes each of its sessions and no other, and its key is retired.
  lemma PurgeFrameCloses(s: State, tab: Tab, frame: FrameKey, order: seq<Pair>)
    requires Numbered(s) && Enabled(s, PurgeFrame(tab, frame, order))
    ensures var z := Step(s, PurgeFrame(tab, frame, order));
      && ClosesChosen(s, z, (x: Owner) => x.tab == tab && x.frame == frame)
      && (forall u, k :: Lifetime(z.frames, u, k)
            == if u == tab && k == frame then Some(0) else Lifetime(s.frames, u, k))
  {
    hide StartAll, StartsFor;
    SetFrameLifetimes(s, tab, frame, 0);
    var y := SetFrame(s, tab, frame, 0);
    StartAllFrame(y, order);
    ListedAreClosed(s, y, StartAll(y, order), order, (x: Owner) => x.tab == tab && x.frame == frame);
  }

  // A bridge that goes closes each of its sessions and no other, and every key it had is
  // retired.
  lemma PurgeBridgeCloses(s: State, tab: Tab, bridge: Bridge, order: seq<Pair>)
    requires Numbered(s) && Enabled(s, PurgeBridge(tab, bridge, order))
    ensures var z := Step(s, PurgeBridge(tab, bridge, order));
      && ClosesChosen(s, z, (x: Owner) => x.tab == tab && x.bridge == Some(bridge))
      && (forall u, k :: Lifetime(z.frames, u, k)
            == if u == tab && k.BridgeKey? && k.bridge == bridge && Lifetime(s.frames, u, k).Some? then Some(0)
               else Lifetime(s.frames, u, k))
  {
    hide StartAll, StartsFor;
    var y := s.(frames := RetireBridge(s.frames, tab, bridge));
    StartAllFrame(y, order);
    ListedAreClosed(s, y, StartAll(y, order), order, (x: Owner) => x.tab == tab && x.bridge == Some(bridge));
  }

  // A retry starts a close for every orphan and nothing else, and counts the attempt.
  lemma RetryAsksForAll(s: State, order: seq<Pair>)
    requires Numbered(s) && Enabled(s, RetryOrphans(order))
    ensures var z := Step(s, RetryOrphans(order));
      && StartsFor(s, z, set t | t in s.orphans :: Pair(s.orphans[t].device, t))
      && z.sessions == s.sessions && z.frames == s.frames && z.orphans.Keys == s.orphans.Keys
      && (forall t :: t in s.orphans ==> z.orphans[t] == Orphan(s.orphans[t].device, s.orphans[t].attempts + 1))
  {
    hide StartAll, StartsFor;
    var y := s.(orphans := CountAttempts(s.orphans));
    var z := StartAll(y, order);
    StartAllStarts(y, order);
    StartAllFrame(y, order);
    var asked := set t | t in s.orphans :: Pair(s.orphans[t].device, t);
    assert Members(order) == asked by {
      forall p: Pair ensures p in order <==> p in asked {
        assert p == Pair(p.device, p.token);
      }
    }
    StartsIn(s, y, z, z, asked);
  }

  // A session is recorded under a new owner record, its frame active, unless its frame is
  // retired; then nothing happens.
  lemma RegisterLands(s: State, d: Device, t: Token, x: Owner)
    ensures var z := SessionRegistered(s, d, t, x);
      if Lifetime(s.frames, x.tab, x.frame) == Some(0) then z == s
      else
        && (forall e, u :: OwnerOf(z.sessions, e, u)
              == if e == d && u == t then Some(x.(serial := s.nextSerial)) else OwnerOf(s.sessions, e, u))
        && (forall u, k :: Lifetime(z.frames, u, k)
              == if u == x.tab && k == x.frame && Lifetime(s.frames, u, k).None? then Some(1)
                 else Lifetime(s.frames, u, k))
        && z == s.(sessions := z.sessions, frames := z.frames, nextSerial := s.nextSerial + 1, known := s.known + {t})
  {
    hide OwnerOf;
    SetFrameLifetimes(s, x.tab, x.frame, 1);
    var live := if IsActive(s, x.tab, x.frame) then s else FrameRegistered(s, x.tab, x.frame);
    SetOwnerOwners(live, d, t, x.(serial := s.nextSerial));
  }

  // What the page closed itself is no longer owned; nobody else's session is touched.
  lemma PageClosedLands(s: State, d: Device, t: Token)
    ensures var z := Step(s, PageClosed(d, t));
      && (forall e, u :: OwnerOf(z.sessions, e, u) == if e == d && u == t then None else OwnerOf(s.sessions, e, u))
      && z == s.(sessions := z.sessions, confirmed := s.confirmed + {t})
  {
    UnregisterOwners(s.sessions, d, t);
  }

  // A close that failed moves its token from the owned to the orphans.
  lemma EnqueueLands(s: State, d: Device, t: Token)
    ensures var z := Step(s, EnqueueOrphan(d, t));
      && (forall e, u :: OwnerOf(z.sessions, e, u) == if e == d && u == t then None else OwnerOf(s.sessions, e, u))
      && t in z.orphans && (t !in s.orphans ==> z.orphans == s.orphans[t := Orphan(d, 0)])
      && (t in s.orphans ==> z.orphans == s.orphans) && z == s.(sessions := z.sessions, orphans := z.orphans)
  {
    UnregisterOwners(s.sessions, d, t);
  }

  // A device that goes takes its sessions and orphans and leaves every other device's.
  lemma ClearDeviceLands(s: State, d: Device)
    ensures var z := Step(s, ClearDevice(d));
      && (forall e, u :: OwnerOf(z.sessions, e, u) == if e == d then None else OwnerOf(s.sessions, e, u))
      && (forall u :: u in z.orphans <==> u in s.orphans && s.orphans[u].device != d)
      && (forall u :: u in z.orphans ==> z.orphans[u] == s.orphans[u])
      && z.frames == s.frames && z.flights == s.flights
  {
  }

  // ------------------------------------------------- what a purge leads to

  // Whatever the tab still owns is being closed under that very owner record.
  ghost predicate Emptying(s: State, tab: Tab) {
    forall d, t :: OwnerOf(s.sessions, d, t).Some? && OwnerOf(s.sessions, d, t).value.tab == tab ==>
      BeingClosed(s, d, t, OwnerOf(s.sessions, d, t).value)
  }

  lemma PurgedIsEmptying(s: State, tab: Tab, order: seq<Pair>)
    requires Inv(s) && Enabled(s, PurgeTab(tab, order))
    ensures Emptying(Step(s, PurgeTab(tab, order)), tab)
  {
    hide StartAll, Tracked, RetiredOk;
    PurgeTabCloses(s, tab, order);
    var z := Step(s, PurgeTab(tab, order));
    forall d, t | OwnerOf(s.sessions, d, t).Some? && OwnerOf(s.sessions, d, t).value.tab == tab
      ensures BeingClosed(z, d, t, OwnerOf(s.sessions, d, t).value)
    {
      assert Pair(d, t) in Chosen(s, (x: Owner) => x.tab == tab);
      var id :| NewFlight(s, z, id, Pair(d, t));
    }
  }

  // Sessions of the tab may go, and the closes in flight may become more.
  lemma StaysEmptying(s: State, z: State, tab: Tab)
    requires Emptying(s, tab)
    requires forall d, t :: OwnerOf(z.sessions, d, t).Some? && OwnerOf(z.sessions, d, t).value.tab == tab ==>
      OwnerOf(z.sessions, d, t) == OwnerOf(s.sessions, d, t)
    requires forall id :: id in s.flights ==> id in z.flights && z.flights[id] == s.flights[id]
    ensures Emptying(z, tab)
  {
    hide OwnerOf;
    forall d, t | OwnerOf(z.sessions, d, t).Some? && OwnerOf(z.sessions, d, t).value.tab == tab
      ensures BeingClosed(z, d, t, OwnerOf(z.sessions, d, t).value)
    {
      var x := OwnerOf(s.sessions, d, t).value;
      var id :| id in s.flights && s.flights[id] == Flight(d, t, Some(x));
      assert z.flights[id] == Flight(d, t, Some(x));
    }
  }

  lemma FinishEmpties(s: State, id: CloseId, confirmed: bool, tab: Tab)
    requires Emptying(s, tab) && id in s.flights
    ensures Emptying(FinishClose(s, id, confirmed), tab)
  {
    hide OwnerOf, Unregister;
    var z := FinishClose(s, id, confirmed);
    FinishSettles(s, id, confirmed);
    forall d, t | OwnerOf(z.sessions, d, t).Some? && OwnerOf(z.sessions, d, t).value.tab == tab
      ensures BeingClosed(z, d, t, OwnerOf(z.sessions, d, t).value)
    {
      var x := OwnerOf(s.sessions, d, t).value;
      var k :| k in s.flights && s.flights[k] == Flight(d, t, Some(x));
      assert k in z.flights && z.flights[k] == Flight(d, t, Some(x));
    }
  }

  predicate Registers(e: Event, tab: Tab) {
    e.RegisterSession? && e.tab == tab
  }

  lemma EmptyingStep(s: State, e: Event, tab: Tab)
    requires Inv(s) && Enabled(s, e) && Emptying(s, tab) && !Registers(e, tab)
    ensures Emptying(Step(s, e), tab)
  {
    hide Tracked, RetiredOk, Emptying, OwnerOf, Unregister, StartAll, FinishClose, SessionRegistered, FrameRegistered;
    match e {
      case RegisterFrame(u, frame) =>
        FrameOnly(s, u, frame);
        StaysEmptying(s, FrameRegistered(s, u, frame), tab);
      case RegisterSession(d, t, u, origin, frame, via, client) =>
        RegisterLands(s, d, t, Owner(0, u, origin, frame, via, client));
        StaysEmptying(s, Step(s, e), tab);
      case Finish(id, confirmed) => FinishEmpties(s, id, confirmed, tab);
      case CloseForCleanup(d, t) => StaysEmptying(s, Step(s, e), tab);
      case PageClosed(d, t) =>
        PageClosedLands(s, d, t);
        StaysEmptying(s, Step(s, e), tab);
      case EnqueueOrphan(d, t) =>
        EnqueueLands(s, d, t);
        StaysEmptying(s, Step(s, e), tab);
      case PurgeFrame(u, frame, order) => StartsEmptying(s, SetFrame(s, u, frame, 0), order, tab);
      case PurgeBridge(u, bridge, order) =>
        StartsEmptying(s, s.(frames := RetireBridge(s.frames, u, bridge)), order, tab);
      case PurgeTab(u, order) =>
        StartsEmptying(s, s, order, tab);
        StaysEmptying(StartAll(s, order), Step(s, e), tab);
      case RetryOrphans(order) => StartsEmptying(s, s.(orphans := CountAttempts(s.orphans)), order, tab);
      case ClearAuthority => NobodyOwns(Step(s, e), tab);
      case ClearDevice(d) =>
        ClearDeviceLands(s, d);
        StaysEmptying(s, Step(s, e), tab);
    }
  }

  lemma FrameOnly(s: State, tab: Tab, frame: FrameKey)
    ensures var z := FrameRegistered(s, tab, frame); z == s.(frames := z.frames)
  {
  }

  lemma NobodyOwns(s: State, tab: Tab)
    requires s.sessions == map[]
    ensures Emptying(s, tab)
  {
  }

  lemma StartsEmptying(s: State, y: State, order: seq<Pair>, tab: Tab)
    requires Inv(s) && Emptying(s, tab)
    requires y.sessions == s.sessions && y.flights == s.flights && y.nextClose == s.nextClose
    ensures Emptying(StartAll(y, order), tab)
  {
    hide Tracked, RetiredOk, OwnerOf, StartAll, Emptying;
    StartAllStarts(y, order);
    StartAllFrame(y, order);
    StaysEmptying(s, StartAll(y, order), tab);
  }

  // A closed tab owns nothing once the closes in flight are answered, whatever happens
  // meanwhile, unless it registers sessions anew.
  lemma {:induction false} EmptyingRun(s: State, es: seq<Event>, tab: Tab)
    requires Inv(s) && IsRun(s, es) && Emptying(s, tab)
    requires forall i :: 0 <= i < |es| ==> !Registers(es[i], tab)
    ensures Emptying(After(s, es), tab)
    decreases |es|
  {
    hide Inv, Step, Emptying;
    if es != [] {
      StepKeeps(s, es[0]);
      EmptyingStep(s, es[0], tab);
      EmptyingRun(Step(s, es[0]), es[1..], tab);
    }
  }

  lemma ClosedTabIsEmptied(s: State, tab: Tab, order: seq<Pair>, es: seq<Event>)
    requires Inv(s) && Enabled(s, PurgeTab(tab, order)) && IsRun(Step(s, PurgeTab(tab, order)), es)
    requires forall i :: 0 <= i < |es| ==> !Registers(es[i], tab)
    ensures var z := After(Step(s, PurgeTab(tab, order)), es);
      forall d, t :: d in z.sessions && t in z.sessions[d] && z.sessions[d][t].tab == tab ==>
        exists id :: id in z.flights && z.flights[id] == Flight(d, t, Some(z.sessions[d][t]))
  {
    hide Inv, Step;
    PurgedIsEmptying(s, tab, order);
    StepKeeps(s, PurgeTab(tab, order));
    EmptyingRun(Step(s, PurgeTab(tab, order)), es, tab);
    var z := After(Step(s, PurgeTab(tab, order)), es);
    forall d, t | d in z.sessions && t in z.sessions[d] && z.sessions[d][t].tab == tab
      ensures BeingClosed(z, d, t, z.sessions[d][t])
    {
      assert OwnerOf(z.sessions, d, t) == Some(z.sessions[d][t]);
    }
  }
}
