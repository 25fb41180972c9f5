// The background page's nested maps as its operations change them.  Each is proved to
// make the step of the same name.
module OwnershipState {
  import opened Common
  import opened Ownership
  import opened OwnershipEffects
  import opened OwnershipProofs

  lemma {:induction false} StartLast(s: State, order: seq<Pair>, p: Pair)
    ensures StartAll(s, order + [p]) == StartClose(StartAll(s, order), p.device, p.token)
    decreases |order|
  {
    hide StartClose;
    if order == [] {
      assert (order + [p])[1..] == [];
    } else {
      assert (order + [p])[1..] == order[1..] + [p];
      StartLast(StartClose(s, order[0].device, order[0].token), order[1..], p);
    }
  }

  class BackgroundState {
    var deviceSessions: map<Device, map<Token, Owner>>
    var orphanCleanup: map<Token, Orphan>
    var frameLifetimes: map<Tab, map<FrameKey, nat>>
    var flights: map<CloseId, Flight>
    var nextClose: CloseId
    var nextSerial: nat
    ghost var known: set<Token>
    ghost var confirmed: set<Token>
    ghost var cleared: set<Token>

    ghost function View(): State
      reads this
    {
      State(deviceSessions, orphanCleanup, frameLifetimes, flights, nextClose, nextSerial, known, confirmed, cleared)
    }

    constructor ()
      ensures View() == INITIAL
    {
      deviceSessions, orphanCleanup, frameLifetimes, flights := map[], map[], map[], map[];
      nextClose, nextSerial, known, confirmed, cleared := 0, 0, {}, {}, {};
    }

    // -------------------------------------------------------------- frames

    method RegisterFrameLifetime(tab: Tab, frame: FrameKey) returns (ok: bool)
      modifies `frameLifetimes
      ensures View() == FrameRegistered(old(View()), tab, frame)
      ensures ok <==> !IsRetired(old(View()), tab, frame)
    {
      var frames := if tab in frameLifetimes then frameLifetimes[tab] else map[];
      if frame in frames && frames[frame] == 0 {
        return false;
      }
      frames := frames[frame := (if frame in frames then frames[frame] else 0) + 1];
      frameLifetimes := frameLifetimes[tab := frames];
      ok := true;
    }

    method IsFrameLifetimeActive(tab: Tab, frame: FrameKey) returns (active: bool)
      ensures active <==> IsActive(View(), tab, frame)
    {
      active := tab in frameLifetimes && frame in frameLifetimes[tab] && frameLifetimes[tab][frame] > 0;
    }

    method RetireFrameLifetime(tab: Tab, frame: FrameKey)
      modifies `frameLifetimes
      ensures View() == SetFrame(old(View()), tab, frame, 0)
    {
      var frames := if tab in frameLifetimes then frameLifetimes[tab] else map[];
      frameLifetimes := frameLifetimes[tab := frames[frame := 0]];
    }

    // ------------------------------------------------------------ sessions

    method RegisterDeviceSession(d: Device, t: Token, x: Owner) returns (ok: bool)
      modifies this
      ensures View() == SessionRegistered(old(View()), d, t, x)
      ensures ok <==> !IsRetired(old(View()), x.tab, x.frame)
      ensures !ok ==> View() == old(View())
      ensures ok ==>
        d in deviceSessions && t in deviceSessions[d] && deviceSessions[d][t] == x.(serial := old(nextSerial))
      ensures forall e, u :: e != d || u != t ==> OwnerOf(deviceSessions, e, u) == OwnerOf(old(deviceSessions), e, u)
    {
      var active := IsFrameLifetimeActive(x.tab, x.frame);
      if !active {
        ok := RegisterFrameLifetime(x.tab, x.frame);
        if !ok {
          return;
        }
      }
      var byToken := if d in deviceSessions then deviceSessions[d] else map[];
      deviceSessions := deviceSessions[d := byToken[t := x.(serial := nextSerial)]];
      nextSerial := nextSerial + 1;
      known := known + {t};
      ok := true;
    }

    method UnregisterDeviceSession(d: Device, t: Token)
      modifies `deviceSessions
      ensures deviceSessions == Unregister(old(deviceSessions), d, t)
    {
      if d !in deviceSessions {
        return;
      }
      var byToken := deviceSessions[d] - {t};
      deviceSessions := if byToken == map[] then deviceSessions - {d} else deviceSessions[d := byToken];
    }

    method RetainOrphanCleanup(d: Device, t: Token, expected: Option<Owner>)
      modifies `deviceSessions, `orphanCleanup
      ensures deviceSessions == if expected.Some? && OwnerOf(old(deviceSessions), d, t) == expected
                                then Unregister(old(deviceSessions), d, t) else old(deviceSessions)
      ensures orphanCleanup
        == if t in old(orphanCleanup) then old(orphanCleanup) else old(orphanCleanup)[t := Orphan(d, 0)]
    {
      if expected.Some? && OwnerOf(deviceSessions, d, t) == expected {
        UnregisterDeviceSession(d, t);
      }
      if t !in orphanCleanup {
        orphanCleanup := orphanCleanup[t := Orphan(d, 0)];
      }
    }

    // `closeForCleanup` runs to its `await` ...
    method BeginClose(d: Device, t: Token)
      modifies `flights, `nextClose, `known
      ensures View() == StartClose(old(View()), d, t)
    {
      var ownerAtStart := OwnerOf(deviceSessions, d, t);
      flights := flights[nextClose := Flight(d, t, ownerAtStart)];
      nextClose := nextClose + 1;
      known := known + {t};
    }

    // ... and goes on once the daemon has answered, or the call has failed.
    method EndClose(id: CloseId, ok: bool)
      requires id in flights
      modifies this
      ensures View() == FinishClose(old(View()), id, ok)
    {
      var f := flights[id];
      flights := flights - {id};
      if ok {
        if f.ownerAtStart.Some? && OwnerOf(deviceSessions, f.device, f.token) == f.ownerAtStart {
          UnregisterDeviceSession(f.device, f.token);
        }
        orphanCleanup := orphanCleanup - {f.token};
        confirmed := confirmed + {f.token};
        return;
      }
      RetainOrphanCleanup(f.device, f.token, f.ownerAtStart);
    }

    // -------------------------------------------------------------- purges

    // Starts a close for every session that `chosen` picks, device by device.
    method CloseChosen(chosen: Owner -> bool) returns (ghost order: seq<Pair>)
      modifies `flights, `nextClose, `known
      ensures View() == StartAll(old(View()), order)
      ensures Lists(order, old(deviceSessions), chosen)
    {
      hide StartAll, StartClose, OwnerOf;
      order := [];
      ghost var s := View();
      NothingStarted(s);
      var devices := deviceSessions.Keys;
      ghost var done := {};
      NoneListed(deviceSessions, chosen);
      while devices != {}
        invariant devices <= deviceSessions.Keys && done == deviceSessions.Keys - devices
        invariant View() == StartAll(s, order)
        invariant ListedOn(order, deviceSessions, done, chosen)
        decreases |devices|
      {
        var d :| d in devices;
        ghost var more := CloseChosenOn(d, chosen);
        StartConcat(s, order, more);
        ListedMore(order, more, deviceSessions, done, d, chosen);
        order := order + more;
        devices := devices - {d};
        done := done + {d};
      }
      AllListed(order, deviceSessions, done, chosen);
    }

    method CloseChosenOn(d: Device, chosen: Owner -> bool) returns (ghost order: seq<Pair>)
      requires d in deviceSessions
      modifies `flights, `nextClose, `known
      ensures View() == StartAll(old(View()), order)
      ensures forall e, t :: Pair(e, t) in order <==> e == d && Picks(deviceSessions, d, t, chosen)
    {
      hide StartAll, StartClose;
      order := [];
      ghost var s := View();
      NothingStarted(s);
      var byToken := deviceSessions[d];
      var tokens := byToken.Keys;
      while tokens != {}
        invariant tokens <= byToken.Keys
        invariant View() == StartAll(s, order)
        invariant forall e, t :: Pair(e, t) in order <==> e == d && t in byToken && t !in tokens && chosen(byToken[t])
        decreases |tokens|
      {
        var t :| t in tokens;
        tokens := tokens - {t};
        if chosen(byToken[t]) {
          StartLast(s, order, Pair(d, t));
          BeginClose(d, t);
          order := order + [Pair(d, t)];
        }
      }
    }

    method PurgeFrame(tab: Tab, frame: FrameKey) returns (ghost order: seq<Pair>)
      modifies `flights, `nextClose, `known, `frameLifetimes
      ensures Enabled(old(View()), Event.PurgeFrame(tab, frame, order))
      ensures View() == Step(old(View()), Event.PurgeFrame(tab, frame, order))
      ensures Numbered(old(View())) ==>
        ClosesChosen(old(View()), View(), (x: Owner) => x.tab == tab && x.frame == frame)
      ensures tab in frameLifetimes && frame in frameLifetimes[tab] && frameLifetimes[tab][frame] == 0
    {
      hide StartAll, ClosesChosen;
      RetireFrameLifetime(tab, frame);
      order := CloseChosen(x => OfFrame(x, tab, frame));
      if Numbered(old(View())) {
        PurgeFrameCloses(old(View()), tab, frame, order);
      }
    }

    method PurgeBridge(tab: Tab, bridge: Bridge) returns (ghost order: seq<Pair>)
      modifies `flights, `nextClose, `known, `frameLifetimes
      ensures Enabled(old(View()), Event.PurgeBridge(tab, bridge, order))
      ensures View() == Step(old(View()), Event.PurgeBridge(tab, bridge, order))
      ensures Numbered(old(View())) ==>
        ClosesChosen(old(View()), View(), (x: Owner) => x.tab == tab && x.bridge == Some(bridge))
      ensures tab in frameLifetimes ==>
        forall k :: k in frameLifetimes[tab] && k.BridgeKey? && k.bridge == bridge ==> frameLifetimes[tab][k] == 0
    {
      hide StartAll, ClosesChosen;
      if tab in frameLifetimes {
        var frames := frameLifetimes[tab];
        var keys := frames.Keys;
        ghost var before := frames;
        while keys != {}
          invariant keys <= frames.Keys && frames.Keys == before.Keys
          invariant forall k :: k in frames ==>
            frames[k] == if k !in keys && k.BridgeKey? && k.bridge == bridge then 0 else before[k]
          decreases |keys|
        {
          var k :| k in keys;
          keys := keys - {k};
          if k.BridgeKey? && k.bridge == bridge {
            frames := frames[k := 0];
          }
        }
        assert frames == RetireBridge(frameLifetimes, tab, bridge)[tab];
        frameLifetimes := frameLifetimes[tab := frames];
      }
      order := CloseChosen(x => OfBridge(x, tab, bridge));
      if Numbered(old(View())) {
        PurgeBridgeCloses(old(View()), tab, bridge, order);
      }
    }

    method PurgeTab(tab: Tab) returns (ghost order: seq<Pair>)
      modifies `flights, `nextClose, `known, `frameLifetimes
      ensures Enabled(old(View()), Event.PurgeTab(tab, order))
      ensures View() == Step(old(View()), Event.PurgeTab(tab, order))
      ensures Numbered(old(View())) ==> ClosesChosen(old(View()), View(), (x: Owner) => x.tab == tab)
      ensures frameLifetimes == old(frameLifetimes) - {tab}
    {
      hide StartAll, ClosesChosen;
      order := CloseChosen((x: Owner) => x.tab == tab);
      frameLifetimes := frameLifetimes - {tab};
      if Numbered(old(View())) {
        PurgeTabCloses(old(View()), tab, order);
      }
    }

    method RetryOrphanCleanup() returns (touched: nat, ghost order: seq<Pair>)
      modifies `flights, `nextClose, `known, `orphanCleanup
      ensures Enabled(old(View()), RetryOrphans(order))
      ensures View() == Step(old(View()), RetryOrphans(order))
      ensures touched == |old(orphanCleanup).Keys|
      ensures Numbered(old(View())) ==>
        StartsFor(old(View()), View(), set t | t in old(orphanCleanup) :: Pair(old(orphanCleanup)[t].device, t))
    {
      hide StartsFor, StartAll, StartClose, OwnerOf, Unregister, Counted, CountAttempts, Asked;
      ghost var before := orphanCleanup;
      ghost var s := View().(orphans := CountAttempts(before));
      order, touched := [], 0;
      var tokens := orphanCleanup.Keys;
      NothingStarted(s);
      NothingCounted(before);
      while tokens != {}
        invariant tokens <= before.Keys && orphanCleanup == Counted(before, tokens)
        invariant View().(orphans := s.orphans) == StartAll(s, order)
        invariant Asked(order, before, tokens)
        invariant touched + |tokens| == |before.Keys|
        decreases |tokens|
      {
        var t :| t in tokens;
        OneMoreCounted(order, before, tokens, t);
        tokens := tokens - {t};
        var entry := orphanCleanup[t];
        orphanCleanup := orphanCleanup[t := entry.(attempts := entry.attempts + 1)];
        touched := touched + 1;
        StartLast(s, order, Pair(entry.device, t));
        StartIgnoresOrphans(View(), s.orphans, entry.device, t);
        BeginClose(entry.device, t);
        order := order + [Pair(entry.device, t)];
      }
      AllCounted(order, before);
      StartedSame(s, order);
      if Numbered(old(View())) {
        RetryAsksForAll(old(View()), order);
      }
    }

    // ------------------------------------------------------------ clearing

    method ClearAuthorityOwnership()
      modifies this
      ensures View() == Step(old(View()), ClearAuthority)
    {
      cleared := cleared + AllTokens(deviceSessions) + orphanCleanup.Keys;
      deviceSessions, frameLifetimes, orphanCleanup := map[], map[], map[];
    }

    method ClearDeviceOwnership(d: Device)
      modifies `deviceSessions, `orphanCleanup, `cleared
      ensures View() == Step(old(View()), ClearDevice(d))
    {
      cleared := cleared + TokensOn(deviceSessions, d) + OrphansOn(orphanCleanup, d);
      deviceSessions := deviceSessions - {d};
      DropOrphansOn(d);
    }

    // The loop of `clearDeviceOwnership` over the orphans.
    method DropOrphansOn(d: Device)
      modifies `orphanCleanup
      ensures orphanCleanup == old(orphanCleanup) - OrphansOn(old(orphanCleanup), d)
    {
      hide OrphansOn;
      ghost var before := orphanCleanup;
      var tokens := orphanCleanup.Keys;
      while tokens != {}
        invariant tokens <= before.Keys
        invariant orphanCleanup == before - (OrphansOn(before, d) - tokens)
        decreases |tokens|
      {
        var t :| t in tokens;
        OneTokenLess(before, d, tokens, t);
        tokens := tokens - {t};
        if orphanCleanup[t].device == d {
          orphanCleanup := orphanCleanup - {t};
        }
      }
      assert OrphansOn(before, d) - {} == OrphansOn(before, d);
    }
  }

  // The orphans once an attempt is counted for all but these tokens.
  function Counted(orphans: map<Token, Orphan>, tokens: set<Token>): map<Token, Orphan> {
    map t | t in orphans :: if t in tokens then orphans[t] else orphans[t].(attempts := orphans[t].attempts + 1)
  }

  // Closes have been started for all but these tokens.
  ghost predicate Asked(order: seq<Pair>, orphans: map<Token, Orphan>, tokens: set<Token>) {
    forall d, t :: Pair(d, t) in order <==> t in orphans && t !in tokens && orphans[t].device == d
  }

  lemma NothingCounted(orphans: map<Token, Orphan>)
    ensures Counted(orphans, orphans.Keys) == orphans && Asked([], orphans, orphans.Keys)
  {
  }

  lemma OneMoreCounted(order: seq<Pair>, orphans: map<Token, Orphan>, tokens: set<Token>, t: Token)
    requires t in tokens && tokens <= orphans.Keys && Asked(order, orphans, tokens)
    ensures var now := Counted(orphans, tokens);
      && t in now && now[t] == orphans[t]
      && Counted(orphans, tokens - {t}) == now[t := orphans[t].(attempts := orphans[t].attempts + 1)]
    ensures Asked(order + [Pair(orphans[t].device, t)], orphans, tokens - {t})
  {
  }

  lemma AllCounted(order: seq<Pair>, orphans: map<Token, Orphan>)
    requires Asked(order, orphans, {})
    ensures Counted(orphans, {}) == CountAttempts(orphans) && ListsOrphans(order, orphans)
  {
  }

  lemma OneTokenLess(orphans: map<Token, Orphan>, d: Device, tokens: set<Token>, t: Token)
    requires t in tokens && tokens <= orphans.Keys
    ensures var rest := orphans - (OrphansOn(orphans, d) - tokens);
      && t in rest && rest[t] == orphans[t]
      && orphans - (OrphansOn(orphans, d) - (tokens - {t})) == if orphans[t].device == d then rest - {t} else rest
  {
  }

  ghost predicate Picks(sessions: map<Device, map<Token, Owner>>, d: Device, t: Token, chosen: Owner -> bool) {
    OwnerOf(sessions, d, t).Some? && chosen(OwnerOf(sessions, d, t).value)
  }

  // The order lists the chosen sessions of these devices.
  ghost predicate ListedOn(order: seq<Pair>, sessions: map<Device, map<Token, Owner>>, devices: set<Device>,
      chosen: Owner -> bool) {
    forall d, t :: Pair(d, t) in order <==> d in devices && Picks(sessions, d, t, chosen)
  }

  lemma NoneListed(sessions: map<Device, map<Token, Owner>>, chosen: Owner -> bool)
    ensures ListedOn([], sessions, {}, chosen)
  {
  }

  lemma ListedMore(order: seq<Pair>, more: seq<Pair>, sessions: map<Device, map<Token, Owner>>, devices: set<Device>,
                   d: Device, chosen: Owner -> bool)
    requires ListedOn(order, sessions, devices, chosen)
    requires forall e, t :: Pair(e, t) in more <==> e == d && Picks(sessions, d, t, chosen)
    ensures ListedOn(order + more, sessions, devices + {d}, chosen)
  {
    hide Picks;
  }

  lemma AllListed(order: seq<Pair>, sessions: map<Device, map<Token, Owner>>, devices: set<Device>,
      chosen: Owner -> bool)
    requires ListedOn(order, sessions, devices, chosen) && devices == sessions.Keys
    ensures Lists(order, sessions, chosen)
  {
  }

  lemma NothingStarted(s: State)
    ensures StartAll(s, []) == s
  {
  }

  lemma {:induction false} StartConcat(s: State, a: seq<Pair>, b: seq<Pair>)
    ensures StartAll(s, a + b) == StartAll(StartAll(s, a), b)
    decreases |a|
  {
    hide StartClose;
    if a == [] {
      assert a + b == b;
    } else {
      assert (a + b)[1..] == a[1..] + b;
      StartConcat(StartClose(s, a[0].device, a[0].token), a[1..], b);
    }
  }

  lemma StartIgnoresOrphans(s: State, orphans: map<Token, Orphan>, d: Device, t: Token)
    ensures StartClose(s, d, t).(orphans := orphans) == StartClose(s.(orphans := orphans), d, t)
  {
  }

  // Starting closes touches neither sessions nor orphans.
  lemma {:induction false} StartedSame(s: State, order: seq<Pair>)
    ensures StartAll(s, order).sessions == s.sessions && StartAll(s, order).orphans == s.orphans
    decreases |order|
  {
    if order != [] {
      StartedSame(StartClose(s, order[0].device, order[0].token), order[1..]);
    }
  }
}
