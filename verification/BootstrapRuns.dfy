// The laws of every run of the bootstrap gate.
module BootstrapRuns {
  import opened Common
  import opened Bootstrap
  import opened BootstrapProofs

  // ------------------------------------------------------- compound actions

  lemma CloseCandidatesKeeps(g: Gate, t: TransitionId, limbo: set<Port>)
    requires Core(g, limbo) && t in g.transitions
    ensures Linked(g)
    ensures var z := CloseCandidates(g, t);
      && Core(z, limbo) && Drops(g, z, t, |g.transitions[t].queue|) && z.reservations == g.reservations
      && z.transitions[t] == g.transitions[t].(queue := [])
  {
    CoreIsLinked(g, limbo);
    var q := g.transitions[t].queue;
    WaitingInQueue(g, t);
    hide Tables, Queues, Standing, Answers, Promotions, Ports, Closes;
    CloseEachEffect(g, q);
    CloseEachKeepsPorts(g, q, limbo);
    var y := CloseEach(g, q);
    var z := CloseCandidates(g, t);
    PortsSame(y, z, limbo);
    assert q[..|q|] == q && q[|q|..] == [];
    assert Closes(g, z, Ids(q)) by { SameCloses(g, y, z, Ids(q)); }
    DropsRest(g, z, t, |q|);
  }

  lemma SameCloses(g: Gate, y: Gate, z: Gate, cs: set<CandidateId>)
    requires Closes(g, y, cs) && z.candidates == y.candidates
    ensures Closes(g, z, cs)
  {
  }

  lemma WaitingInQueue(g: Gate, t: TransitionId)
    requires Queues(g) && t in g.transitions
    ensures forall c :: c in g.transitions[t].queue ==> c in g.candidates && g.candidates[c].fate == Waiting
  {
    forall c | c in g.transitions[t].queue ensures c in g.candidates && g.candidates[c].fate == Waiting {
      assert Queues1(g, t, c);
    }
  }

  lemma RetargetKeeps(g: Gate, t: TransitionId, target: nat, limbo: set<Port>)
    requires Core(g, limbo) && t in g.transitions
    ensures Linked(g)
    ensures var y := CloseCandidates(g, t); var z := SetTransition(y, t, y.transitions[t].(target := target));
      && Core(z, limbo) && Drops(g, z, t, |g.transitions[t].queue|) && z.reservations == g.reservations
      && z.transitions[t].queue == []
  {
    CloseCandidatesKeeps(g, t, limbo);
    var y := CloseCandidates(g, t);
    var z := SetTransition(y, t, y.transitions[t].(target := target));
    hide Tables, Queues, Standing, Answers, Promotions, Ports, CloseCandidates, Linked, Drops;
    DropsRetarget(g, y, z, t, |g.transitions[t].queue|, target);
    FlagsRest(y, z, t);
    PortsSame(y, z, limbo);
  }

  lemma DropsRetarget(g: Gate, y: Gate, z: Gate, t: TransitionId, n: nat, target: nat)
    requires Drops(g, y, t, n) && z == SetTransition(y, t, y.transitions[t].(target := target))
    ensures Drops(g, z, t, n)
  {
    hide Closes;
    SameCloses(g, y, z, Ids(g.transitions[t].queue[..n]));
  }

  lemma FailKeeps(g: Gate, t: TransitionId, limbo: set<Port>)
    requires Core(g, limbo) && t in g.transitions
    ensures Linked(g)
    ensures var z := FailTransition(g, t);
      && Core(z, limbo) && (z == g || Drops(g, z, t, |g.transitions[t].queue|))
      && z.transitions[t].queue == []
  {
    FailedIsEmpty(g, t);
    CloseCandidatesKeeps(g, t, limbo);
    if !g.transitions[t].failed {
      var y := CloseCandidates(g, t);
      var z := FailTransition(g, t);
      FailFields(g, t);
      DropsFail(g, y, z, t);
      hide Tables, Queues, Standing, Answers, Promotions, Ports, CloseCandidates, FailTransition, Linked, Drops;
      DropsRest(g, z, t, |g.transitions[t].queue|);
      PortsSame(y, z, limbo);
    }
  }

  lemma DropsFail(g: Gate, y: Gate, z: Gate, t: TransitionId)
    requires t in g.transitions && Drops(g, y, t, |g.transitions[t].queue|)
    requires z.candidates == y.candidates && SameHistory(y, z)
    requires z.transitions == g.transitions[t := g.transitions[t].(queue := [], failed := true)]
    requires z.reservations == if Reserved(g, t) then g.reservations - {g.transitions[t].source} else g.reservations
    ensures Drops(g, z, t, |g.transitions[t].queue|)
  {
    hide Closes;
    SameCloses(g, y, z, Ids(g.transitions[t].queue[..|g.transitions[t].queue|]));
  }

  lemma FailedIsEmpty(g: Gate, t: TransitionId)
    requires Tables(g) && Queues(g) && t in g.transitions
    ensures g.transitions[t].failed ==> g.transitions[t].queue == []
  {
    assert Reserved(g, t) ==> Reservation(g, g.transitions[t].source, t);
  }

  // Failing closes the same candidates as closing them all does.
  lemma FailFields(g: Gate, t: TransitionId)
    requires Queued(g) && t in g.transitions && !g.transitions[t].failed
    ensures var y := CloseCandidates(g, t); var z := FailTransition(g, t); var x := g.transitions[t];
      && z.candidates == y.candidates && z.rejected == y.rejected && SameHistory(y, z)
      && z.transitions == g.transitions[t := x.(queue := [], failed := true)]
      && z.reservations == if Reserved(g, t) then g.reservations - {x.source} else g.reservations
  {
    hide Closes;
    var x := g.transitions[t];
    var g1 := SetTransition(g, t, x.(failed := true));
    CloseEachIgnores(g, g1, x.queue);
    CloseEachEffect(g1, x.queue);
  }

  lemma {:induction false} CloseEachIgnores(g: Gate, h: Gate, cs: seq<CandidateId>)
    requires forall c :: c in cs ==> c in g.candidates
    requires h.candidates == g.candidates && h.rejected == g.rejected && SameHistory(g, h)
    ensures CloseEach(h, cs).candidates == CloseEach(g, cs).candidates
    ensures CloseEach(h, cs).rejected == CloseEach(g, cs).rejected && SameHistory(CloseEach(g, cs), CloseEach(h, cs))
    decreases |cs|
  {
    if cs != [] {
      CloseEachIgnores(CloseCandidate(g, cs[0]), CloseCandidate(h, cs[0]), cs[1..]);
    }
  }

  // An expired or superseded head is dropped and closed.
  lemma DropHeadKeeps(g: Gate, t: TransitionId, limbo: set<Port>)
    requires Core(g, limbo) && t in g.transitions && g.transitions[t].queue != []
    ensures Linked(g)
    ensures var z := CloseCandidate(Shift(g, t), g.transitions[t].queue[0]);
      Core(z, limbo) && Drops(g, z, t, 1) && z.reservations == g.reservations
      && z.transitions[t] == g.transitions[t].(queue := g.transitions[t].queue[1..])
  {
    CoreIsLinked(g, limbo);
    WaitingInQueue(g, t);
    DropHeadDrops(g, t);
    var c := g.transitions[t].queue[0];
    var z := CloseCandidate(Shift(g, t), c);
    hide Tables, Queues, Standing, Answers, Promotions, Ports, Linked, Drops;
    PortsSame(g, Shift(g, t), limbo);
    CloseKeepsPorts(Shift(g, t), c, limbo);
    DropsRest(g, z, t, 1);
  }

  lemma DropHeadDrops(g: Gate, t: TransitionId)
    requires Queued(g) && t in g.transitions && g.transitions[t].queue != []
    ensures var z := CloseCandidate(Shift(g, t), g.transitions[t].queue[0]);
      Drops(g, z, t, 1) && z.reservations == g.reservations
      && z.transitions[t] == g.transitions[t].(queue := g.transitions[t].queue[1..])
  {
    var c := g.transitions[t].queue[0];
    assert g.transitions[t].queue[..1] == [c];
    assert Ids([c]) == {c};
    assert Closes(g, CloseCandidate(Shift(g, t), c), {c});
    hide Closes;
  }

  // Calling `accept` for the head.
  lemma AcceptKeeps(g: Gate, t: TransitionId, env: Env, limbo: set<Port>)
    requires Core(g, limbo) && t in g.transitions && Reserved(g, t) && !g.transitions[t].failed
    requires g.transitions[t].queue != []
    requires Linked(g) && env.current.Some? && g.transitions[t].cleanup
    requires var x := g.candidates[g.transitions[t].queue[0]]; x.live && !x.expired && x.identity == env.current.value
    ensures var z := AcceptHead(g, t, env);
      && Core(z, limbo) && z.transitions[t].queue == []
      && Takes(g, z, t, env.current.value, env.accepts && env.announces)
  {
    var z := AcceptHead(g, t, env);
    WaitingInQueue(g, t);
    AcceptTakes(g, t, env);
    AcceptPorts(g, t, env, limbo);
    hide Tables, Queues, Standing, Answers, Promotions, Ports, AcceptHead, Linked;
    TakesRest(g, z, t, env.current.value, env.accepts && env.announces);
  }

  function TakenOff(g: Gate, t: TransitionId, ok: bool): Gate
    requires t in g.transitions && g.transitions[t].queue != [] && Queued(g)
  {
    var c := g.transitions[t].queue[0];
    SetCandidate(Shift(g, t), c,
      g.candidates[c].(armed := false, listening := false, fate := if ok then Accepted else Failed))
  }

  lemma AcceptTakes(g: Gate, t: TransitionId, env: Env)
    requires Queues(g) && Queued(g) && t in g.transitions && Reserved(g, t) && !g.transitions[t].failed
    requires g.transitions[t].queue != [] && env.current.Some? && g.transitions[t].cleanup
    requires var x := g.candidates[g.transitions[t].queue[0]]; x.live && !x.expired && x.identity == env.current.value
    ensures Takes(g, AcceptHead(g, t, env), t, env.current.value, env.accepts && env.announces)
    ensures AcceptHead(g, t, env).transitions[t].queue == [] && AcceptHead(g, t, env).offered == g.offered
  {
    var ok := env.accepts && env.announces;
    var c := g.transitions[t].queue[0];
    var y := TakenOff(g, t, ok);
    var logged := y.(promotions := y.promotions + [Promotion(t, c, env.current.value, ok)]);
    hide Queues;
    if ok {
      CloseEachEffect(logged, logged.transitions[t].queue);
    } else {
      var denied := Reject(logged, g.candidates[c].port);
      FailFields(denied, t);
      CloseEachEffect(denied, denied.transitions[t].queue);
    }
  }

  lemma AcceptPorts(g: Gate, t: TransitionId, env: Env, limbo: set<Port>)
    requires Ports(g, limbo) && Queues(g) && Queued(g) && t in g.transitions && Reserved(g, t)
    requires !g.transitions[t].failed
    requires g.transitions[t].queue != [] && env.current.Some? && !g.candidates[g.transitions[t].queue[0]].expired
    ensures Ports(AcceptHead(g, t, env), limbo)
  {
    var ok := env.accepts && env.announces;
    var q := g.transitions[t].queue;
    var c := q[0];
    HeadOpen(g, t);
    var y := TakenOff(g, t, ok);
    var logged := y.(promotions := y.promotions + [Promotion(t, c, env.current.value, ok)]);
    hide Queues, Ports;
    if ok {
      PortsSame(g, logged, limbo);
      CloseEachKeepsPorts(logged, q[1..], limbo);
      PortsSame(CloseEach(logged, q[1..]), AcceptHead(g, t, env), limbo);
    } else {
      var denied := Reject(logged, g.candidates[c].port);
      FailingKeepsPorts(g, denied, c, limbo);
      CloseEachKeepsPorts(denied, q[1..], limbo);
      FailFields(denied, t);
      PortsSame(CloseEach(denied, q[1..]), AcceptHead(g, t, env), limbo);
    }
  }

  lemma HeadOpen(g: Gate, t: TransitionId)
    requires Queues(g) && t in g.transitions && g.transitions[t].queue != []
    requires g.transitions[t].queue[0] in g.candidates && !g.candidates[g.transitions[t].queue[0]].expired
    ensures var q := g.transitions[t].queue;
      && Keeps(g.candidates[q[0]]) && g.candidates[q[0]].fate == Waiting
      && (forall c :: c in q[1..] ==> c in g.candidates && g.candidates[c].fate == Waiting && c != q[0])
  {
    var q := g.transitions[t].queue;
    assert Queues1(g, t, q[0]);
    forall c | c in q[1..] ensures c in g.candidates && g.candidates[c].fate == Waiting && c != q[0] {
      var j :| 1 <= j < |q| && q[j] == c;
      assert Queues1(g, t, c) && InOrder(g, t, 0, j);
    }
  }

  // ------------------------------------------------------------- promotion

  lemma EmptyHeads(g: Gate, t: TransitionId)
    requires HeadsExcept(g, t) && (t in g.transitions ==> HeadOk(g, t))
    ensures HeadsOk(g)
  {
  }

  lemma TakesHeads(g: Gate, z: Gate, t: TransitionId, current: nat, ok: bool)
    requires Queues(g) && HeadsExcept(g, t) && Takes(g, z, t, current, ok)
    ensures HeadsExcept(z, t)
  {
    TakesEach(g, z, t, current, ok);
    hide Closes, Queues, HeadOk;
    assert forall c :: c in g.candidates ==> SameTags(g.candidates[c], z.candidates[c]);
    HeadsFrame(g, z, t);
  }

  // However `tryPromote` ends, the invariants hold and t's head is in order.
  lemma {:induction false} PromoteKeeps(g: Gate, t: TransitionId, env: Env, limbo: set<Port>)
    requires Core(g, limbo) && HeadsExcept(g, t) && t in g.transitions
    ensures Linked(g) && Core(Promote(g, t, env), limbo) && HeadsOk(Promote(g, t, env))
    decreases |g.transitions[t].queue|
  {
    CoreIsLinked(g, limbo);
    FailedIsEmpty(g, t);
    var x := g.transitions[t];
    UnreservedIsEmpty(g, t);
    hide Tables, Queues, Standing, Answers, Promotions, Ports, Drops, Takes, Closes, Linked,
      AcceptHead, CloseCandidates, FailTransition, CloseCandidate;
    if x.failed || !Reserved(g, t) || x.queue == [] {
      EmptyHeads(g, t);
    } else {
      var head := g.candidates[x.queue[0]];
      if head.expired {
        DropAndGoOn(g, t, env, limbo);
      } else if !head.live || !x.cleanup {
        EmptyHeads(g, t);
      } else if env.current.None? {
        FailAndStop(g, t, limbo);
      } else if env.current.value != x.target {
        RetargetKeeps(g, t, env.current.value, limbo);
        var y := CloseCandidates(g, t);
        var z := SetTransition(y, t, y.transitions[t].(target := env.current.value));
        DropsHeads(g, z, t, |x.queue|);
        EmptyHeads(z, t);
      } else if head.identity != x.target {
        DropAndGoOn(g, t, env, limbo);
      } else {
        AcceptKeeps(g, t, env, limbo);
        TakesHeads(g, AcceptHead(g, t, env), t, env.current.value, env.accepts && env.announces);
        EmptyHeads(AcceptHead(g, t, env), t);
      }
    }
  }

  lemma {:induction false} DropAndGoOn(g: Gate, t: TransitionId, env: Env, limbo: set<Port>)
    requires Core(g, limbo) && HeadsExcept(g, t) && t in g.transitions && g.transitions[t].queue != []
    ensures Linked(g)
    ensures var z := CloseCandidate(Shift(g, t), g.transitions[t].queue[0]);
      Linked(z) && t in z.transitions && Core(Promote(z, t, env), limbo) && HeadsOk(Promote(z, t, env))
    decreases |g.transitions[t].queue|, 0
  {
    WaitingInQueue(g, t);
    hide Tables, Queues, Standing, Answers, Promotions, Ports, CloseCandidate, Linked, Promote, Drops;
    DropHeadKeeps(g, t, limbo);
    var z := CloseCandidate(Shift(g, t), g.transitions[t].queue[0]);
    DropsHeads(g, z, t, 1);
    PromoteKeeps(z, t, env, limbo);
  }

  lemma FailAndStop(g: Gate, t: TransitionId, limbo: set<Port>)
    requires Core(g, limbo) && HeadsExcept(g, t) && t in g.transitions
    ensures Linked(g) && Core(FailTransition(g, t), limbo) && HeadsOk(FailTransition(g, t))
  {
    WaitingInQueue(g, t);
    hide Tables, Queues, Standing, Answers, Promotions, Ports, FailTransition, Linked, Drops;
    FailKeeps(g, t, limbo);
    var z := FailTransition(g, t);
    if z != g {
      DropsHeads(g, z, t, |g.transitions[t].queue|);
    }
    EmptyHeads(z, t);
  }

  lemma UnreservedIsEmpty(g: Gate, t: TransitionId)
    requires Queues(g) && t in g.transitions
    ensures !Reserved(g, t) ==> g.transitions[t].queue == []
  {
  }

  // -------------------------------------------------------------- events

  lemma AddCandidateKeeps(g: Gate, t: TransitionId, port: Port, origin: nat, identity: nat, challenge: Challenge,
                          env: Env, limbo: set<Port>)
    requires Core(g, limbo) && HeadsExcept(g, t) && t in g.transitions && HeadOk(g, t) && Reserved(g, t)
    requires port in limbo
    ensures Linked(g)
    ensures var z := AddCandidate(g, t, port, origin, identity, challenge, env); Core(z, limbo - {port}) && HeadsOk(z)
  {
    CoreIsLinked(g, limbo);
    FreshCandidate(g);
    EnqueueHeads(g, t, port, origin, identity, challenge);
    var c := g.nextCandidate;
    hide Tables, Queues, Standing, Answers, Promotions, Ports, Promote, Linked;
    var y := Enqueue(g, t, port, origin, identity, challenge);
    EnqueueRest(g, t, port, origin, identity, challenge);
    EnqueueKeepsPorts(g, y, c, limbo);
    if env.posts {
      EmptyHeads(y, t);
    } else {
      var x := Expire(y, c);
      ExpireRest(y, c);
      ExpirePorts(y, c, limbo - {port});
      PromoteKeeps(x, t, env, limbo - {port});
    }
  }

  lemma FreshCandidate(g: Gate)
    requires Tables(g)
    ensures g.nextCandidate !in g.candidates && g.nextTransition !in g.transitions
  {
  }

  lemma EnqueueHeads(g: Gate, t: TransitionId, port: Port, origin: nat, identity: nat, challenge: Challenge)
    requires Tables(g) && Queues(g) && HeadsExcept(g, t) && t in g.transitions && HeadOk(g, t)
    ensures var y := Enqueue(g, t, port, origin, identity, challenge);
      HeadsExcept(y, t) && HeadOk(y, t) && HeadsExcept(Expire(y, g.nextCandidate), t)
  {
    var y := Enqueue(g, t, port, origin, identity, challenge);
    var c := g.nextCandidate;
    FreshCandidate(g);
    if g.transitions[t].queue != [] {
      assert Queues1(g, t, g.transitions[t].queue[0]);
    }
    hide Tables, Queues;
    HeadsFrame(g, y, t);
    HeadsFrame(g, Expire(y, c), t);
  }

  lemma ExpirePorts(g: Gate, c: CandidateId, limbo: set<Port>)
    requires Ports(g, limbo) && c in g.candidates && g.candidates[c].fate == Waiting
    ensures Ports(Expire(g, c), limbo)
  {
    hide Ports;
    var y := SetCandidate(g, c, g.candidates[c].(expired := true));
    PortsSame(g, y, limbo);
    CloseKeepsPorts(y, c, limbo);
  }

  lemma StartKeeps(g: Gate, source: Source, port: Port, origin: nat, identity: nat, previous: Option<nat>,
                   challenge: Challenge, env: Env, limbo: set<Port>)
    requires Core(g, limbo) && HeadsOk(g) && source !in g.reservations && port in limbo
    ensures Linked(g)
    ensures var z := StartTransition(g, source, port, origin, identity, previous, challenge, env);
      Core(z, limbo - {port}) && HeadsOk(z)
  {
    CoreIsLinked(g, limbo);
    FreshCandidate(g);
    var y := Begin(g, source, previous, identity);
    var t := g.nextTransition;
    hide Tables, Queues, Standing, Answers, Promotions, Ports, AddCandidate, Linked;
    BeginRest(g, source, previous, identity);
    PortsSame(g, y, limbo);
    BeginHeads(g, y, t);
    AddCandidateKeeps(y, t, port, origin, identity, challenge, env, limbo);
  }

  lemma BeginHeads(g: Gate, y: Gate, t: TransitionId)
    requires HeadsOk(g) && t in y.transitions && y.transitions[t].queue == []
    requires y.transitions == g.transitions[t := y.transitions[t]] && y.candidates == g.candidates
    ensures HeadsExcept(y, t) && HeadOk(y, t)
  {
    forall u | u in y.transitions && u != t ensures HeadOk(y, u) {
      assert HeadOk(g, u);
    }
  }

  lemma ReceiveKeeps(g: Gate, e: Event)
    requires Inv(g) && e.Offer? && Enabled(g, e)
    ensures Linked(g) && Inv(Receive(g, e))
  {
    CoreIsLinked(g, {});
    var all := set p | p in e.ports;
    var seen := g.(offered := g.offered + all);
    OfferedCore(g, e.ports);
    hide Tables, Queues, Standing, Answers, Promotions, Ports, AddCandidate, StartTransition, Linked, HeadsOk,
      CloseCandidates;
    if !e.plain || |e.ports| != 1 || e.source.None? || e.identity.None? {
      RejectAllCore(seen, e.ports, all);
      assert all - all == {};
    } else {
      var port, source, identity := e.ports[0], e.source.value, e.identity.value;
      assert e.ports == [port];
      assert all == {port};
      assert all - {port} == {};
      if source in g.reservations {
        ReceiveReserved(g, seen, e, port, source, identity);
      } else if e.previous.Some? && (e.previous.value.identity.None? || e.previous.value.identity == e.identity) {
        RejectCore(seen, port, all);
      } else {
        StartKeeps(seen, source, port, e.origin, identity,
                   if e.previous.Some? then Some(e.previous.value.context) else None, e.challenge, e.env, all);
      }
    }
  }

  lemma OfferedCore(g: Gate, ports: seq<Port>)
    requires Inv(g) && forall p :: p in ports ==> p !in g.offered
    ensures var all := set p | p in ports; var seen := g.(offered := g.offered + all);
      Core(seen, all) && HeadsOk(seen) && Linked(seen)
  {
    OfferedKeepsPorts(g, ports);
    var all := set p | p in ports;
    var seen := g.(offered := g.offered + all);
    HistoryRest(g, seen);
    SameHeads(g, seen);
    hide Tables, Queues, Standing, Answers, Promotions, Ports, HeadsOk;
    CoreIsLinked(seen, all);
  }

  // Rest speaks of neither offered nor rejected ports.
  lemma HistoryRest(g: Gate, z: Gate)
    requires Rest(g) && z == g.(offered := z.offered, rejected := z.rejected)
    ensures Rest(z)
  {
    HistoryTables(g, z);
    HistoryQueues(g, z);
    HistoryOthers(g, z);
  }

  lemma HistoryTables(g: Gate, z: Gate)
    requires Tables(g) && z == g.(offered := z.offered, rejected := z.rejected)
    ensures Tables(z)
  {
    assert forall s, t :: Reservation(z, s, t) == Reservation(g, s, t);
    assert forall x :: OwnerOk(z, x) == OwnerOk(g, x);
  }

  lemma HistoryQueues(g: Gate, z: Gate)
    requires Queues(g) && z == g.(offered := z.offered, rejected := z.rejected)
    ensures Queues(z)
  {
    forall u, c | u in z.transitions && c in z.transitions[u].queue ensures Queues1(z, u, c) {
      assert Queues1(g, u, c);
    }
    forall u, i, j | u in z.transitions && 0 <= i < j < |z.transitions[u].queue| ensures InOrder(z, u, i, j) {
      assert InOrder(g, u, i, j);
    }
    assert forall u :: u in z.transitions ==> Reserved(z, u) == Reserved(g, u);
  }

  lemma HistoryOthers(g: Gate, z: Gate)
    requires Standing(g) && Answers(g) && Promotions(g) && z == g.(offered := z.offered, rejected := z.rejected)
    ensures Standing(z) && Answers(z) && Promotions(z)
  {
    forall c | c in z.candidates ensures Stands(z, c, z.candidates[c]) {
      assert Stands(g, c, g.candidates[c]);
    }
    forall i | 0 <= i < |z.promotions| ensures PromotionOk(z, z.promotions[i]) {
      assert PromotionOk(g, g.promotions[i]);
    }
  }

  lemma SameHeads(g: Gate, z: Gate)
    requires HeadsOk(g) && z.transitions == g.transitions && z.candidates == g.candidates
    ensures HeadsOk(z)
  {
    forall t | t in z.transitions ensures HeadOk(z, t) {
      assert HeadOk(g, t);
    }
  }

  lemma RejectAllCore(g: Gate, ports: seq<Port>, limbo: set<Port>)
    requires Core(g, limbo) && HeadsOk(g) && Distinct(ports) && forall p :: p in ports ==> p in limbo
    ensures Core(RejectAll(g, ports), limbo - set p | p in ports) && HeadsOk(RejectAll(g, ports))
  {
    hide Tables, Queues, Standing, Answers, Promotions, Ports, HeadsOk;
    HistoryRest(g, RejectAll(g, ports));
    SameHeads(g, RejectAll(g, ports));
    RejectAllKeepsPorts(g, ports, limbo);
  }

  lemma RejectCore(g: Gate, port: Port, limbo: set<Port>)
    requires Core(g, limbo) && HeadsOk(g) && port in limbo
    ensures Core(Reject(g, port), limbo - {port}) && HeadsOk(Reject(g, port))
  {
    hide Tables, Queues, Standing, Answers, Promotions, Ports, HeadsOk;
    HistoryRest(g, Reject(g, port));
    SameHeads(g, Reject(g, port));
    RejectKeepsPorts(g, Reject(g, port), port, limbo);
  }

  // A further port for a source whose transition is under way.
  lemma ReceiveReserved(g: Gate, seen: Gate, e: Event, port: Port, source: Source, identity: nat)
    requires e.Offer? && e.plain && e.ports == [port] && e.source == Some(source) && e.identity == Some(identity)
    requires Linked(g) && seen == g.(offered := g.offered + {port}) && Core(seen, {port}) && HeadsOk(seen)
    requires source in g.reservations
    ensures Inv(Receive(g, e))
  {
    var t := g.reservations[source];
    assert Reservation(seen, source, t);
    assert (set p | p in e.ports) == {port};
    assert {port} - {port} == {};
    ReceiveCases(g, seen, e, port, source, identity);
    HeadsSplit(seen, t);
    CoreIsLinked(seen, {port});
    hide Tables, Queues, Standing, Answers, Promotions, Ports, AddCandidate, HeadsOk, Supersede, HeadOk, Receive;
    if g.transitions[t].target == identity {
      if AnyLive(seen, t) {
        RejectCore(seen, port, {port});
      } else {
        AddCandidateKeeps(seen, t, port, e.origin, identity, e.challenge, e.env, {port});
      }
    } else {
      SupersededKeeps(seen, t, port, e.origin, identity, e.challenge, e.env);
    }
  }

  lemma ReceiveCases(g: Gate, seen: Gate, e: Event, port: Port, source: Source, identity: nat)
    requires e.Offer? && e.plain && e.ports == [port] && e.source == Some(source) && e.identity == Some(identity)
    requires Linked(g) && seen == g.(offered := g.offered + {port}) && source in g.reservations
    ensures var t := g.reservations[source];
      Receive(g, e) ==
        if g.transitions[t].target != identity then Supersede(seen, t, port, e.origin, identity, e.challenge, e.env)
        else if AnyLive(seen, t) then Reject(seen, port)
        else AddCandidate(seen, t, port, e.origin, identity, e.challenge, e.env)
  {
    hide AddCandidate, Supersede;
    assert (set p | p in e.ports) == {port};
    assert g.(offered := g.offered + set p | p in e.ports) == seen;
  }

  lemma SupersededKeeps(g: Gate, t: TransitionId, port: Port, origin: nat, identity: nat, challenge: Challenge,
      env: Env)
    requires Core(g, {port}) && HeadsExcept(g, t) && t in g.transitions && Reserved(g, t)
    ensures Linked(g) && Inv(Supersede(g, t, port, origin, identity, challenge, env))
  {
    CoreIsLinked(g, {port});
    RetargetKeeps(g, t, identity, {port});
    var y := CloseCandidates(g, t);
    var z := SetTransition(y, t, y.transitions[t].(target := identity));
    assert Reserved(z, t);
    hide Tables, Queues, Standing, Answers, Promotions, Ports, AddCandidate, HeadsOk, CloseCandidates, HeadOk, Drops,
      Linked;
    DropsHeads(g, z, t, |g.transitions[t].queue|);
    NoHead(z, t);
    AddCandidateKeeps(z, t, port, origin, identity, challenge, env, {port});
    assert {port} - {port} == {};
  }

  lemma HeadsSplit(g: Gate, t: TransitionId)
    requires HeadsOk(g) && t in g.transitions
    ensures HeadsExcept(g, t) && HeadOk(g, t)
  {
  }

  lemma NoHead(g: Gate, t: TransitionId)
    requires t in g.transitions && g.transitions[t].queue == []
    ensures HeadOk(g, t)
  {
  }

  lemma AnsweredKeeps(g: Gate, c: CandidateId, challenge: Challenge, env: Env)
    requires Inv(g) && Enabled(g, Answer(c, challenge, env))
    ensures Linked(g) && Inv(Answered(g, c, challenge, env))
  {
    hide Tables, Queues, Standing, Answers, Promotions, Ports, Promote, HeadsOk, HeadsExcept, HeadOk;
    CoreIsLinked(g, {});
    var x := g.candidates[c];
    var z := g.(heard := g.heard + {(c, challenge)});
    var y := SetCandidate(z, c, x.(live := true, armed := false));
    SameHeads(g, z);
    LiveHeads(g, y, c);
    if x.expired || challenge != x.challenge {
      HeardRest(g, z);
      PortsSame(g, z, {});
    } else {
      LiveRest(g, c);
      PortsSame(g, y, {});
      PromoteKeeps(y, x.owner, env, {});
    }
  }

  lemma LiveHeads(g: Gate, y: Gate, c: CandidateId)
    requires Queues(g) && HeadsOk(g) && Linked(g) && c in g.candidates && c in y.candidates
    requires y.candidates == g.candidates[c := y.candidates[c]] && y.transitions == g.transitions
    ensures HeadsExcept(y, g.candidates[c].owner)
  {
    HeadsSplit(g, g.candidates[c].owner);
    HeadsFrame(g, y, g.candidates[c].owner);
  }

  lemma HeardRest(g: Gate, z: Gate)
    requires Rest(g) && g.heard <= z.heard && z == g.(heard := z.heard)
    ensures Rest(z)
  {
    HeardTables(g, z);
    HeardOthers(g, z);
  }

  lemma HeardTables(g: Gate, z: Gate)
    requires Tables(g) && Queues(g) && z == g.(heard := z.heard)
    ensures Tables(z) && Queues(z)
  {
    assert forall s, t :: Reservation(z, s, t) == Reservation(g, s, t);
    assert forall x :: OwnerOk(z, x) == OwnerOk(g, x);
    forall u, c | u in z.transitions && c in z.transitions[u].queue ensures Queues1(z, u, c) {
      assert Queues1(g, u, c);
    }
    forall u, i, j | u in z.transitions && 0 <= i < j < |z.transitions[u].queue| ensures InOrder(z, u, i, j) {
      assert InOrder(g, u, i, j);
    }
    assert forall u :: u in z.transitions ==> Reserved(z, u) == Reserved(g, u);
  }

  lemma HeardOthers(g: Gate, z: Gate)
    requires Standing(g) && Answers(g) && Promotions(g) && g.heard <= z.heard && z == g.(heard := z.heard)
    ensures Standing(z) && Answers(z) && Promotions(z)
  {
    forall c | c in z.candidates ensures Stands(z, c, z.candidates[c]) {
      assert Stands(g, c, g.candidates[c]);
    }
    forall i | 0 <= i < |z.promotions| ensures PromotionOk(z, z.promotions[i]) {
      assert PromotionOk(g, g.promotions[i]);
    }
  }

  lemma TimedOutKeeps(g: Gate, c: CandidateId, env: Env)
    requires Inv(g) && Enabled(g, Deadline(c, env))
    ensures Linked(g) && Inv(TimedOut(g, c, env))
  {
    hide Tables, Queues, Standing, Answers, Promotions, Ports, Promote, HeadsOk, HeadsExcept, HeadOk;
    CoreIsLinked(g, {});
    ArmedIsWaiting(g, c);
    var x := g.candidates[c];
    var z := SetCandidate(g, c, x.(armed := false));
    FlagHeads(g, z, c);
    LiveHeads(g, Expire(z, c), c);
    DisarmRest(g, c);
    PortsSame(g, z, {});
    if !(x.expired || x.live || x.closed) {
      ExpireRest(z, c);
      ExpirePorts(z, c, {});
      PromoteKeeps(Expire(z, c), x.owner, env, {});
    }
  }

  lemma ArmedIsWaiting(g: Gate, c: CandidateId)
    requires Standing(g) && c in g.candidates && g.candidates[c].armed
    ensures !g.candidates[c].closed && g.candidates[c].fate == Waiting
  {
    assert Stands(g, c, g.candidates[c]);
  }

  lemma FlagHeads(g: Gate, z: Gate, c: CandidateId)
    requires HeadsOk(g) && c in g.candidates && c in z.candidates && z.transitions == g.transitions
    requires z.candidates == g.candidates[c := z.candidates[c]]
    requires z.candidates[c].live == g.candidates[c].live && z.candidates[c].expired == g.candidates[c].expired
    ensures HeadsOk(z)
  {
    forall t | t in z.transitions ensures HeadOk(z, t) {
      assert HeadOk(g, t);
    }
  }

  lemma CleanedUpKeeps(g: Gate, t: TransitionId, env: Env)
    requires Inv(g) && Enabled(g, Cleaned(t, env))
    ensures Linked(g) && Inv(CleanedUp(g, t, env))
  {
    CoreIsLinked(g, {});
    var z := SetTransition(g, t, g.transitions[t].(pending := false)).(resolved := g.resolved + {t});
    var y := SetTransition(z, t, z.transitions[t].(cleanup := true));
    CleanupHeads(g, z, y, t);
    hide Tables, Queues, Standing, Answers, Promotions, Ports, Promote, Linked, HeadsOk, HeadsExcept;
    FlagsRest(g, z, t);
    PortsSame(g, z, {});
    if Reserved(g, t) && !g.transitions[t].failed {
      FlagsRest(z, y, t);
      PortsSame(z, y, {});
      PromoteKeeps(y, t, env, {});
    }
  }

  lemma CleanupHeads(g: Gate, z: Gate, y: Gate, t: TransitionId)
    requires Queues(g) && HeadsOk(g) && t in g.transitions
    requires z == SetTransition(g, t, g.transitions[t].(pending := false)).(resolved := g.resolved + {t})
    requires y == SetTransition(z, t, z.transitions[t].(cleanup := true))
    ensures HeadsOk(z) && HeadsExcept(y, t)
  {
    forall u | u in z.transitions ensures HeadOk(z, u) {
      assert HeadOk(g, u);
    }
    HeadsSplit(g, t);
    HeadsFrame(g, y, t);
  }

  lemma CleanupFailedKeeps(g: Gate, t: TransitionId)
    requires Inv(g) && Enabled(g, CleanupFailed(t))
    ensures Linked(g) && Inv(Step(g, CleanupFailed(t)))
  {
    CoreIsLinked(g, {});
    var z := SetTransition(g, t, g.transitions[t].(pending := false));
    HeadsSplit(g, t);
    HeadsFrame(g, z, t);
    hide Tables, Queues, Standing, Answers, Promotions, Ports, FailTransition, HeadsOk, HeadsExcept;
    FlagsRest(g, z, t);
    PortsSame(g, z, {});
    FailAndStop(z, t, {});
  }

  lemma StepKeeps(g: Gate, e: Event)
    requires Inv(g) && Enabled(g, e)
    ensures Linked(g) && Inv(Step(g, e))
  {
    hide Inv, Receive, Answered, TimedOut, CleanedUp;
    match e {
      case Offer(_, _, _, _, _, _, _, _) => ReceiveKeeps(g, e);
      case Answer(c, challenge, env) => AnsweredKeeps(g, c, challenge, env);
      case Deadline(c, env) => TimedOutKeeps(g, c, env);
      case Cleaned(t, env) => CleanedUpKeeps(g, t, env);
      case CleanupFailed(t) => CleanupFailedKeeps(g, t);
    }
  }

  // --------------------------------------------------------------- all runs

  ghost predicate IsRun(g: Gate, es: seq<Event>)
    requires Inv(g)
    decreases |es|
  {
    es == [] || (Enabled(g, es[0]) && (StepKeeps(g, es[0]); IsRun(Step(g, es[0]), es[1..])))
  }

  ghost function After(g: Gate, es: seq<Event>): Gate
    requires Inv(g) && IsRun(g, es)
    decreases |es|
  {
    if es == [] then g
    else
      StepKeeps(g, es[0]);
      After(Step(g, es[0]), es[1..])
  }

  lemma {:induction false} RunKeeps(g: Gate, es: seq<Event>)
    requires Inv(g) && IsRun(g, es)
    ensures Inv(After(g, es))
    decreases |es|
  {
    hide Inv;
    if es != [] {
      StepKeeps(g, es[0]);
      RunKeeps(Step(g, es[0]), es[1..]);
    }
  }

  ghost function Start(): (g: Gate)
    ensures Inv(g)
  {
    NewGateOk();
    NEW_GATE
  }

  predicate IsOpen(g: Gate, p: Port) {
    exists c ::
      c in g.candidates && g.candidates[c].port == p && !g.candidates[c].closed && g.candidates[c].fate == Waiting
  }

  predicate IsAccepted(g: Gate, p: Port) {
    exists c :: c in g.candidates && g.candidates[c].port == p && g.candidates[c].fate == Accepted
  }

  // Every offered port is an open candidate's, accepted, or rejected, exactly one of
  // the three, and is rejected at most once; an open one waits in its queue.
  lemma PortLaw(es: seq<Event>, p: Port)
    requires IsRun(Start(), es) && p in After(Start(), es).offered
    ensures var g := After(Start(), es);
      && multiset(g.rejected)[p] <= 1
      && (IsOpen(g, p) || IsAccepted(g, p) || p in g.rejected)
      && !(IsOpen(g, p) && IsAccepted(g, p)) && !(IsOpen(g, p) && p in g.rejected)
      && !(IsAccepted(g, p) && p in g.rejected)
  {
    RunKeeps(Start(), es);
    var g := After(Start(), es);
    PortVerdict(g, p);
    assert p in g.rejected <==> multiset(g.rejected)[p] > 0;
  }

  lemma PortVerdict(g: Gate, p: Port)
    requires Ports(g, {}) && Standing(g) && p in g.offered
    ensures Refused(g, {}, p) <==> !IsOpen(g, p) && !IsAccepted(g, p)
    ensures !(IsOpen(g, p) && IsAccepted(g, p))
    ensures multiset(g.rejected)[p] == if Refused(g, {}, p) then 1 else 0
  {
    forall c | c in g.candidates && g.candidates[c].port == p
      ensures Keeps(g.candidates[c])
        <==> (!g.candidates[c].closed && g.candidates[c].fate == Waiting) || g.candidates[c].fate == Accepted
    {
      assert Stands(g, c, g.candidates[c]);
    }
  }

  // A port is let in at most once per transition, only after the predecessor's
  // cleanup resolved, on the earliest candidate still open, which has answered its
  // own challenge and has the identity the browser reports at that moment.
  lemma PromotionLaw(es: seq<Event>, i: nat)
    requires IsRun(Start(), es) && i < |After(Start(), es).promotions|
    ensures var g := After(Start(), es); var p := g.promotions[i];
      && p.transition in g.transitions && p.candidate in g.candidates
      && (g.transitions[p.transition].previous.Some? ==> p.transition in g.resolved)
      && (var x := g.candidates[p.candidate];
          && x.owner == p.transition && x.identity == p.current && (p.candidate, x.challenge) in g.heard
          && (p.succeeded <==> IsAccepted(g, x.port)) && (!p.succeeded ==> x.port in g.rejected)
          && (forall d ::
                d in g.candidates && g.candidates[d].owner == p.transition && g.candidates[d].sequence < x.sequence ==>
                  g.candidates[d].closed))
      && (forall j :: 0 <= j < |g.promotions| && g.promotions[j].transition == p.transition ==> j == i)
  {
    RunKeeps(Start(), es);
    var g := After(Start(), es);
    var p := g.promotions[i];
    assert PromotionOk(g, p);
    var x := g.candidates[p.candidate];
    assert Stands(g, p.candidate, x);
    PortVerdict(g, x.port);
    assert x.port in g.rejected <==> multiset(g.rejected)[x.port] > 0;
  }

  // Every accepted port was let in by exactly one promotion.
  lemma AcceptedWasPromoted(es: seq<Event>, c: CandidateId)
    requires IsRun(Start(), es)
    requires c in After(Start(), es).candidates && After(Start(), es).candidates[c].fate == Accepted
    ensures var g := After(Start(), es);
      exists i :: 0 <= i < |g.promotions| && g.promotions[i].candidate == c && g.promotions[i].succeeded
  {
    RunKeeps(Start(), es);
    var g := After(Start(), es);
    var i :| 0 <= i < |g.promotions| && g.promotions[i].candidate == c;
    assert PromotionOk(g, g.promotions[i]);
  }

  // After each event no head is expired, and none is live with its cleanup done.
  lemma HeadLaw(es: seq<Event>, t: TransitionId)
    requires IsRun(Start(), es) && t in After(Start(), es).transitions
    requires After(Start(), es).transitions[t].queue != []
    ensures var g := After(Start(), es); var head := g.transitions[t].queue[0];
      && head in g.candidates && !g.candidates[head].expired && !g.candidates[head].closed
      && !(g.candidates[head].live && g.transitions[t].cleanup)
  {
    RunKeeps(Start(), es);
    var g := After(Start(), es);
    assert HeadOk(g, t);
    assert Queues1(g, t, g.transitions[t].queue[0]);
  }

  // ---------------------------------------------------------------- progress

  // One candidate stands alone in the queue of the transition reserved for its source.
  ghost predicate Alone(g: Gate, t: TransitionId, c: CandidateId, source: Source, port: Port, identity: nat,
                        challenge: Challenge, live: bool, cleanup: bool) {
    && t in g.transitions && c in g.candidates
    && (var x := g.transitions[t];
        && x.source == source && Reserved(g, t) && !x.failed && x.queue == [c] && x.target == identity
        && x.cleanup == cleanup && x.pending == !cleanup)
    && (var y := g.candidates[c];
        && y.owner == t && y.port == port && y.identity == identity && y.challenge == challenge
        && y.live == live && !y.expired && !y.closed && y.listening)
  }

  // A port whose document the browser confirms does get in: it is offered, answers
  // its challenge, and, if it has a predecessor, that one's destroy resolves.
  lemma FreshPortGetsIn(g: Gate, port: Port, source: Source, origin: nat, identity: nat, previous: Option<Previous>,
                        challenge: Challenge, first: Env, later: Env)
    requires Inv(g) && port !in g.offered && source !in g.reservations && first.posts
    requires previous.Some? ==> previous.value.identity.Some? && previous.value.identity != Some(identity)
    requires later.current == Some(identity) && later.accepts && later.announces
    ensures var es := [Offer([port], true, Some(source), origin, Some(identity), previous, challenge, first),
                       Answer(g.nextCandidate, challenge, later)]
                      + if previous.Some? then [Cleaned(g.nextTransition, later)] else [];
      IsRun(g, es) && IsAccepted(After(g, es), port) && source !in After(g, es).reservations
  {
    hide Inv, Step, Linked, IsAccepted, IsRun, After;
    var offer := Offer([port], true, Some(source), origin, Some(identity), previous, challenge, first);
    var answer := Answer(g.nextCandidate, challenge, later);
    var rest := if previous.Some? then [Cleaned(g.nextTransition, later)] else [];
    StepKeeps(g, offer);
    OfferStarts(g, port, source, origin, identity, previous, challenge, first);
    var y := Step(g, offer);
    StepKeeps(y, answer);
    AnswerCounts(y, g.nextTransition, g.nextCandidate, source, port, identity, challenge, previous.None?, later);
    var z := Step(y, answer);
    if previous.Some? {
      StepKeeps(z, rest[0]);
      CleanedLetsIn(z, g.nextTransition, g.nextCandidate, source, port, identity, challenge, later);
      RunFirst(z, rest[0], []);
      NoEvents(Step(z, rest[0]));
      assert [rest[0]] + [] == rest;
    } else {
      NoEvents(z);
    }
    RunFirst(y, answer, rest);
    RunFirst(g, offer, [answer] + rest);
    assert [offer, answer] + rest == [offer] + ([answer] + rest);
  }

  lemma RunFirst(g: Gate, e: Event, es: seq<Event>)
    requires Inv(g) && Enabled(g, e)
    ensures Linked(g) && Inv(Step(g, e))
    ensures IsRun(Step(g, e), es) ==> IsRun(g, [e] + es) && After(g, [e] + es) == After(Step(g, e), es)
  {
    hide Inv, Step, Linked;
    StepKeeps(g, e);
    assert ([e] + es)[1..] == es;
  }

  lemma NoEvents(g: Gate)
    requires Inv(g)
    ensures IsRun(g, []) && After(g, []) == g
  {
  }

  lemma OfferStarts(g: Gate, port: Port, source: Source, origin: nat, identity: nat, previous: Option<Previous>,
                    challenge: Challenge, env: Env)
    requires Linked(g) && port !in g.offered && source !in g.reservations && env.posts
    requires previous.Some? ==> previous.value.identity.Some? && previous.value.identity != Some(identity)
    ensures var e := Offer([port], true, Some(source), origin, Some(identity), previous, challenge, env);
      Enabled(g, e)
      && Alone(Step(g, e), g.nextTransition, g.nextCandidate, source, port, identity, challenge, false, previous.None?)
  {
  }

  lemma AnswerCounts(g: Gate, t: TransitionId, c: CandidateId, source: Source, port: Port, identity: nat,
                     challenge: Challenge, cleanup: bool, env: Env)
    requires Linked(g) && Alone(g, t, c, source, port, identity, challenge, false, cleanup)
    requires env.current == Some(identity) && env.accepts && env.announces
    ensures var e := Answer(c, challenge, env);
      && Enabled(g, e)
      && (!cleanup ==> Alone(Step(g, e), t, c, source, port, identity, challenge, true, false))
      && (cleanup ==> IsAccepted(Step(g, e), port) && source !in Step(g, e).reservations)
  {
    var x := g.candidates[c];
    var y := SetCandidate(g.(heard := g.heard + {(c, challenge)}), c, x.(live := true, armed := false));
    if cleanup {
      HeadIsLetIn(y, t, c, source, port, identity, challenge, env);
    }
  }

  lemma CleanedLetsIn(g: Gate, t: TransitionId, c: CandidateId, source: Source, port: Port, identity: nat,
                      challenge: Challenge, env: Env)
    requires Linked(g) && Alone(g, t, c, source, port, identity, challenge, true, false)
    requires env.current == Some(identity) && env.accepts && env.announces
    ensures var e := Cleaned(t, env);
      Enabled(g, e) && IsAccepted(Step(g, e), port) && source !in Step(g, e).reservations
  {
    var z := SetTransition(g, t, g.transitions[t].(pending := false)).(resolved := g.resolved + {t});
    var y := SetTransition(z, t, z.transitions[t].(cleanup := true));
    HeadIsLetIn(y, t, c, source, port, identity, challenge, env);
  }

  lemma HeadIsLetIn(g: Gate, t: TransitionId, c: CandidateId, source: Source, port: Port, identity: nat,
                    challenge: Challenge, env: Env)
    requires Queued(g) && Alone(g, t, c, source, port, identity, challenge, true, true)
    requires env.current == Some(identity) && env.accepts && env.announces
    ensures IsAccepted(Promote(g, t, env), port) && source !in Promote(g, t, env).reservations
  {
    var z := Promote(g, t, env);
    assert z == AcceptHead(g, t, env);
    assert c in z.candidates && z.candidates[c].port == port && z.candidates[c].fate == Accepted;
  }
}
