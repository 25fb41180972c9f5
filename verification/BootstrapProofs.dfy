// What every event of the bootstrap gate keeps.
module BootstrapProofs {
  import opened Common
  import opened Bootstrap

  // --------------------------------------------------------------- invariants

  ghost predicate Tables(g: Gate) {
    && (forall s :: s in g.reservations ==> Reservation(g, s, g.reservations[s]))
    && (forall t :: t in g.transitions ==> t < g.nextTransition)
    && (forall c :: c in g.candidates ==> c < g.nextCandidate && OwnerOk(g, g.candidates[c]))
  }

  predicate Reservation(g: Gate, s: Source, t: TransitionId) {
    t in g.transitions && g.transitions[t].source == s && !g.transitions[t].failed
  }

  predicate OwnerOk(g: Gate, x: Candidate) {
    x.owner in g.transitions && x.sequence < g.transitions[x.owner].nextSequence
  }

  // Only the transition a source is reserved for has candidates waiting, in order.
  ghost predicate Queues(g: Gate) {
    && (forall t, c :: t in g.transitions && c in g.transitions[t].queue ==> Queues1(g, t, c))
    && (forall t, i, j :: t in g.transitions && 0 <= i < j < |g.transitions[t].queue| ==> InOrder(g, t, i, j))
    && (forall t :: t in g.transitions && !Reserved(g, t) ==> g.transitions[t].queue == [])
  }

  predicate Queues1(g: Gate, t: TransitionId, c: CandidateId) {
    && c in g.candidates && g.candidates[c].owner == t && g.candidates[c].fate == Waiting
    && (g.candidates[c].closed <==> g.candidates[c].expired)
  }

  predicate InOrder(g: Gate, t: TransitionId, i: int, j: int)
    requires t in g.transitions && 0 <= i < j < |g.transitions[t].queue|
  {
    var q := g.transitions[t].queue;
    q[i] in g.candidates && q[j] in g.candidates && g.candidates[q[i]].sequence < g.candidates[q[j]].sequence
  }

  // A candidate that is neither closed nor taken stands in its queue; one that is
  // closed or taken hears nothing and waits for no deadline.
  ghost predicate Standing(g: Gate) {
    forall c :: c in g.candidates ==> Stands(g, c, g.candidates[c])
  }

  predicate Stands(g: Gate, c: CandidateId, x: Candidate) {
    && (!x.closed && x.fate == Waiting ==> x.owner in g.transitions && c in g.transitions[x.owner].queue)
    && (x.closed || x.fate != Waiting ==> !x.armed && !x.listening)
    && (x.fate != Waiting ==> !x.closed)
  }

  // A live candidate has answered its own challenge; a finished cleanup has resolved.
  ghost predicate Answers(g: Gate) {
    && (forall c :: c in g.candidates && g.candidates[c].live ==> (c, g.candidates[c].challenge) in g.heard)
    && (forall t :: t in g.transitions && g.transitions[t].cleanup ==>
          g.transitions[t].previous.None? || t in g.resolved)
  }

  // Each port that was offered and is not in limbo is an open candidate's, accepted,
  // or rejected, and is rejected at most once.
  ghost predicate Ports(g: Gate, limbo: set<Port>) {
    && limbo <= g.offered
    && (forall c, d ::
          c in g.candidates && d in g.candidates && g.candidates[c].port == g.candidates[d].port ==> c == d)
    && (forall c :: c in g.candidates ==> g.candidates[c].port in g.offered && g.candidates[c].port !in limbo)
    && (forall p :: multiset(g.rejected)[p] == if Refused(g, limbo, p) then 1 else 0)
  }

  predicate Keeps(x: Candidate) {
    !x.closed && x.fate != Failed
  }

  ghost predicate Refused(g: Gate, limbo: set<Port>, p: Port) {
    p in g.offered && p !in limbo && forall c :: c in g.candidates && g.candidates[c].port == p ==>
      !Keeps(g.candidates[c])
  }

  // Every call of `accept` was for the earliest open candidate, live and of the
  // browser's current identity, after the cleanup, and the only one of its transition.
  ghost predicate Promotions(g: Gate) {
    && (forall i :: 0 <= i < |g.promotions| ==> PromotionOk(g, g.promotions[i]))
    && (forall i, j :: 0 <= i < j < |g.promotions| ==> g.promotions[i].transition != g.promotions[j].transition)
    && Taken(g)
  }

  ghost predicate PromotionOk(g: Gate, p: Promotion) {
    && p.transition in g.transitions && p.candidate in g.candidates
    && !Reserved(g, p.transition) && g.transitions[p.transition].cleanup
    && (var x := g.candidates[p.candidate];
        && x.owner == p.transition && x.live && x.identity == p.current
        && x.fate == (if p.succeeded then Accepted else Failed)
        && forall d :: d in g.candidates && g.candidates[d].owner == x.owner && g.candidates[d].sequence < x.sequence
             ==> g.candidates[d].closed)
  }

  ghost predicate Taken(g: Gate) {
    forall c :: c in g.candidates && g.candidates[c].fate != Waiting ==>
      exists i :: 0 <= i < |g.promotions| && g.promotions[i].candidate == c
  }

  // No head is expired, or live with its cleanup complete.
  ghost predicate HeadsOk(g: Gate) {
    forall t :: t in g.transitions ==> HeadOk(g, t)
  }

  predicate HeadOk(g: Gate, t: TransitionId)
    requires t in g.transitions
  {
    var q := g.transitions[t].queue;
    q != [] && q[0] in g.candidates ==>
      !g.candidates[q[0]].expired && !(g.candidates[q[0]].live && g.transitions[t].cleanup)
  }

  ghost predicate Core(g: Gate, limbo: set<Port>) {
    Tables(g) && Queues(g) && Standing(g) && Answers(g) && Ports(g, limbo) && Promotions(g)
  }

  ghost predicate Inv(g: Gate) {
    Core(g, {}) && HeadsOk(g)
  }

  lemma NewGateOk()
    ensures Inv(NEW_GATE)
  {
  }

  lemma CoreIsLinked(g: Gate, limbo: set<Port>)
    requires Core(g, limbo)
    ensures Linked(g)
  {
    forall t, c | t in g.transitions && c in g.transitions[t].queue ensures c in g.candidates {
      assert Queues1(g, t, c);
    }
    forall c | c in g.candidates ensures g.candidates[c].owner in g.transitions {
      assert OwnerOk(g, g.candidates[c]);
    }
  }

  // ------------------------------------------------------------------- ports

  lemma SameRefusal(g: Gate, z: Gate, limbo: set<Port>, p: Port)
    requires z.offered == g.offered
    requires forall c ::
      (c in z.candidates && z.candidates[c].port == p) <==> (c in g.candidates && g.candidates[c].port == p)
    requires forall c :: c in g.candidates && g.candidates[c].port == p ==>
      Keeps(z.candidates[c]) == Keeps(g.candidates[c])
    ensures Refused(z, limbo, p) == Refused(g, limbo, p)
  {
    hide Keeps;
  }

  lemma CloseKeepsPorts(g: Gate, c: CandidateId, limbo: set<Port>)
    requires Ports(g, limbo) && c in g.candidates && g.candidates[c].fate == Waiting
    ensures Ports(CloseCandidate(g, c), limbo)
  {
    var z := CloseCandidate(g, c);
    var x := g.candidates[c];
    if !x.closed {
      forall p ensures multiset(z.rejected)[p] == if Refused(z, limbo, p) then 1 else 0 {
        assert multiset(z.rejected)[p] == multiset(g.rejected)[p] + if p == x.port then 1 else 0;
        if p == x.port {
          assert Keeps(g.candidates[c]);
        } else {
          SameRefusal(g, z, limbo, p);
        }
      }
    }
  }

  lemma {:induction false} CloseEachKeepsPorts(g: Gate, cs: seq<CandidateId>, limbo: set<Port>)
    requires Ports(g, limbo) && forall c :: c in cs ==> c in g.candidates && g.candidates[c].fate == Waiting
    ensures Ports(CloseEach(g, cs), limbo)
    decreases |cs|
  {
    hide Ports;
    if cs != [] {
      CloseKeepsPorts(g, cs[0], limbo);
      CloseEachKeepsPorts(CloseCandidate(g, cs[0]), cs[1..], limbo);
    }
  }

  // Nothing that matters to the ports changed.
  lemma PortsSame(g: Gate, z: Gate, limbo: set<Port>)
    requires Ports(g, limbo) && z.offered == g.offered && z.rejected == g.rejected
    requires z.candidates.Keys == g.candidates.Keys
    requires forall c :: c in g.candidates ==>
      z.candidates[c].port == g.candidates[c].port && Keeps(z.candidates[c]) == Keeps(g.candidates[c])
    ensures Ports(z, limbo)
  {
    hide Keeps;
    assert forall c :: c in z.candidates <==> c in g.candidates;
    assert forall p :: Refused(z, limbo, p) == Refused(g, limbo, p);
  }

  lemma FailingKeepsPorts(g: Gate, z: Gate, c: CandidateId, limbo: set<Port>)
    requires Ports(g, limbo) && c in g.candidates && Keeps(g.candidates[c])
    requires z.offered == g.offered && z.rejected == g.rejected + [g.candidates[c].port]
    requires c in z.candidates && z.candidates == g.candidates[c := z.candidates[c]]
    requires z.candidates[c].port == g.candidates[c].port && !Keeps(z.candidates[c])
    ensures Ports(z, limbo)
  {
    var port := g.candidates[c].port;
    forall p ensures multiset(z.rejected)[p] == if Refused(z, limbo, p) then 1 else 0 {
      assert multiset(z.rejected)[p] == multiset(g.rejected)[p] + if p == port then 1 else 0;
      if p == port {
        assert !Refused(g, limbo, p);
      } else {
        SameRefusal(g, z, limbo, p);
      }
    }
  }

  lemma RejectKeepsPorts(g: Gate, z: Gate, port: Port, limbo: set<Port>)
    requires Ports(g, limbo) && port in limbo
    requires z == g.(rejected := g.rejected + [port])
    ensures Ports(z, limbo - {port})
  {
    forall p ensures multiset(z.rejected)[p] == if Refused(z, limbo - {port}, p) then 1 else 0 {
      assert multiset(z.rejected)[p] == multiset(g.rejected)[p] + if p == port then 1 else 0;
      if p != port {
        assert Refused(z, limbo - {port}, p) == Refused(g, limbo, p);
      }
    }
  }

  lemma EnqueueKeepsPorts(g: Gate, z: Gate, c: CandidateId, limbo: set<Port>)
    requires Ports(g, limbo) && c !in g.candidates && c in z.candidates
    requires z.offered == g.offered && z.rejected == g.rejected && z.candidates == g.candidates[c := z.candidates[c]]
    requires z.candidates[c].port in limbo && Keeps(z.candidates[c])
    ensures Ports(z, limbo - {z.candidates[c].port})
  {
    var port := z.candidates[c].port;
    forall p ensures Refused(z, limbo - {port}, p) == Refused(g, limbo, p) {
      if p == port {
        assert !Refused(z, limbo - {port}, p);
      } else {
        SameRefusal(g, z, limbo, p);
        assert p in limbo - {port} <==> p in limbo;
      }
    }
  }

  lemma OfferedKeepsPorts(g: Gate, ports: seq<Port>)
    requires Ports(g, {}) && forall p :: p in ports ==> p !in g.offered
    ensures var all := set p | p in ports; Ports(g.(offered := g.offered + all), all)
  {
    var all := set p | p in ports;
    var z := g.(offered := g.offered + all);
    assert forall p :: Refused(z, all, p) == Refused(g, {}, p);
  }

  lemma {:induction false} RejectAllKeepsPorts(g: Gate, ports: seq<Port>, limbo: set<Port>)
    requires Ports(g, limbo) && Distinct(ports) && (forall p :: p in ports ==> p in limbo)
    ensures Ports(RejectAll(g, ports), limbo - set p | p in ports)
    decreases |ports|
  {
    hide Ports;
    if ports == [] {
      assert g.rejected + [] == g.rejected;
      assert limbo - (set p | p in ports) == limbo;
    } else {
      var y := Reject(g, ports[0]);
      RejectKeepsPorts(g, y, ports[0], limbo);
      RejectAllKeepsPorts(y, ports[1..], limbo - {ports[0]});
      assert g.rejected + [ports[0]] + ports[1..] == g.rejected + ports;
      assert limbo - {ports[0]} - (set p | p in ports[1..]) == limbo - set p | p in ports;
    }
  }

  // ------------------------------------------------- closing a run of the queue

  ghost predicate Rest(g: Gate) {
    Tables(g) && Queues(g) && Standing(g) && Answers(g) && Promotions(g)
  }

  function Shut(x: Candidate): Candidate {
    if x.closed then x else x.(closed := true, armed := false, listening := false)
  }

  ghost predicate Closes(g: Gate, z: Gate, cs: set<CandidateId>) {
    && z.candidates.Keys == g.candidates.Keys
    && forall c :: c in g.candidates ==> z.candidates[c] == if c in cs then Shut(g.candidates[c]) else g.candidates[c]
  }

  function Ids(cs: seq<CandidateId>): set<CandidateId> {
    set c | c in cs
  }

  // The fields that closing candidates leaves alone.
  predicate SameHistory(g: Gate, z: Gate) {
    && z.nextTransition == g.nextTransition && z.nextCandidate == g.nextCandidate
    && z.resolved == g.resolved && z.heard == g.heard && z.offered == g.offered && z.promotions == g.promotions
  }

  lemma {:induction false} CloseEachEffect(g: Gate, cs: seq<CandidateId>)
    requires forall c :: c in cs ==> c in g.candidates
    ensures Closes(g, CloseEach(g, cs), Ids(cs)) && SameHistory(g, CloseEach(g, cs))
    decreases |cs|
  {
    if cs != [] {
      var y := CloseCandidate(g, cs[0]);
      assert Closes(g, y, {cs[0]});
      CloseEachEffect(y, cs[1..]);
      assert Ids(cs) == {cs[0]} + Ids(cs[1..]);
    }
  }

  // The first n candidates of t's queue are closed and dropped; t may change its
  // target, or fail and lose its reservation.
  ghost predicate Drops(g: Gate, z: Gate, t: TransitionId, n: nat) {
    && t in g.transitions && n <= |g.transitions[t].queue| && t in z.transitions
    && Closes(g, z, Ids(g.transitions[t].queue[..n])) && SameHistory(g, z)
    && z.transitions == g.transitions[t := z.transitions[t]]
    && z.transitions[t] == g.transitions[t].(queue := g.transitions[t].queue[n..], target := z.transitions[t].target,
                                             failed := z.transitions[t].failed)
    && (|| (z.reservations == g.reservations && (z.transitions[t].failed == g.transitions[t].failed || !Reserved(g, t)))
        || (Reserved(g, t) && n == |g.transitions[t].queue|
            && z.reservations == g.reservations - {g.transitions[t].source}))
  }

  lemma DropsTables(g: Gate, z: Gate, t: TransitionId, n: nat)
    requires Tables(g) && Drops(g, z, t, n)
    ensures Tables(z)
  {
    forall s | s in z.reservations ensures Reservation(z, s, z.reservations[s]) {
      assert Reservation(g, s, g.reservations[s]);
    }
    forall c | c in z.candidates ensures c < z.nextCandidate && OwnerOk(z, z.candidates[c]) {
      assert OwnerOk(g, g.candidates[c]);
    }
  }

  lemma DropsQueues(g: Gate, z: Gate, t: TransitionId, n: nat)
    requires Tables(g) && Queues(g) && Drops(g, z, t, n)
    ensures Queues(z)
  {
    DropsMembers(g, z, t, n);
    DropsOrder(g, z, t, n);
    forall u | u in z.transitions && !Reserved(z, u) ensures z.transitions[u].queue == [] {
      if Reserved(g, u) {
        assert Reservation(g, g.transitions[u].source, u);
        assert u == t;
      }
    }
  }

  lemma DropsMembers(g: Gate, z: Gate, t: TransitionId, n: nat)
    requires Queues(g) && Drops(g, z, t, n)
    ensures forall u, c :: u in z.transitions && c in z.transitions[u].queue ==> Queues1(z, u, c)
  {
    var q := g.transitions[t].queue;
    NotAmongDropped(g, t, n);
    forall u, c | u in z.transitions && c in z.transitions[u].queue ensures Queues1(z, u, c) {
      assert c in g.transitions[u].queue && Queues1(g, u, c);
      assert c !in Ids(q[..n]);
    }
  }

  lemma DropsOrder(g: Gate, z: Gate, t: TransitionId, n: nat)
    requires Queues(g) && Drops(g, z, t, n)
    ensures forall u, i, j :: u in z.transitions && 0 <= i < j < |z.transitions[u].queue| ==> InOrder(z, u, i, j)
  {
    forall u, i, j | u in z.transitions && 0 <= i < j < |z.transitions[u].queue| ensures InOrder(z, u, i, j) {
      var k := if u == t then n else 0;
      assert InOrder(g, u, i + k, j + k);
    }
  }

  // Whatever waits in a queue behind the dropped ones is not one of them.
  lemma NotAmongDropped(g: Gate, t: TransitionId, n: nat)
    requires Queues(g) && t in g.transitions && n <= |g.transitions[t].queue|
    ensures forall u, c ::
      (u in g.transitions && c in g.transitions[u].queue && (u == t ==> c in g.transitions[t].queue[n..]))
      ==> c !in Ids(g.transitions[t].queue[..n])
  {
    var q := g.transitions[t].queue;
    forall i, j | 0 <= i < n <= j < |q| ensures q[i] != q[j] {
      assert InOrder(g, t, i, j);
    }
    forall u, c | u in g.transitions && c in g.transitions[u].queue && (u == t ==> c in q[n..])
      ensures c !in q[..n]
    {
      assert Queues1(g, u, c);
      assert c in q[..n] ==> Queues1(g, t, c);
    }
  }

  lemma DropsStanding(g: Gate, z: Gate, t: TransitionId, n: nat)
    requires Queues(g) && Standing(g) && Drops(g, z, t, n)
    ensures Standing(z)
  {
    var q := g.transitions[t].queue;
    assert q == q[..n] + q[n..];
    forall c | c in z.candidates ensures Stands(z, c, z.candidates[c]) {
      assert Stands(g, c, g.candidates[c]);
      if c in q[..n] {
        assert Queues1(g, t, c);
      }
    }
  }

  lemma DropsAnswers(g: Gate, z: Gate, t: TransitionId, n: nat)
    requires Answers(g) && Drops(g, z, t, n)
    ensures Answers(z)
  {
  }

  lemma DropsPromotions(g: Gate, z: Gate, t: TransitionId, n: nat)
    requires Queues(g) && Promotions(g) && Drops(g, z, t, n)
    ensures Promotions(z)
  {
    forall i | 0 <= i < |z.promotions| ensures PromotionOk(z, z.promotions[i]) {
      var p := z.promotions[i];
      assert PromotionOk(g, p);
      assert p.candidate in g.transitions[t].queue ==> Queues1(g, t, p.candidate);
    }
  }

  lemma DropsRest(g: Gate, z: Gate, t: TransitionId, n: nat)
    requires Rest(g) && Drops(g, z, t, n)
    ensures Rest(z)
  {
    hide Tables, Queues, Standing, Answers, Promotions, Drops;
    DropsTables(g, z, t, n);
    DropsQueues(g, z, t, n);
    DropsStanding(g, z, t, n);
    DropsAnswers(g, z, t, n);
    DropsPromotions(g, z, t, n);
  }

  // ------------------------------------------------------- single candidates

  // A waiting candidate expires where it stands.
  lemma ExpireRest(g: Gate, c: CandidateId)
    requires Rest(g) && c in g.candidates && !g.candidates[c].closed && g.candidates[c].fate == Waiting
    ensures Rest(Expire(g, c))
  {
    var z := Expire(g, c);
    OneChanges(g, z, c);
    assert Stands(g, c, g.candidates[c]);
    assert Queues1(g, g.candidates[c].owner, c);
  }

  lemma LiveRest(g: Gate, c: CandidateId)
    requires Rest(g) && c in g.candidates && g.candidates[c].listening
    ensures Rest(SetCandidate(g, c, g.candidates[c].(live := true, armed := false))
                   .(heard := g.heard + {(c, g.candidates[c].challenge)}))
  {
    var z := SetCandidate(g, c, g.candidates[c].(live := true, armed := false))
               .(heard := g.heard + {(c, g.candidates[c].challenge)});
    assert Stands(g, c, g.candidates[c]);
    OneChanges(g, z, c);
  }

  lemma DisarmRest(g: Gate, c: CandidateId)
    requires Rest(g) && c in g.candidates
    ensures Rest(SetCandidate(g, c, g.candidates[c].(armed := false)))
  {
    var z := SetCandidate(g, c, g.candidates[c].(armed := false));
    assert Stands(g, c, g.candidates[c]);
    OneChanges(g, z, c);
  }

  // One candidate changes its flags; it keeps its place, and if it closes it expires.
  lemma OneChanges(g: Gate, z: Gate, c: CandidateId)
    requires Rest(g) && c in g.candidates && c in z.candidates && z.candidates == g.candidates[c := z.candidates[c]]
    requires z.transitions == g.transitions && z.reservations == g.reservations && z.promotions == g.promotions
    requires z.nextTransition == g.nextTransition && z.nextCandidate == g.nextCandidate && z.resolved == g.resolved
    requires g.heard <= z.heard
    requires var x, y := g.candidates[c], z.candidates[c];
      && y == x.(live := y.live, expired := y.expired, closed := y.closed, armed := y.armed, listening := y.listening)
      && (x.closed ==> y.closed) && (x.live ==> y.live) && (y.armed ==> x.armed) && (y.listening ==> x.listening)
      && ((y.closed == x.closed && y.expired == x.expired)
          || (x.fate == Waiting && y.closed && y.expired && !y.armed && !y.listening))
      && (y.live ==> (c, y.challenge) in z.heard)
    ensures Rest(z)
  {
    hide Promotions, Answers;
    OneTables(g, z, c);
    OneQueues(g, z, c);
    OneStanding(g, z, c);
    OnePromotions(g, z, c);
    OneAnswers(g, z, c);
  }

  lemma OneAnswers(g: Gate, z: Gate, c: CandidateId)
    requires Answers(g) && c in g.candidates && c in z.candidates && z.candidates == g.candidates[c := z.candidates[c]]
    requires z.transitions == g.transitions && z.resolved == g.resolved && g.heard <= z.heard
    requires z.candidates[c].live ==> (c, z.candidates[c].challenge) in z.heard
    ensures Answers(z)
  {
  }

  lemma OneTables(g: Gate, z: Gate, c: CandidateId)
    requires Tables(g) && c in g.candidates && c in z.candidates && z.candidates == g.candidates[c := z.candidates[c]]
    requires z.transitions == g.transitions && z.reservations == g.reservations
    requires z.nextTransition == g.nextTransition && z.nextCandidate == g.nextCandidate
    requires z.candidates[c].owner == g.candidates[c].owner && z.candidates[c].sequence == g.candidates[c].sequence
    ensures Tables(z)
  {
    assert forall x :: OwnerOk(z, x) == OwnerOk(g, x);
    assert forall s, t :: Reservation(z, s, t) == Reservation(g, s, t);
  }

  lemma OneQueues(g: Gate, z: Gate, c: CandidateId)
    requires Queues(g) && c in g.candidates && c in z.candidates && z.candidates == g.candidates[c := z.candidates[c]]
    requires z.transitions == g.transitions && z.reservations == g.reservations
    requires var x, y := g.candidates[c], z.candidates[c];
      && y.owner == x.owner && y.sequence == x.sequence && y.fate == x.fate
      && ((y.closed == x.closed && y.expired == x.expired) || (y.closed && y.expired))
    ensures Queues(z)
  {
    forall t, d | t in z.transitions && d in z.transitions[t].queue ensures Queues1(z, t, d) {
      assert Queues1(g, t, d);
    }
    forall t, i, j | t in z.transitions && 0 <= i < j < |z.transitions[t].queue| ensures InOrder(z, t, i, j) {
      assert InOrder(g, t, i, j);
    }
    assert forall t :: t in z.transitions ==> Reserved(z, t) == Reserved(g, t);
  }

  lemma OneStanding(g: Gate, z: Gate, c: CandidateId)
    requires Standing(g) && c in g.candidates && c in z.candidates && z.candidates == g.candidates[c := z.candidates[c]]
    requires z.transitions == g.transitions
    requires Stands(g, c, g.candidates[c]) ==> Stands(g, c, z.candidates[c])
    ensures Standing(z)
  {
    forall d | d in z.candidates ensures Stands(z, d, z.candidates[d]) {
      assert Stands(g, d, g.candidates[d]);
    }
  }

  lemma OnePromotions(g: Gate, z: Gate, c: CandidateId)
    requires Promotions(g) && c in g.candidates && c in z.candidates
    requires z.candidates == g.candidates[c := z.candidates[c]]
    requires z.transitions == g.transitions && z.reservations == g.reservations && z.promotions == g.promotions
    requires var x, y := g.candidates[c], z.candidates[c];
      && y.owner == x.owner && y.sequence == x.sequence && y.fate == x.fate && y.identity == x.identity
      && (x.closed ==> y.closed) && (x.live ==> y.live)
    ensures Promotions(z)
  {
    forall i | 0 <= i < |z.promotions| ensures PromotionOk(z, z.promotions[i]) {
      assert PromotionOk(g, z.promotions[i]);
    }
  }

  // --------------------------------------------------------- taking the head

  // The head is taken for `accept`, the others are closed, the transition is over.
  ghost predicate Takes(g: Gate, z: Gate, t: TransitionId, current: nat, ok: bool) {
    && t in g.transitions && Reserved(g, t) && g.transitions[t].queue != [] && g.transitions[t].cleanup
    && g.transitions[t].queue[0] in g.candidates && g.transitions[t].queue[0] in z.candidates && t in z.transitions
    && (var c := g.transitions[t].queue[0]; var x := g.candidates[c];
        && x.live && !x.expired && x.identity == current
        && Closes(SetCandidate(g, c, x.(armed := false, listening := false, fate := if ok then Accepted else Failed)),
                  z,
                  Ids(g.transitions[t].queue[1..]))
        && z.promotions == g.promotions + [Promotion(t, c, current, ok)])
    && z.transitions == g.transitions[t := g.transitions[t].(queue := [], failed := z.transitions[t].failed)]
    && z.reservations == g.reservations - {g.transitions[t].source}
    && z.nextTransition == g.nextTransition && z.nextCandidate == g.nextCandidate
    && z.resolved == g.resolved && z.heard == g.heard
  }

  // What the taking does to one candidate.
  lemma TakesEach(g: Gate, z: Gate, t: TransitionId, current: nat, ok: bool)
    requires Queues(g) && Takes(g, z, t, current, ok)
    ensures var q := g.transitions[t].queue; var c := q[0];
      && z.candidates.Keys == g.candidates.Keys && c !in q[1..]
      && g.candidates[c].owner == t && !g.candidates[c].closed && g.candidates[c].fate == Waiting
      && z.candidates[c]
         == g.candidates[c].(armed := false, listening := false, fate := if ok then Accepted else Failed)
      && (forall d :: d in q[1..] ==> d in g.candidates && z.candidates[d] == Shut(g.candidates[d]))
      && (forall d :: d in g.candidates && d !in q ==> z.candidates[d] == g.candidates[d])
      && (forall d :: d in g.candidates ==> SameTags(g.candidates[d], z.candidates[d]))
  {
    var q := g.transitions[t].queue;
    assert Queues1(g, t, q[0]);
    forall j | 1 <= j < |q| ensures q[j] != q[0] {
      assert InOrder(g, t, 0, j);
    }
    assert q == [q[0]] + q[1..];
    forall d | d in q[1..] ensures d in g.candidates {
      assert Queues1(g, t, d);
    }
  }

  // What never changes about a candidate.
  predicate SameTags(x: Candidate, y: Candidate) {
    && y.owner == x.owner && y.sequence == x.sequence && y.port == x.port && y.identity == x.identity
    && y.challenge == x.challenge && y.live == x.live && y.expired == x.expired
  }

  lemma TakesTables(g: Gate, z: Gate, t: TransitionId, current: nat, ok: bool)
    requires Tables(g) && Queues(g) && Takes(g, z, t, current, ok)
    ensures Tables(z)
  {
    TakesEach(g, z, t, current, ok);
    hide Queues, Closes;
    forall s | s in z.reservations ensures Reservation(z, s, z.reservations[s]) {
      assert Reservation(g, s, g.reservations[s]);
    }
    forall c | c in z.candidates ensures c < z.nextCandidate && OwnerOk(z, z.candidates[c]) {
      assert OwnerOk(g, g.candidates[c]) && SameTags(g.candidates[c], z.candidates[c]);
    }
  }

  lemma TakesQueues(g: Gate, z: Gate, t: TransitionId, current: nat, ok: bool)
    requires Tables(g) && Queues(g) && Takes(g, z, t, current, ok)
    ensures Queues(z)
  {
    TakesEach(g, z, t, current, ok);
    hide Closes;
    forall u, c | u in z.transitions && c in z.transitions[u].queue ensures Queues1(z, u, c) {
      assert Queues1(g, u, c);
      assert c in g.transitions[t].queue ==> Queues1(g, t, c);
    }
    forall u, i, j | u in z.transitions && 0 <= i < j < |z.transitions[u].queue| ensures InOrder(z, u, i, j) {
      assert InOrder(g, u, i, j);
    }
    forall u | u in z.transitions && !Reserved(z, u) ensures z.transitions[u].queue == [] {
      if Reserved(g, u) {
        assert Reservation(g, g.transitions[u].source, u);
        assert u == t;
      }
    }
  }

  lemma TakesStanding(g: Gate, z: Gate, t: TransitionId, current: nat, ok: bool)
    requires Queues(g) && Standing(g) && Takes(g, z, t, current, ok)
    ensures Standing(z)
  {
    TakesEach(g, z, t, current, ok);
    hide Closes;
    var q := g.transitions[t].queue;
    assert q == [q[0]] + q[1..];
    forall c | c in z.candidates ensures Stands(z, c, z.candidates[c]) {
      assert Stands(g, c, g.candidates[c]);
      if c in q[1..] {
        assert Queues1(g, t, c);
      }
    }
  }

  lemma TakesAnswers(g: Gate, z: Gate, t: TransitionId, current: nat, ok: bool)
    requires Queues(g) && Answers(g) && Takes(g, z, t, current, ok)
    ensures Answers(z)
  {
    TakesEach(g, z, t, current, ok);
    hide Closes, Queues;
    assert forall c :: c in g.candidates ==> SameTags(g.candidates[c], z.candidates[c]);
  }

  // The earlier candidates of a transition are closed when its head is taken.
  lemma HeadIsEarliest(g: Gate, t: TransitionId, d: CandidateId)
    requires Tables(g) && Queues(g) && Standing(g) && Promotions(g) && t in g.transitions && Reserved(g, t)
    requires g.transitions[t].queue != [] && g.transitions[t].queue[0] in g.candidates
    requires d in g.candidates && g.candidates[d].owner == t
    requires g.candidates[d].sequence < g.candidates[g.transitions[t].queue[0]].sequence
    ensures g.candidates[d].closed
  {
    assert Stands(g, d, g.candidates[d]);
    var q := g.transitions[t].queue;
    forall j | 0 < j < |q| ensures q[j] != d {
      assert InOrder(g, t, 0, j);
    }
    forall i | 0 <= i < |g.promotions| ensures g.promotions[i].candidate != d {
      assert PromotionOk(g, g.promotions[i]);
    }
  }

  lemma TakesPromotions(g: Gate, z: Gate, t: TransitionId, current: nat, ok: bool)
    requires Tables(g) && Queues(g) && Standing(g) && Promotions(g) && Takes(g, z, t, current, ok)
    ensures Promotions(z)
  {
    hide Takes, Closes, Queues, Tables, Standing, PromotionOk, Taken;
    NewPromotion(g, z, t, current, ok);
    AllTaken(g, z, t, current, ok);
    var n := |g.promotions|;
    forall i | 0 <= i < n ensures PromotionOk(z, z.promotions[i]) && z.promotions[i].transition != t {
      TakesOthers(g, z, t, current, ok, g.promotions[i]);
    }
  }

  lemma NewPromotion(g: Gate, z: Gate, t: TransitionId, current: nat, ok: bool)
    requires Tables(g) && Queues(g) && Standing(g) && Promotions(g) && Takes(g, z, t, current, ok)
    ensures |z.promotions| == |g.promotions| + 1 && z.promotions[..|g.promotions|] == g.promotions
    ensures PromotionOk(z, z.promotions[|g.promotions|]) && z.promotions[|g.promotions|].transition == t
  {
    TakesEach(g, z, t, current, ok);
    var c := g.transitions[t].queue[0];
    forall d | d in z.candidates && z.candidates[d].owner == t && z.candidates[d].sequence < z.candidates[c].sequence
      ensures z.candidates[d].closed
    {
      HeadIsEarliest(g, t, d);
    }
    hide Closes, Queues, Tables, Standing;
  }

  lemma AllTaken(g: Gate, z: Gate, t: TransitionId, current: nat, ok: bool)
    requires Queues(g) && Taken(g) && Takes(g, z, t, current, ok)
    ensures Taken(z)
  {
    TakesEach(g, z, t, current, ok);
    hide Closes, Queues;
    var c := g.transitions[t].queue[0];
    var n := |g.promotions|;
    forall d | d in z.candidates && z.candidates[d].fate != Waiting
      ensures exists i :: 0 <= i < |z.promotions| && z.promotions[i].candidate == d
    {
      if d == c {
        assert z.promotions[n].candidate == c;
      } else {
        assert g.candidates[d].fate != Waiting;
        var i :| 0 <= i < n && g.promotions[i].candidate == d;
        assert z.promotions[i].candidate == d;
      }
    }
  }

  lemma TakesOthers(g: Gate, z: Gate, t: TransitionId, current: nat, ok: bool, p: Promotion)
    requires Queues(g) && Takes(g, z, t, current, ok) && PromotionOk(g, p)
    ensures PromotionOk(z, p) && p.transition != t
  {
    TakesEach(g, z, t, current, ok);
    hide Closes;
    assert p.candidate in g.transitions[t].queue ==> Queues1(g, t, p.candidate);
    forall d | d in z.candidates && z.candidates[d].owner == z.candidates[p.candidate].owner
        && z.candidates[d].sequence < z.candidates[p.candidate].sequence
      ensures z.candidates[d].closed
    {
      assert SameTags(g.candidates[d], z.candidates[d])
        && SameTags(g.candidates[p.candidate], z.candidates[p.candidate]);
    }
  }

  lemma TakesRest(g: Gate, z: Gate, t: TransitionId, current: nat, ok: bool)
    requires Rest(g) && Takes(g, z, t, current, ok)
    ensures Rest(z)
  {
    hide Tables, Queues, Standing, Answers, Promotions, Takes;
    TakesTables(g, z, t, current, ok);
    TakesQueues(g, z, t, current, ok);
    TakesStanding(g, z, t, current, ok);
    TakesAnswers(g, z, t, current, ok);
    TakesPromotions(g, z, t, current, ok);
  }

  // ----------------------------------------------------- newcomers and flags

  lemma EnqueueRest(g: Gate, t: TransitionId, port: Port, origin: nat, identity: nat, challenge: Challenge)
    requires Rest(g) && t in g.transitions && Reserved(g, t)
    ensures Rest(Enqueue(g, t, port, origin, identity, challenge))
  {
    var z := Enqueue(g, t, port, origin, identity, challenge);
    hide Tables, Queues, Standing, Answers, Promotions, Enqueue;
    EnqueueTables(g, z, t, port, origin, identity, challenge);
    EnqueueQueues(g, z, t, port, origin, identity, challenge);
    EnqueueStanding(g, z, t, port, origin, identity, challenge);
    EnqueueAnswers(g, z, t, port, origin, identity, challenge);
    EnqueuePromotions(g, z, t, port, origin, identity, challenge);
  }

  lemma EnqueueTables(g: Gate, z: Gate, t: TransitionId, port: Port, origin: nat, identity: nat, challenge: Challenge)
    requires Tables(g) && t in g.transitions && z == Enqueue(g, t, port, origin, identity, challenge)
    ensures Tables(z)
  {
    forall s | s in z.reservations ensures Reservation(z, s, z.reservations[s]) {
      assert Reservation(g, s, g.reservations[s]);
    }
    forall c | c in z.candidates ensures c < z.nextCandidate && OwnerOk(z, z.candidates[c]) {
      assert c in g.candidates ==> OwnerOk(g, g.candidates[c]);
    }
  }

  lemma EnqueueQueues(g: Gate, z: Gate, t: TransitionId, port: Port, origin: nat, identity: nat, challenge: Challenge)
    requires Tables(g) && Queues(g) && t in g.transitions && Reserved(g, t)
    requires z == Enqueue(g, t, port, origin, identity, challenge)
    ensures Queues(z)
  {
    assert g.nextCandidate !in g.candidates;
    forall u, c | u in z.transitions && c in z.transitions[u].queue ensures Queues1(z, u, c) {
      assert c == g.nextCandidate || Queues1(g, u, c);
    }
    forall u, i, j | u in z.transitions && 0 <= i < j < |z.transitions[u].queue| ensures InOrder(z, u, i, j) {
      if u == t && j == |g.transitions[t].queue| {
        var c := g.transitions[t].queue[i];
        assert Queues1(g, t, c) && OwnerOk(g, g.candidates[c]);
      } else {
        assert InOrder(g, u, i, j);
      }
    }
    assert forall u :: u in z.transitions ==> Reserved(z, u) == Reserved(g, u);
  }

  lemma EnqueueStanding(g: Gate, z: Gate, t: TransitionId, port: Port, origin: nat, identity: nat, challenge: Challenge)
    requires Tables(g) && Standing(g) && t in g.transitions && z == Enqueue(g, t, port, origin, identity, challenge)
    ensures Standing(z)
  {
    assert g.nextCandidate !in g.candidates;
    forall c | c in z.candidates ensures Stands(z, c, z.candidates[c]) {
      assert c in g.candidates ==> Stands(g, c, g.candidates[c]);
    }
  }

  lemma EnqueueAnswers(g: Gate, z: Gate, t: TransitionId, port: Port, origin: nat, identity: nat, challenge: Challenge)
    requires Tables(g) && Answers(g) && t in g.transitions && z == Enqueue(g, t, port, origin, identity, challenge)
    ensures Answers(z)
  {
  }

  lemma EnqueuePromotions(g: Gate, z: Gate, t: TransitionId, port: Port, origin: nat, identity: nat,
      challenge: Challenge)
    requires Tables(g) && Promotions(g) && t in g.transitions && Reserved(g, t)
    requires z == Enqueue(g, t, port, origin, identity, challenge)
    ensures Promotions(z)
  {
    assert g.nextCandidate !in g.candidates;
    forall i | 0 <= i < |z.promotions| ensures PromotionOk(z, z.promotions[i]) {
      assert PromotionOk(g, g.promotions[i]);
    }
  }

  function Begin(g: Gate, source: Source, previous: Option<nat>, identity: nat): Gate {
    var t := g.nextTransition;
    SetTransition(g, t, Transition(source, previous, identity, previous.None?, previous.Some?, [], 0, false))
      .(reservations := g.reservations[source := t], nextTransition := t + 1)
  }

  lemma BeginRest(g: Gate, source: Source, previous: Option<nat>, identity: nat)
    requires Rest(g) && source !in g.reservations
    ensures Rest(Begin(g, source, previous, identity))
  {
    var z := Begin(g, source, previous, identity);
    BeginTables(g, z, source, previous, identity);
    BeginQueues(g, z, source, previous, identity);
    BeginOthers(g, z, source, previous, identity);
  }

  lemma BeginTables(g: Gate, z: Gate, source: Source, previous: Option<nat>, identity: nat)
    requires Tables(g) && source !in g.reservations && z == Begin(g, source, previous, identity)
    ensures Tables(z)
  {
    assert g.nextTransition !in g.transitions;
    forall s | s in z.reservations ensures Reservation(z, s, z.reservations[s]) {
      assert s != source ==> Reservation(g, s, g.reservations[s]);
    }
    forall c | c in z.candidates ensures c < z.nextCandidate && OwnerOk(z, z.candidates[c]) {
      assert OwnerOk(g, g.candidates[c]);
    }
  }

  lemma BeginQueues(g: Gate, z: Gate, source: Source, previous: Option<nat>, identity: nat)
    requires Tables(g) && Queues(g) && source !in g.reservations && z == Begin(g, source, previous, identity)
    ensures Queues(z)
  {
    assert g.nextTransition !in g.transitions;
    forall u, c | u in z.transitions && c in z.transitions[u].queue ensures Queues1(z, u, c) {
      assert Queues1(g, u, c);
    }
    forall u, i, j | u in z.transitions && 0 <= i < j < |z.transitions[u].queue| ensures InOrder(z, u, i, j) {
      assert InOrder(g, u, i, j);
    }
    assert forall u :: u in g.transitions ==> Reserved(z, u) == Reserved(g, u);
  }

  lemma BeginOthers(g: Gate, z: Gate, source: Source, previous: Option<nat>, identity: nat)
    requires Tables(g) && Standing(g) && Answers(g) && Promotions(g) && source !in g.reservations
    requires z == Begin(g, source, previous, identity)
    ensures Standing(z) && Answers(z) && Promotions(z)
  {
    assert g.nextTransition !in g.transitions;
    forall c | c in z.candidates ensures Stands(z, c, z.candidates[c]) {
      assert Stands(g, c, g.candidates[c]);
    }
    forall i | 0 <= i < |z.promotions| ensures PromotionOk(z, z.promotions[i]) {
      assert PromotionOk(g, g.promotions[i]);
    }
  }

  // A transition changes its flags or target; a cleanup completes only once resolved.
  lemma FlagsRest(g: Gate, z: Gate, t: TransitionId)
    requires Rest(g) && t in g.transitions && t in z.transitions
    requires z.transitions == g.transitions[t := z.transitions[t]]
    requires var x, y := g.transitions[t], z.transitions[t];
      && y == x.(cleanup := y.cleanup, pending := y.pending, target := y.target) && (x.cleanup ==> y.cleanup)
      && (y.cleanup && !x.cleanup ==> t in z.resolved)
    requires z.candidates == g.candidates && z.reservations == g.reservations && z.promotions == g.promotions
    requires z.nextTransition == g.nextTransition && z.nextCandidate == g.nextCandidate
    requires g.resolved <= z.resolved && z.heard == g.heard
    ensures Rest(z)
  {
    FlagsTables(g, z, t);
    FlagsQueues(g, z, t);
    FlagsOthers(g, z, t);
  }

  lemma FlagsTables(g: Gate, z: Gate, t: TransitionId)
    requires Tables(g) && t in g.transitions && t in z.transitions
    requires z.transitions == g.transitions[t := z.transitions[t]]
    requires z.transitions[t].source == g.transitions[t].source
    requires z.transitions[t].nextSequence == g.transitions[t].nextSequence
    requires z.transitions[t].failed == g.transitions[t].failed
    requires z.candidates == g.candidates && z.reservations == g.reservations
    requires z.nextTransition == g.nextTransition && z.nextCandidate == g.nextCandidate
    ensures Tables(z)
  {
    assert forall s, u :: Reservation(z, s, u) == Reservation(g, s, u);
    assert forall x :: OwnerOk(z, x) == OwnerOk(g, x);
  }

  lemma FlagsQueues(g: Gate, z: Gate, t: TransitionId)
    requires Queues(g) && t in g.transitions && t in z.transitions
    requires z.transitions == g.transitions[t := z.transitions[t]]
    requires z.transitions[t].source == g.transitions[t].source && z.transitions[t].queue == g.transitions[t].queue
    requires z.candidates == g.candidates && z.reservations == g.reservations
    ensures Queues(z)
  {
    forall u, c | u in z.transitions && c in z.transitions[u].queue ensures Queues1(z, u, c) {
      assert Queues1(g, u, c);
    }
    forall u, i, j | u in z.transitions && 0 <= i < j < |z.transitions[u].queue| ensures InOrder(z, u, i, j) {
      assert InOrder(g, u, i, j);
    }
    assert forall u :: u in z.transitions ==> Reserved(z, u) == Reserved(g, u);
  }

  lemma FlagsOthers(g: Gate, z: Gate, t: TransitionId)
    requires Standing(g) && Answers(g) && Promotions(g)
    requires t in g.transitions && t in z.transitions && z.transitions == g.transitions[t := z.transitions[t]]
    requires var x, y := g.transitions[t], z.transitions[t];
      && y == x.(cleanup := y.cleanup, pending := y.pending, target := y.target) && (x.cleanup ==> y.cleanup)
      && (y.cleanup && !x.cleanup ==> t in z.resolved)
    requires z.candidates == g.candidates && z.reservations == g.reservations && z.promotions == g.promotions
    requires g.resolved <= z.resolved && z.heard == g.heard
    ensures Standing(z) && Answers(z) && Promotions(z)
  {
    forall c | c in z.candidates ensures Stands(z, c, z.candidates[c]) {
      assert Stands(g, c, g.candidates[c]);
    }
    forall i | 0 <= i < |z.promotions| ensures PromotionOk(z, z.promotions[i]) {
      assert PromotionOk(g, g.promotions[i]);
    }
  }

  // ------------------------------------------------------------- the heads

  ghost predicate HeadsExcept(g: Gate, t: TransitionId) {
    forall u :: u in g.transitions && u != t ==> HeadOk(g, u)
  }

  // Only t's own candidates become live or expired.
  lemma HeadsFrame(g: Gate, z: Gate, t: TransitionId)
    requires Queues(g) && HeadsExcept(g, t) && g.candidates.Keys <= z.candidates.Keys
    requires forall u :: u in z.transitions && u != t ==> u in g.transitions
    requires forall u :: u in z.transitions && u != t ==> z.transitions[u].queue == g.transitions[u].queue
    requires forall u :: u in z.transitions && u != t ==> z.transitions[u].cleanup == g.transitions[u].cleanup
    requires forall c :: c in g.candidates && g.candidates[c].owner != t ==>
      z.candidates[c].live == g.candidates[c].live && z.candidates[c].expired == g.candidates[c].expired
    ensures HeadsExcept(z, t)
  {
    forall u | u in z.transitions && u != t ensures HeadOk(z, u) {
      assert HeadOk(g, u);
      var q := g.transitions[u].queue;
      if q != [] {
        assert Queues1(g, u, q[0]);
      }
    }
  }

  lemma DropsHeads(g: Gate, z: Gate, t: TransitionId, n: nat)
    requires Queues(g) && HeadsExcept(g, t) && Drops(g, z, t, n)
    ensures HeadsExcept(z, t)
  {
    forall c | c in g.candidates
      ensures z.candidates[c].live == g.candidates[c].live && z.candidates[c].expired == g.candidates[c].expired
    {
      assert z.candidates[c] == g.candidates[c] || z.candidates[c] == Shut(g.candidates[c]);
    }
    hide Queues, HeadOk, Closes;
    HeadsFrame(g, z, t);
  }
}
