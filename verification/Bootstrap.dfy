// The bootstrap gate of a page bridge: competing ports answer a challenge, and the
// first live one of the browser's current document is let in, after its predecessor
// has been taken down.
module Bootstrap {
  import opened Common

  type Source = nat
  type Port = nat
  type TransitionId = nat
  type CandidateId = nat
  type Challenge = nat

  // Frame and document id together; absent when the browser cannot name both.
  type Identity = Option<nat>

  // What became of a candidate taken off the queue to be accepted.
  datatype Fate = Waiting | Accepted | Failed

  datatype Candidate = Candidate(
    owner: TransitionId, sequence: nat, port: Port, origin: nat, identity: nat, challenge: Challenge,
    live: bool, expired: bool, closed: bool, armed: bool, listening: bool, fate: Fate)

  // `pending` while the promise of `destroy(previous)` is unsettled.
  datatype Transition = Transition(
    source: Source, previous: Option<nat>, target: nat, cleanup: bool, pending: bool,
    queue: seq<CandidateId>, nextSequence: nat, failed: bool)

  // A call of `accept`, with the browser's identity at that moment.
  datatype Promotion = Promotion(transition: TransitionId, candidate: CandidateId, current: nat, succeeded: bool)

  // `resolved`, `heard`, `offered`, `rejected` and `promotions` are history.
  datatype Gate = Gate(
    reservations: map<Source, TransitionId>,
    transitions: map<TransitionId, Transition>,
    candidates: map<CandidateId, Candidate>,
    nextTransition: TransitionId,
    nextCandidate: CandidateId,
    resolved: set<TransitionId>,
    heard: set<(CandidateId, Challenge)>,
    offered: set<Port>,
    rejected: seq<Port>,
    promotions: seq<Promotion>)

  const NEW_GATE := Gate(map[], map[], map[], 0, 0, {}, {}, {}, [], [])

  // What the injected effects do during one event.
  datatype Env = Env(current: Identity, accepts: bool, announces: bool, posts: bool)

  datatype Previous = Previous(context: nat, identity: Identity)

  datatype Event =
    | Offer(ports: seq<Port>, plain: bool, source: Option<Source>, origin: nat, identity: Identity,
            previous: Option<Previous>, challenge: Challenge, env: Env)
    | Answer(candidate: CandidateId, challenge: Challenge, env: Env)
    | Deadline(candidate: CandidateId, env: Env)
    | Cleaned(transition: TransitionId, env: Env)
    | CleanupFailed(transition: TransitionId)

  // ------------------------------------------------------------ primitives

  function SetCandidate(g: Gate, c: CandidateId, x: Candidate): Gate {
    g.(candidates := g.candidates[c := x])
  }

  function SetTransition(g: Gate, t: TransitionId, x: Transition): Gate {
    g.(transitions := g.transitions[t := x])
  }

  function Reject(g: Gate, p: Port): Gate {
    g.(rejected := g.rejected + [p])
  }

  function CloseCandidate(g: Gate, c: CandidateId): Gate
    requires c in g.candidates
  {
    var x := g.candidates[c];
    if x.closed then g
    else Reject(SetCandidate(g, c, x.(closed := true, armed := false, listening := false)), x.port)
  }

  function CloseEach(g: Gate, cs: seq<CandidateId>): (z: Gate)
    requires forall c :: c in cs ==> c in g.candidates
    ensures z.candidates.Keys == g.candidates.Keys && z.transitions == g.transitions && z.reservations == g.reservations
    decreases |cs|
  {
    if cs == [] then g else CloseEach(CloseCandidate(g, cs[0]), cs[1..])
  }

  // `closeCandidates`
  function CloseCandidates(g: Gate, t: TransitionId): Gate
    requires t in g.transitions && forall c :: c in g.transitions[t].queue ==> c in g.candidates
  {
    var z := CloseEach(g, g.transitions[t].queue);
    SetTransition(z, t, z.transitions[t].(queue := []))
  }

  predicate Reserved(g: Gate, t: TransitionId)
    requires t in g.transitions
  {
    var s := g.transitions[t].source;
    s in g.reservations && g.reservations[s] == t
  }

  // `failTransition`
  function FailTransition(g: Gate, t: TransitionId): Gate
    requires t in g.transitions && forall c :: c in g.transitions[t].queue ==> c in g.candidates
  {
    var x := g.transitions[t];
    if x.failed then g
    else
      var z := CloseCandidates(SetTransition(g, t, x.(failed := true)), t);
      if Reserved(g, t) then z.(reservations := z.reservations - {x.source}) else z
  }

  function Shift(g: Gate, t: TransitionId): Gate
    requires t in g.transitions && g.transitions[t].queue != []
  {
    SetTransition(g, t, g.transitions[t].(queue := g.transitions[t].queue[1..]))
  }

  predicate Queued(g: Gate) {
    forall t, c :: t in g.transitions && c in g.transitions[t].queue ==> c in g.candidates
  }

  // The head leaves the queue and `accept` is called on its port.
  function AcceptHead(g: Gate, t: TransitionId, env: Env): Gate
    requires t in g.transitions && g.transitions[t].queue != [] && Queued(g) && env.current.Some?
  {
    var c := g.transitions[t].queue[0];
    var x := g.candidates[c];
    var ok := env.accepts && env.announces;
    var taken := SetCandidate(Shift(g, t), c,
      x.(armed := false, listening := false, fate := if ok then Accepted else Failed));
    var logged := taken.(promotions := taken.promotions + [Promotion(t, c, env.current.value, ok)]);
    if ok then
      var z := CloseCandidates(logged, t);
      z.(reservations := z.reservations - {z.transitions[t].source})
    else FailTransition(Reject(logged, x.port), t)
  }

  // `tryPromote`
  function Promote(g: Gate, t: TransitionId, env: Env): Gate
    requires t in g.transitions && Queued(g)
    decreases |g.transitions[t].queue|
  {
    var x := g.transitions[t];
    if x.failed || !Reserved(g, t) || x.queue == [] then g
    else
      var head := g.candidates[x.queue[0]];
      if head.expired then Promote(CloseCandidate(Shift(g, t), x.queue[0]), t, env)
      else if !head.live || !x.cleanup then g
      else if env.current.None? then FailTransition(g, t)
      else if env.current.value != x.target then
        var z := CloseCandidates(g, t);
        SetTransition(z, t, z.transitions[t].(target := env.current.value))
      else if head.identity != x.target then Promote(CloseCandidate(Shift(g, t), x.queue[0]), t, env)
      else AcceptHead(g, t, env)
  }

  // Queues the port, arms its deadline and sends it the probe.
  function Enqueue(g: Gate, t: TransitionId, port: Port, origin: nat, identity: nat, challenge: Challenge): Gate
    requires t in g.transitions
  {
    var x := g.transitions[t];
    var c := g.nextCandidate;
    var y := Candidate(t, x.nextSequence, port, origin, identity, challenge, false, false, false, true, true, Waiting);
    SetTransition(SetCandidate(g, c, y), t, x.(queue := x.queue + [c], nextSequence := x.nextSequence + 1))
      .(nextCandidate := c + 1)
  }

  function Expire(g: Gate, c: CandidateId): Gate
    requires c in g.candidates
  {
    CloseCandidate(SetCandidate(g, c, g.candidates[c].(expired := true)), c)
  }

  // `addCandidate`
  function AddCandidate(g: Gate, t: TransitionId, port: Port, origin: nat, identity: nat, challenge: Challenge,
      env: Env): Gate
    requires t in g.transitions && Queued(g)
  {
    var z := Enqueue(g, t, port, origin, identity, challenge);
    if env.posts then z else Promote(Expire(z, g.nextCandidate), t, env)
  }

  // `startTransition`
  function StartTransition(g: Gate, source: Source, port: Port, origin: nat, identity: nat,
                           previous: Option<nat>, challenge: Challenge, env: Env): Gate
    requires Queued(g)
  {
    var t := g.nextTransition;
    var x := Transition(source, previous, identity, previous.None?, previous.Some?, [], 0, false);
    var z := SetTransition(g, t, x).(reservations := g.reservations[source := t], nextTransition := t + 1);
    AddCandidate(z, t, port, origin, identity, challenge, env)
  }

  function RejectAll(g: Gate, ports: seq<Port>): Gate {
    g.(rejected := g.rejected + ports)
  }

  predicate AnyLive(g: Gate, t: TransitionId)
    requires t in g.transitions && Queued(g)
  {
    exists c :: c in g.transitions[t].queue && g.candidates[c].live
  }

  // A port of another document: the candidates so far are closed.
  function Supersede(g: Gate, t: TransitionId, port: Port, origin: nat, identity: nat, challenge: Challenge,
      env: Env): Gate
    requires t in g.transitions && Queued(g)
  {
    var z := CloseCandidates(g, t);
    AddCandidate(SetTransition(z, t, z.transitions[t].(target := identity)), t, port, origin, identity, challenge, env)
  }

  // The message listener.
  function Receive(g: Gate, e: Event): Gate
    requires e.Offer? && Queued(g) && forall s :: s in g.reservations ==> g.reservations[s] in g.transitions
  {
    var seen := g.(offered := g.offered + set p | p in e.ports);
    if !e.plain || |e.ports| != 1 || e.source.None? || e.identity.None? then RejectAll(seen, e.ports)
    else
      var port, source, identity := e.ports[0], e.source.value, e.identity.value;
      if source in g.reservations then
        var t := g.reservations[source];
        if g.transitions[t].target == identity then
          if AnyLive(seen, t) then Reject(seen, port)
          else AddCandidate(seen, t, port, e.origin, identity, e.challenge, e.env)
        else Supersede(seen, t, port, e.origin, identity, e.challenge, e.env)
      else if e.previous.Some? && (e.previous.value.identity.None? || e.previous.value.identity == e.identity)
      then Reject(seen, port)
      else
        StartTransition(seen, source, port, e.origin, identity,
                        if e.previous.Some? then Some(e.previous.value.context) else None, e.challenge, e.env)
  }

  // -------------------------------------------------------------- one event

  predicate Distinct(ports: seq<Port>) {
    forall i, j :: 0 <= i < j < |ports| ==> ports[i] != ports[j]
  }

  // A port is transferred once.
  predicate Enabled(g: Gate, e: Event) {
    match e
    case Offer(ports, _, _, _, _, _, _, _) => Distinct(ports) && forall p :: p in ports ==> p !in g.offered
    case Answer(c, _, _) => c in g.candidates && g.candidates[c].listening
    case Deadline(c, _) => c in g.candidates && g.candidates[c].armed
    case Cleaned(t, _) => t in g.transitions && g.transitions[t].pending
    case CleanupFailed(t) => t in g.transitions && g.transitions[t].pending
  }

  predicate Linked(g: Gate) {
    && Queued(g)
    && (forall s :: s in g.reservations ==> g.reservations[s] in g.transitions)
    && (forall c :: c in g.candidates ==> g.candidates[c].owner in g.transitions)
  }

  function Answered(g: Gate, c: CandidateId, challenge: Challenge, env: Env): Gate
    requires Linked(g) && c in g.candidates
  {
    var x := g.candidates[c];
    var z := g.(heard := g.heard + {(c, challenge)});
    if x.expired || challenge != x.challenge then z
    else Promote(SetCandidate(z, c, x.(live := true, armed := false)), x.owner, env)
  }

  function TimedOut(g: Gate, c: CandidateId, env: Env): Gate
    requires Linked(g) && c in g.candidates
  {
    var x := g.candidates[c];
    var z := SetCandidate(g, c, x.(armed := false));
    if x.expired || x.live || x.closed then z else Promote(Expire(z, c), x.owner, env)
  }

  function CleanedUp(g: Gate, t: TransitionId, env: Env): Gate
    requires Linked(g) && t in g.transitions
  {
    var z := SetTransition(g, t, g.transitions[t].(pending := false)).(resolved := g.resolved + {t});
    if !Reserved(g, t) || g.transitions[t].failed then z
    else Promote(SetTransition(z, t, z.transitions[t].(cleanup := true)), t, env)
  }

  function Step(g: Gate, e: Event): Gate
    requires Linked(g) && Enabled(g, e)
  {
    match e
    case Offer(_, _, _, _, _, _, _, _) => Receive(g, e)
    case Answer(c, challenge, env) => Answered(g, c, challenge, env)
    case Deadline(c, env) => TimedOut(g, c, env)
    case Cleaned(t, env) => CleanedUp(g, t, env)
    case CleanupFailed(t) => FailTransition(SetTransition(g, t, g.transitions[t].(pending := false)), t)
  }
}
