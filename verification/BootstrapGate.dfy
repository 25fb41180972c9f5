// The gate as it runs: callbacks that change candidates and transitions in place and
// shift the queue in a loop.  Each is proved to make the step of the same name.
module BootstrapGates {
  import opened Common
  import opened Bootstrap
  import opened BootstrapEffects
  import opened BootstrapProofs

  class BootstrapGate {
    var reservations: map<Source, TransitionId>
    var transitions: map<TransitionId, Transition>
    var candidates: map<CandidateId, Candidate>
    var nextTransition: TransitionId
    var nextCandidate: CandidateId
    // What was done through the injected effects, and seen from outside.
    ghost var resolved: set<TransitionId>
    ghost var heard: set<(CandidateId, Challenge)>
    ghost var offered: set<Port>
    ghost var rejected: seq<Port>
    ghost var promotions: seq<Promotion>

    ghost function View(): Gate
      reads this
    {
      Gate(reservations, transitions, candidates, nextTransition, nextCandidate,
           resolved, heard, offered, rejected, promotions)
    }

    constructor ()
      ensures View() == NEW_GATE
    {
      reservations, transitions, candidates, nextTransition, nextCandidate := map[], map[], map[], 0, 0;
      resolved, heard, offered, rejected, promotions := {}, {}, {}, [], [];
    }

    method Close(c: CandidateId)
      requires c in candidates
      modifies this`candidates, this`rejected
      ensures View() == CloseCandidate(old(View()), c)
    {
      var x := candidates[c];
      if x.closed {
        return;
      }
      candidates := candidates[c := x.(closed := true, armed := false, listening := false)];
      rejected := rejected + [x.port];
    }

    method CloseAll(t: TransitionId)
      requires t in transitions && forall c :: c in transitions[t].queue ==> c in candidates
      modifies this`candidates, this`rejected, this`transitions
      ensures View() == CloseCandidates(old(View()), t)
      ensures t in transitions && candidates.Keys == old(candidates.Keys)
      ensures transitions == old(transitions)[t := old(transitions)[t].(queue := [])]
    {
      var queue := transitions[t].queue;
      for i := 0 to |queue|
        invariant transitions == old(transitions) && candidates.Keys == old(candidates.Keys)
        invariant forall c :: c in queue ==> c in candidates
        invariant CloseEach(View(), queue[i..]) == CloseEach(old(View()), queue)
      {
        assert queue[i..][1..] == queue[i + 1..];
        Close(queue[i]);
      }
      transitions := transitions[t := transitions[t].(queue := [])];
    }

    method Fail(t: TransitionId)
      requires t in transitions && forall c :: c in transitions[t].queue ==> c in candidates
      modifies this`candidates, this`rejected, this`transitions, this`reservations
      ensures View() == FailTransition(old(View()), t)
    {
      hide CloseEach;
      if transitions[t].failed {
        return;
      }
      transitions := transitions[t := transitions[t].(failed := true)];
      CloseAll(t);
      var source := transitions[t].source;
      if source in reservations && reservations[source] == t {
        reservations := reservations - {source};
      }
    }

    method TryPromote(t: TransitionId, env: Env)
      requires t in transitions && Queued(View())
      modifies this`candidates, this`rejected, this`transitions, this`reservations, this`promotions
      ensures View() == Promote(old(View()), t, env)
      ensures OpenHead(old(View()), t) ==> TurnOf(old(View()), View(), t, 0, env)
    {
      hide TurnOf, CloseEach, CloseCandidates, FailTransition, AcceptHead, CloseCandidate, Shift;
      if transitions[t].failed || transitions[t].source !in reservations || reservations[transitions[t].source] != t {
        return;
      }
      if OpenHead(View(), t) {
        HeadInTurn(View(), t, env);
      }
      while transitions[t].queue != []
        invariant t in transitions && Queued(View())
        invariant !transitions[t].failed && Reserved(View(), t)
        invariant Promote(View(), t, env) == Promote(old(View()), t, env)
        decreases |transitions[t].queue|
      {
        var c := transitions[t].queue[0];
        var head := candidates[c];
        if head.expired {
          DropHead(t);
          continue;
        }
        if !head.live || !transitions[t].cleanup {
          return;
        }
        if env.current.None? {
          Fail(t);
          return;
        }
        var current := env.current.value;
        if transitions[t].target != current {
          CloseAll(t);
          transitions := transitions[t := transitions[t].(target := current)];
          return;
        }
        if head.identity != transitions[t].target {
          DropHead(t);
          continue;
        }
        Accept(t, env);
        return;
      }
    }

    // The head is shifted off the queue and closed.
    method DropHead(t: TransitionId)
      requires t in transitions && transitions[t].queue != [] && Queued(View())
      modifies this`candidates, this`rejected, this`transitions
      ensures View() == CloseCandidate(Shift(old(View()), t), old(transitions)[t].queue[0])
      ensures t in transitions && transitions[t] == old(transitions)[t].(queue := old(transitions)[t].queue[1..])
      ensures Queued(View())
    {
      var c := transitions[t].queue[0];
      ShiftHead(t);
      Close(c);
    }

    method ShiftHead(t: TransitionId)
      requires t in transitions && transitions[t].queue != []
      modifies this`transitions
      ensures View() == Shift(old(View()), t)
    {
      transitions := transitions[t := transitions[t].(queue := transitions[t].queue[1..])];
    }

    // The `try` block and its `catch`.
    method Accept(t: TransitionId, env: Env)
      requires t in transitions && transitions[t].queue != [] && Queued(View()) && env.current.Some?
      modifies this`candidates, this`rejected, this`transitions, this`reservations, this`promotions
      ensures View() == AcceptHead(old(View()), t, env)
    {
      hide CloseEach;
      var c := transitions[t].queue[0];
      var head := candidates[c];
      ShiftHead(t);
      var ok := env.accepts && env.announces;
      candidates := candidates[c := head.(armed := false, listening := false, fate := if ok then Accepted else Failed)];
      promotions := promotions + [Promotion(t, c, env.current.value, ok)];
      if ok {
        CloseAll(t);
        reservations := reservations - {transitions[t].source};
      } else {
        rejected := rejected + [head.port];
        Fail(t);
      }
    }

    method Add(t: TransitionId, port: Port, origin: nat, identity: nat, challenge: Challenge, env: Env)
      requires t in transitions && Queued(View())
      modifies this`candidates, this`rejected, this`transitions, this`reservations, this`promotions, this`nextCandidate
      ensures View() == AddCandidate(old(View()), t, port, origin, identity, challenge, env)
    {
      hide Promote;
      var x := transitions[t];
      var c := nextCandidate;
      nextCandidate := nextCandidate + 1;
      candidates := candidates[c := Candidate(t, x.nextSequence, port, origin, identity, challenge,
                                              false, false, false, true, true, Waiting)];
      transitions := transitions[t := x.(queue := x.queue + [c], nextSequence := x.nextSequence + 1)];
      if !env.posts {
        candidates := candidates[c := candidates[c].(expired := true)];
        Close(c);
        TryPromote(t, env);
      }
    }

    method StartTransition(source: Source, port: Port, origin: nat, identity: nat, previous: Option<nat>,
                           challenge: Challenge, env: Env)
      requires Queued(View())
      modifies this`candidates, this`rejected, this`transitions, this`reservations, this`promotions,
        this`nextCandidate, this`nextTransition
      ensures View() == Bootstrap.StartTransition(old(View()), source, port, origin, identity, previous, challenge, env)
    {
      hide AddCandidate;
      var t := nextTransition;
      nextTransition := nextTransition + 1;
      var x := Transition(source, previous, identity, previous.None?, previous.Some?, [], 0, false);
      transitions := transitions[t := x];
      reservations := reservations[source := t];
      Add(t, port, origin, identity, challenge, env);
    }

    method RejectEach(ports: seq<Port>)
      modifies this`rejected
      ensures View() == RejectAll(old(View()), ports)
    {
      for i := 0 to |ports|
        invariant rejected == old(rejected) + ports[..i]
      {
        rejected := rejected + [ports[i]];
        assert ports[..i + 1] == ports[..i] + [ports[i]];
      }
      assert ports[..|ports|] == ports;
    }

    method SomeLive(t: TransitionId) returns (live: bool)
      requires t in transitions && Queued(View())
      ensures live <==> AnyLive(View(), t)
    {
      var queue := transitions[t].queue;
      live := false;
      for i := 0 to |queue|
        invariant live <==> exists c :: c in queue[..i] && candidates[c].live
      {
        assert queue[..i + 1] == queue[..i] + [queue[i]];
        if candidates[queue[i]].live {
          live := true;
        }
      }
      assert queue[..|queue|] == queue;
    }

    // The listener that `createBootstrapGate` returns.
    method OnMessage(e: Event)
      requires e.Offer? && Linked(View())
      modifies this`candidates, this`rejected, this`transitions, this`reservations, this`promotions,
        this`nextCandidate, this`nextTransition, this`offered
      ensures View() == Receive(old(View()), e)
      ensures old(nextCandidate) !in old(candidates) ==> OfferLaw(old(View()), View(), e)
    {
      hide AddCandidate, Bootstrap.StartTransition, CloseCandidates, OfferLaw;
      if nextCandidate !in candidates {
        OfferLands(View(), e);
      }
      offered := offered + set p | p in e.ports;
      if !e.plain || |e.ports| != 1 || e.source.None? {
        RejectEach(e.ports);
        return;
      }
      var port, source := e.ports[0], e.source.value;
      if e.identity.None? {
        RejectEach([port]);
        assert e.ports == [port];
        return;
      }
      var identity := e.identity.value;
      if source in reservations {
        var t := reservations[source];
        if transitions[t].target == identity {
          var live := SomeLive(t);
          if live {
            rejected := rejected + [port];
            return;
          }
          Add(t, port, e.origin, identity, e.challenge, e.env);
          return;
        }
        CloseAll(t);
        transitions := transitions[t := transitions[t].(target := identity)];
        Add(t, port, e.origin, identity, e.challenge, e.env);
        return;
      }
      if e.previous.Some? && e.previous.value.identity.Some? && e.previous.value.identity == e.identity {
        rejected := rejected + [port];
        return;
      }
      if e.previous.Some? && e.previous.value.identity.None? {
        rejected := rejected + [port];
        return;
      }
      StartTransition(source, port, e.origin, identity,
                      if e.previous.Some? then Some(e.previous.value.context) else None, e.challenge, e.env);
    }

    // The candidate's `onmessage`, for a probe response.
    method OnAnswer(c: CandidateId, challenge: Challenge, env: Env)
      requires Linked(View()) && c in candidates
      modifies this`candidates, this`rejected, this`transitions, this`reservations, this`promotions, this`heard
      ensures View() == Answered(old(View()), c, challenge, env)
      ensures Inv(old(View())) && old(candidates)[c].listening ==> AnswerLaw(old(View()), View(), c, challenge, env)
    {
      hide Promote, Inv, AnswerLaw;
      if Inv(View()) && candidates[c].listening {
        AnswerLands(View(), c, challenge, env);
      }
      var x := candidates[c];
      heard := heard + {(c, challenge)};
      if !x.expired && challenge == x.challenge {
        candidates := candidates[c := x.(live := true, armed := false)];
        TryPromote(x.owner, env);
      }
    }

    method OnDeadline(c: CandidateId, env: Env)
      requires Linked(View()) && c in candidates
      modifies this`candidates, this`rejected, this`transitions, this`reservations, this`promotions
      ensures View() == TimedOut(old(View()), c, env)
      ensures Inv(old(View())) && old(candidates)[c].armed && !old(candidates)[c].live ==>
        DeadlineLaw(old(View()), View(), c, env)
    {
      hide Promote, Inv, DeadlineLaw;
      if Inv(View()) && candidates[c].armed && !candidates[c].live {
        DeadlineLands(View(), c, env);
      }
      var x := candidates[c];
      candidates := candidates[c := x.(armed := false)];
      if x.expired || x.live || x.closed {
        return;
      }
      candidates := candidates[c := candidates[c].(expired := true)];
      Close(c);
      TryPromote(x.owner, env);
    }

    method OnCleaned(t: TransitionId, env: Env)
      requires Linked(View()) && t in transitions
      modifies this`candidates, this`rejected, this`transitions, this`reservations, this`promotions, this`resolved
      ensures View() == CleanedUp(old(View()), t, env)
      ensures Inv(old(View())) && old(transitions)[t].pending ==> CleanedLaw(old(View()), View(), t, env)
    {
      hide Promote, Inv, CleanedLaw;
      if Inv(View()) && transitions[t].pending {
        CleanedLands(View(), t, env);
      }
      transitions := transitions[t := transitions[t].(pending := false)];
      resolved := resolved + {t};
      var x := transitions[t];
      if x.source !in reservations || reservations[x.source] != t || x.failed {
        return;
      }
      transitions := transitions[t := x.(cleanup := true)];
      TryPromote(t, env);
    }

    method OnCleanupFailed(t: TransitionId)
      requires Linked(View()) && t in transitions
      modifies this`candidates, this`rejected, this`transitions, this`reservations
      ensures View() == FailTransition(SetTransition(old(View()), t, old(transitions)[t].(pending := false)), t)
    {
      hide FailTransition;
      transitions := transitions[t := transitions[t].(pending := false)];
      Fail(t);
    }
  }
}
