// Whose turn it is after an event: what becomes of a candidate that answers or stays
// silent, and of the one behind it.
module BootstrapEffects {
  import opened Common
  import opened Bootstrap
  import opened BootstrapProofs
  import opened BootstrapRuns

  // ------------------------------------------------ what a promotion leaves

  // Candidates keep their marks, none is reopened, no rejection is undone, and only
  // this transition is touched.
  ghost predicate Onward(g: Gate, z: Gate, t: TransitionId) {
    && z.candidates.Keys == g.candidates.Keys && z.transitions.Keys == g.transitions.Keys
    && (forall c :: c in g.candidates ==> Marks(g.candidates[c], z.candidates[c]))
    && (forall u :: u in g.transitions && u != t ==> z.transitions[u] == g.transitions[u])
    && g.rejected <= z.rejected && z.offered == g.offered && z.nextCandidate == g.nextCandidate
  }

  predicate Marks(x: Candidate, y: Candidate) {
    && y.owner == x.owner && y.port == x.port && y.identity == x.identity && y.live == x.live && y.expired == x.expired
    && (x.closed ==> y.closed)
    && (!y.closed && y.fate == Waiting ==> x.fate == Waiting && y.armed == x.armed)
  }

  // What is left of a queue when some are taken off its front.
  ghost predicate Suffix(q: seq<CandidateId>, r: seq<CandidateId>) {
    exists k :: 0 <= k <= |q| && r == q[k..]
  }

  lemma OnwardTrans(g: Gate, y: Gate, z: Gate, t: TransitionId)
    requires Onward(g, y, t) && Onward(y, z, t)
    ensures Onward(g, z, t)
  {
    forall c | c in g.candidates ensures Marks(g.candidates[c], z.candidates[c]) {
      assert Marks(g.candidates[c], y.candidates[c]) && Marks(y.candidates[c], z.candidates[c]);
    }
  }

  lemma CloseOnward(g: Gate, c: CandidateId, t: TransitionId)
    requires c in g.candidates
    ensures Onward(g, CloseCandidate(g, c), t) && CloseCandidate(g, c).transitions == g.transitions
  {
  }

  lemma {:induction false} CloseEachOnward(g: Gate, cs: seq<CandidateId>, t: TransitionId)
    requires forall c :: c in cs ==> c in g.candidates
    ensures Onward(g, CloseEach(g, cs), t) && forall c :: c in cs ==> CloseEach(g, cs).candidates[c].closed
    ensures forall c :: c in g.candidates ==> CloseEach(g, cs).candidates[c].fate == g.candidates[c].fate
    decreases |cs|
  {
    hide CloseCandidate, Onward;
    if cs == [] {
      OnwardItself(g, t);
    } else {
      var y := CloseCandidate(g, cs[0]);
      CloseOnward(g, cs[0], t);
      SameCandidates(g, y, t);
      ClosedNow(g, cs[0]);
      CloseEachOnward(y, cs[1..], t);
      StaysClosed(y, CloseEach(g, cs), t, cs[0]);
      OnwardTrans(g, y, CloseEach(g, cs), t);
    }
  }

  lemma ClosedNow(g: Gate, c: CandidateId)
    requires c in g.candidates
    ensures c in CloseCandidate(g, c).candidates && CloseCandidate(g, c).candidates[c].closed
    ensures forall d :: d in g.candidates ==>
      d in CloseCandidate(g, c).candidates && CloseCandidate(g, c).candidates[d].fate == g.candidates[d].fate
  {
  }

  lemma StaysClosed(g: Gate, z: Gate, t: TransitionId, c: CandidateId)
    requires Onward(g, z, t) && c in g.candidates && g.candidates[c].closed
    ensures c in z.candidates && z.candidates[c].closed
  {
    assert Marks(g.candidates[c], z.candidates[c]);
  }

  lemma OnwardItself(g: Gate, t: TransitionId)
    ensures Onward(g, g, t)
  {
  }

  lemma SameCandidates(g: Gate, y: Gate, t: TransitionId)
    requires Onward(g, y, t)
    ensures y.candidates.Keys == g.candidates.Keys && y.offered == g.offered && y.nextCandidate == g.nextCandidate
  {
  }

  lemma TransitionOnward(g: Gate, y: Gate, z: Gate, t: TransitionId)
    requires Onward(g, y, t) && t in g.transitions && z.candidates == y.candidates && z.rejected == y.rejected
    requires z.offered == y.offered && z.nextCandidate == y.nextCandidate
    requires t in z.transitions && z.transitions == y.transitions[t := z.transitions[t]]
    ensures Onward(g, z, t)
  {
  }

  lemma CloseAllOnward(g: Gate, t: TransitionId)
    requires Queued(g) && t in g.transitions
    ensures Onward(g, CloseCandidates(g, t), t) && t in CloseCandidates(g, t).transitions
    ensures CloseCandidates(g, t).transitions == g.transitions[t := g.transitions[t].(queue := [])]
    ensures CloseCandidates(g, t).reservations == g.reservations
    ensures forall c :: c in g.transitions[t].queue ==> CloseCandidates(g, t).candidates[c].closed
  {
    hide Onward, CloseEach;
    var y := CloseEach(g, g.transitions[t].queue);
    CloseEachOnward(g, g.transitions[t].queue, t);
    SameCandidates(g, y, t);
    TransitionOnward(g, y, CloseCandidates(g, t), t);
  }

  lemma FailOnward(g: Gate, t: TransitionId)
    requires Queued(g) && t in g.transitions && !g.transitions[t].failed
    ensures Onward(g, FailTransition(g, t), t) && t in FailTransition(g, t).transitions
    ensures FailTransition(g, t).transitions[t].queue == []
    ensures forall c :: c in g.transitions[t].queue ==> FailTransition(g, t).candidates[c].closed
    ensures FailTransition(g, t).reservations
         == if Reserved(g, t) then g.reservations - {g.transitions[t].source} else g.reservations
    ensures forall c :: c in g.candidates ==> FailTransition(g, t).candidates[c].fate == g.candidates[c].fate
  {
    hide Onward, CloseEach, CloseCandidates;
    FailFields(g, t);
    CloseAllOnward(g, t);
    SameCandidates(g, CloseCandidates(g, t), t);
    forall c | c in g.candidates ensures FailTransition(g, t).candidates[c].fate == g.candidates[c].fate {
      CloseKeepsFate(g, t, c);
    }
    TransitionOnward(g, CloseCandidates(g, t), FailTransition(g, t), t);
  }

  lemma AcceptOnward(g: Gate, t: TransitionId, env: Env)
    requires Queued(g) && t in g.transitions && Reserved(g, t) && !g.transitions[t].failed
    requires g.transitions[t].queue != [] && env.current.Some?
    ensures var z := AcceptHead(g, t, env); var q := g.transitions[t].queue;
      && Onward(g, z, t) && t in z.transitions && z.transitions[t].queue == []
      && z.candidates[q[0]].fate == (if env.accepts && env.announces then Accepted else Failed)
      && (!(env.accepts && env.announces) ==> g.candidates[q[0]].port in z.rejected)
      && z.reservations == g.reservations - {g.transitions[t].source}
      && (forall c :: c in q[1..] ==> z.candidates[c].closed)
  {
    hide CloseEach, CloseCandidates, FailTransition, Onward;
    var q := g.transitions[t].queue;
    var ok := env.accepts && env.announces;
    var logged := Logged(g, t, env.current.value, ok);
    LoggedOnward(g, t, env.current.value, ok);
    if ok {
      CloseAllOnward(logged, t);
      CloseKeepsFate(logged, t, q[0]);
      OnwardTrans(g, logged, CloseCandidates(logged, t), t);
      TransitionOnward(g, CloseCandidates(logged, t), AcceptHead(g, t, env), t);
    } else {
      var turned := Reject(logged, g.candidates[q[0]].port);
      FailOnward(turned, t);
      RejectionStays(turned, AcceptHead(g, t, env), t, g.candidates[q[0]].port);
      OnwardTrans(g, Reject(logged, g.candidates[q[0]].port), AcceptHead(g, t, env), t);
    }
  }

  lemma RejectionStays(g: Gate, z: Gate, t: TransitionId, p: Port)
    requires Onward(g, z, t) && p in g.rejected
    ensures p in z.rejected
  {
  }

  // The head taken and the call of `accept` on record.
  function Logged(g: Gate, t: TransitionId, current: nat, ok: bool): Gate
    requires Queued(g) && t in g.transitions && g.transitions[t].queue != []
  {
    var y := TakenOff(g, t, ok);
    y.(promotions := y.promotions + [Promotion(t, g.transitions[t].queue[0], current, ok)])
  }

  lemma LoggedOnward(g: Gate, t: TransitionId, current: nat, ok: bool)
    requires Queued(g) && t in g.transitions && g.transitions[t].queue != []
    ensures var y, q := Logged(g, t, current, ok), g.transitions[t].queue;
      && Queued(y) && Onward(g, y, t) && Onward(g, Reject(y, g.candidates[q[0]].port), t)
      && t in y.transitions && y.transitions[t] == g.transitions[t].(queue := q[1..])
      && q[0] in y.candidates && y.candidates[q[0]].fate == (if ok then Accepted else Failed)
      && y.reservations == g.reservations
  {
  }

  lemma CloseKeepsFate(g: Gate, t: TransitionId, c: CandidateId)
    requires Queued(g) && t in g.transitions && c in g.candidates
    ensures c in CloseCandidates(g, t).candidates
    ensures CloseCandidates(g, t).candidates[c].fate == g.candidates[c].fate
  {
    hide CloseEach;
    CloseEachOnward(g, g.transitions[t].queue, t);
  }

  // What is left of a queue is always its end.
  lemma {:induction false} PromoteOnward(g: Gate, t: TransitionId, env: Env)
    requires Queued(g) && t in g.transitions
    ensures Onward(g, Promote(g, t, env), t) && t in Promote(g, t, env).transitions
    ensures Suffix(g.transitions[t].queue, Promote(g, t, env).transitions[t].queue)
    decreases |g.transitions[t].queue|
  {
    hide CloseEach, CloseCandidates, FailTransition, AcceptHead, Onward;
    var x := g.transitions[t];
    OnwardItself(g, t);
    assert x.queue[0..] == x.queue && x.queue[|x.queue|..] == [];
    if !x.failed && Reserved(g, t) && x.queue != [] {
      var head := g.candidates[x.queue[0]];
      if head.expired || (head.live && x.cleanup && env.current == Some(x.target) && head.identity != x.target) {
        DropOnward(g, t);
        var y := CloseCandidate(Shift(g, t), x.queue[0]);
        PromoteOnward(y, t, env);
        OnwardTrans(g, y, Promote(g, t, env), t);
        SuffixOfRest(x.queue, Promote(g, t, env).transitions[t].queue);
      } else if head.live && x.cleanup {
        if env.current.None? {
          FailOnward(g, t);
        } else if env.current.value != x.target {
          CloseAllOnward(g, t);
          TransitionOnward(g, CloseCandidates(g, t), Promote(g, t, env), t);
        } else {
          AcceptOnward(g, t, env);
        }
      }
    }
  }

  lemma DropOnward(g: Gate, t: TransitionId)
    requires Queued(g) && t in g.transitions && g.transitions[t].queue != []
    ensures var y := CloseCandidate(Shift(g, t), g.transitions[t].queue[0]);
      && Queued(y) && Onward(g, y, t) && t in y.transitions
      && y.transitions[t] == g.transitions[t].(queue := g.transitions[t].queue[1..])
  {
  }

  lemma SuffixOfRest(q: seq<CandidateId>, r: seq<CandidateId>)
    requires q != [] && Suffix(q[1..], r)
    ensures Suffix(q, r)
  {
    var k :| 0 <= k <= |q| - 1 && r == q[1..][k..];
    assert r == q[k + 1..];
  }

  // ------------------------------------------------------ the next in turn

  // Expired candidates at the front are passed over.
  lemma {:induction false} PassesExpired(g: Gate, t: TransitionId, env: Env, j: nat)
    requires Queued(g) && t in g.transitions && Reserved(g, t) && !g.transitions[t].failed
    requires j <= |g.transitions[t].queue|
    requires forall i :: 0 <= i < j ==>
      g.candidates[g.transitions[t].queue[i]].expired && g.candidates[g.transitions[t].queue[i]].closed
    ensures Queued(From(g, t, j)) && Promote(g, t, env) == Promote(From(g, t, j), t, env)
    decreases j
  {
    hide Promote;
    var q := g.transitions[t].queue;
    if j == 0 {
      assert From(g, t, 0).transitions == g.transitions;
    } else {
      var y := Shift(g, t);
      DropsExpired(g, t, env);
      assert forall i :: 0 <= i < j - 1 ==> y.transitions[t].queue[i] == q[i + 1];
      PassesExpired(y, t, env, j - 1);
      assert q[1..][j - 1..] == q[j..];
      assert From(y, t, j - 1) == From(g, t, j);
    }
  }

  lemma DropsExpired(g: Gate, t: TransitionId, env: Env)
    requires Queued(g) && t in g.transitions && Reserved(g, t) && !g.transitions[t].failed
    requires g.transitions[t].queue != []
    requires g.candidates[g.transitions[t].queue[0]].expired && g.candidates[g.transitions[t].queue[0]].closed
    ensures Queued(Shift(g, t)) && Promote(g, t, env) == Promote(Shift(g, t), t, env)
  {
    hide CloseEach, CloseCandidates, FailTransition, AcceptHead;
    assert CloseCandidate(Shift(g, t), g.transitions[t].queue[0]) == Shift(g, t);
  }

  function From(g: Gate, t: TransitionId, j: nat): Gate
    requires t in g.transitions && j <= |g.transitions[t].queue|
  {
    SetTransition(g, t, g.transitions[t].(queue := g.transitions[t].queue[j..]))
  }

  // The source is reserved and the head of its queue has not expired.
  predicate OpenHead(g: Gate, t: TransitionId) {
    && t in g.transitions && Reserved(g, t) && !g.transitions[t].failed && g.transitions[t].queue != []
    && g.transitions[t].queue[0] in g.candidates && !g.candidates[g.transitions[t].queue[0]].expired
  }

  predicate AllClosed(g: Gate, cs: seq<CandidateId>) {
    forall c :: c in cs ==> c in g.candidates && g.candidates[c].closed
  }

  // The first candidate that has not expired waits at the head as long as it is not live
  // or cleanup is not done.  Then the browser decides.  If its document is gone, or is
  // another by now, everybody is closed, and in the first case the source is given up, in
  // the second aimed at the other.  If it is the candidate's own, the candidate is let in,
  // or rejected should that fail, everybody behind it is closed and the source is free.
  // If it is only the source's, the candidate is closed and the next one's turn comes.
  ghost predicate TurnOf(g: Gate, z: Gate, t: TransitionId, j: nat, env: Env)
    requires t in g.transitions && j < |g.transitions[t].queue| && g.transitions[t].queue[j] in g.candidates
  {
    var x, q := g.transitions[t], g.transitions[t].queue;
    var head := g.candidates[q[j]];
    && t in z.transitions && q[j] in z.candidates && z.candidates[q[j]].port == head.port
    && if !head.live || !x.cleanup then
         && z.transitions == g.transitions[t := x.(queue := q[j..])] && z.reservations == g.reservations
         && z.candidates == g.candidates && z.rejected == g.rejected
       else
         && (env.current.None? ==>
               z.transitions[t].queue == [] && AllClosed(z, q[j..]) && x.source !in z.reservations)
         && (env.current.Some? && env.current.value != x.target ==>
               && z.transitions[t].queue == [] && AllClosed(z, q[j..])
               && z.transitions[t].target == env.current.value && z.reservations == g.reservations)
         && (env.current == Some(x.target) && head.identity == x.target ==>
               && z.transitions[t].queue == [] && AllClosed(z, q[j + 1..]) && x.source !in z.reservations
               && (env.accepts && env.announces ==> z.candidates[q[j]].fate == Accepted)
               && (!(env.accepts && env.announces) ==>
                     z.candidates[q[j]].fate == Failed && z.candidates[q[j]].port in z.rejected))
         && (env.current == Some(x.target) && head.identity != x.target ==>
               z.candidates[q[j]].closed && Suffix(q[j + 1..], z.transitions[t].queue))
  }

  lemma NextInTurn(g: Gate, t: TransitionId, env: Env, j: nat)
    requires Queued(g) && t in g.transitions && Reserved(g, t) && !g.transitions[t].failed
    requires j < |g.transitions[t].queue| && !g.candidates[g.transitions[t].queue[j]].expired
    requires forall i :: 0 <= i < j ==>
      g.candidates[g.transitions[t].queue[i]].expired && g.candidates[g.transitions[t].queue[i]].closed
    ensures TurnOf(g, Promote(g, t, env), t, j, env)
  {
    hide Promote;
    PassesExpired(g, t, env, j);
    var y := From(g, t, j);
    var q := g.transitions[t].queue;
    assert y.transitions[t].queue[0] == q[j] && y.transitions[t].queue[1..] == q[j + 1..];
    assert y.transitions[t].queue[0..] == q[j..];
    HeadInTurn(y, t, env);
  }

  lemma HeadInTurn(g: Gate, t: TransitionId, env: Env)
    requires Queued(g) && OpenHead(g, t)
    ensures TurnOf(g, Promote(g, t, env), t, 0, env)
  {
    hide CloseEach, CloseCandidates, FailTransition, AcceptHead, Suffix;
    var q := g.transitions[t].queue;
    var z := Promote(g, t, env);
    assert q[0..] == q;
    PromoteOnward(g, t, env);
    assert Marks(g.candidates[q[0]], z.candidates[q[0]]);
    if !g.candidates[q[0]].live || !g.transitions[t].cleanup {
      assert z == g;
      assert g.transitions == g.transitions[t := g.transitions[t].(queue := q)];
    } else if env.current.None? {
      FailOnward(g, t);
    } else if env.current.value != g.transitions[t].target {
      CloseAllOnward(g, t);
    } else if g.candidates[q[0]].identity == g.transitions[t].target {
      AcceptOnward(g, t, env);
    } else {
      DropOnward(g, t);
      var y := CloseCandidate(Shift(g, t), q[0]);
      ClosedNow(Shift(g, t), q[0]);
      PromoteOnward(y, t, env);
      StaysClosed(y, z, t, q[0]);
    }
  }

  // --------------------------------------------------------- the events

  // A candidate whose deadline has passed: closed for good, and its port turned away.
  function Silenced(g: Gate, c: CandidateId): Gate
    requires c in g.candidates
  {
    g.(candidates := g.candidates[
         c := g.candidates[c].(expired := true, closed := true, armed := false, listening := false)],
       rejected := g.rejected + [g.candidates[c].port])
  }

  // The deadline of a candidate that has not answered rejects its port.  It leaves the
  // queue exactly if it was the head, and then it is the turn of the first candidate
  // behind it that has not expired; behind another head it only waits to be dropped.
  ghost predicate DeadlineLaw(g: Gate, z: Gate, c: CandidateId, env: Env)
    requires c in g.candidates && g.candidates[c].owner in g.transitions && Queued(g)
  {
    var t := g.candidates[c].owner;
    var q := g.transitions[t].queue;
    && c in z.candidates && z.candidates[c].closed && z.candidates[c].expired
    && c in q && g.candidates[c].port in z.rejected
    && (forall u :: u in z.transitions && c in z.transitions[u].queue <==> u == t && c != q[0])
    && (c != q[0] ==> z == Silenced(g, c))
    && (c == q[0] ==>
          && (forall j :: 0 < j < |q| && FirstOpen(g, q, j) ==> TurnOf(Silenced(g, c), z, t, j, env))
          && ((forall j :: 0 < j < |q| ==> g.candidates[q[j]].expired) ==>
                z == From(Silenced(g, c), t, |q|)))
  }

  // Of those behind the head, the first that has not expired.
  predicate FirstOpen(g: Gate, q: seq<CandidateId>, j: nat)
    requires j < |q| && forall c :: c in q ==> c in g.candidates
  {
    !g.candidates[q[j]].expired && forall i :: 0 < i < j ==> g.candidates[q[i]].expired
  }

  // One that still waits for an answer or its deadline is in the queue of a source that
  // is reserved, once.
  lemma ListeningStands(g: Gate, c: CandidateId)
    requires Tables(g) && Queues(g) && Standing(g) && c in g.candidates
    requires g.candidates[c].armed || g.candidates[c].listening
    ensures var x := g.candidates[c];
      && !x.closed && !x.expired && x.owner in g.transitions && c in g.transitions[x.owner].queue
      && Reserved(g, x.owner) && !g.transitions[x.owner].failed
      && (forall u :: u in g.transitions && c in g.transitions[u].queue ==> u == x.owner)
      && (forall i, j :: 0 <= i < j < |g.transitions[x.owner].queue| ==>
            g.transitions[x.owner].queue[i] != g.transitions[x.owner].queue[j])
      && (forall d :: d in g.transitions[x.owner].queue ==>
            d in g.candidates && (g.candidates[d].closed <==> g.candidates[d].expired))
  {
    var x := g.candidates[c];
    assert Stands(g, c, x);
    var t := x.owner;
    assert Queues1(g, t, c);
    assert Reservation(g, g.transitions[t].source, t);
    forall i, j | 0 <= i < j < |g.transitions[t].queue|
      ensures g.transitions[t].queue[i] != g.transitions[t].queue[j]
    {
      assert InOrder(g, t, i, j);
    }
    forall u | u in g.transitions && c in g.transitions[u].queue ensures u == t {
      assert Queues1(g, u, c);
    }
    forall d | d in g.transitions[t].queue
      ensures d in g.candidates && (g.candidates[d].closed <==> g.candidates[d].expired)
    {
      assert Queues1(g, t, d);
    }
  }

  lemma SilencedSteps(g: Gate, c: CandidateId)
    requires c in g.candidates && !g.candidates[c].closed
    ensures Expire(SetCandidate(g, c, g.candidates[c].(armed := false)), c) == Silenced(g, c)
  {
    assert Expire(SetCandidate(g, c, g.candidates[c].(armed := false)), c).candidates == Silenced(g, c).candidates;
  }

  lemma DeadlineLands(g: Gate, c: CandidateId, env: Env)
    requires Inv(g) && Enabled(g, Deadline(c, env)) && !g.candidates[c].live
    ensures Linked(g) && DeadlineLaw(g, Step(g, Deadline(c, env)), c, env)
  {
    hide Promote, Answers, Ports, Promotions, HeadsOk, HeadOk, TurnOf, Tables, Queues, Standing, Onward, Suffix;
    CoreIsLinked(g, {});
    ListeningStands(g, c);
    var t := g.candidates[c].owner;
    var q := g.transitions[t].queue;
    var y := Silenced(g, c);
    SilencedSteps(g, c);
    assert Step(g, Deadline(c, env)) == Promote(y, t, env);
    if c == q[0] {
      SilentHead(g, c, t, env);
    } else {
      HeadsSplit(g, t);
      HeadStays(g, y, t, env);
    }
  }

  // Behind a head that is not to be dropped or let in nothing moves.
  lemma HeadStays(g: Gate, y: Gate, t: TransitionId, env: Env)
    requires Queued(g) && t in g.transitions && HeadOk(g, t) && g.transitions[t].queue != [] && Queued(y)
    requires y.transitions == g.transitions && y.candidates.Keys == g.candidates.Keys
    requires y.candidates[g.transitions[t].queue[0]] == g.candidates[g.transitions[t].queue[0]]
    ensures Promote(y, t, env) == y
  {
  }

  // The head, once its own deadline has passed.
  ghost predicate HeadSilenced(g: Gate, c: CandidateId, t: TransitionId) {
    && Queued(g) && t in g.transitions && Reserved(g, t) && !g.transitions[t].failed
    && g.transitions[t].queue != [] && g.transitions[t].queue[0] == c && c in g.candidates
    && g.candidates[c].closed && g.candidates[c].expired
    && (forall d :: d in g.transitions[t].queue ==> (g.candidates[d].closed <==> g.candidates[d].expired))
  }

  lemma SilentHead(g: Gate, c: CandidateId, t: TransitionId, env: Env)
    requires Queued(g) && c in g.candidates && HeadSilenced(Silenced(g, c), c, t) && g.candidates[c].owner == t
    requires c !in g.transitions[t].queue[1..]
    requires forall u :: u in g.transitions && c in g.transitions[u].queue ==> u == t
    ensures DeadlineLaw(g, Promote(Silenced(g, c), t, env), c, env)
  {
    hide Promote, TurnOf, Suffix, Onward;
    var q := g.transitions[t].queue;
    var y := Silenced(g, c);
    var z := Promote(y, t, env);
    HeadLeaves(y, c, t, env);
    forall j | 0 < j < |q| && FirstOpen(g, q, j) ensures TurnOf(y, z, t, j, env) {
      assert forall i :: 0 < i < |q| ==> q[i] == q[1..][i - 1];
      NextInTurn(y, t, env, j);
    }
    if forall j :: 0 < j < |q| ==> g.candidates[q[j]].expired {
      PassesExpired(y, t, env, |q|);
      NobodyLeft(From(y, t, |q|), t, env);
    }
  }

  lemma HeadLeaves(g: Gate, c: CandidateId, t: TransitionId, env: Env)
    requires HeadSilenced(g, c, t) && c !in g.transitions[t].queue[1..]
    requires forall u :: u in g.transitions && c in g.transitions[u].queue ==> u == t
    ensures var z := Promote(g, t, env);
      && c in z.candidates && z.candidates[c].closed && z.candidates[c].expired
      && (forall p :: p in g.rejected ==> p in z.rejected)
      && (forall u :: u in z.transitions ==> c !in z.transitions[u].queue)
  {
    hide Promote, Suffix;
    var z := Promote(g, t, env);
    DropsExpired(g, t, env);
    PromoteOnward(Shift(g, t), t, env);
    NotInSuffix(g.transitions[t].queue[1..], z.transitions[t].queue, c);
    assert Marks(g.candidates[c], z.candidates[c]);
  }

  lemma NotInSuffix(q: seq<CandidateId>, r: seq<CandidateId>, c: CandidateId)
    requires Suffix(q, r) && c !in q
    ensures c !in r
  {
  }

  lemma NobodyLeft(g: Gate, t: TransitionId, env: Env)
    requires Queued(g) && t in g.transitions && g.transitions[t].queue == []
    ensures Promote(g, t, env) == g
  {
  }

  // The answer of a candidate counts only with its own challenge.  Then it is live, and if
  // it is the head it is its turn; behind another head it waits.
  ghost predicate AnswerLaw(g: Gate, z: Gate, c: CandidateId, challenge: Challenge, env: Env)
    requires c in g.candidates && g.candidates[c].owner in g.transitions && Queued(g)
  {
    var x := g.candidates[c];
    var heard := g.(heard := g.heard + {(c, challenge)});
    var y := heard.(candidates := g.candidates[c := x.(live := true, armed := false)]);
    && c in g.transitions[x.owner].queue
    && (challenge != x.challenge ==> z == heard)
    && (challenge == x.challenge && c != g.transitions[x.owner].queue[0] ==> z == y)
    && (challenge == x.challenge && c == g.transitions[x.owner].queue[0] ==> TurnOf(y, z, x.owner, 0, env))
  }

  lemma AnswerLands(g: Gate, c: CandidateId, challenge: Challenge, env: Env)
    requires Inv(g) && Enabled(g, Answer(c, challenge, env))
    ensures Linked(g) && AnswerLaw(g, Step(g, Answer(c, challenge, env)), c, challenge, env)
  {
    hide Promote, Answers, Ports, Promotions, HeadsOk, HeadOk, TurnOf, Tables, Queues, Standing;
    CoreIsLinked(g, {});
    ListeningStands(g, c);
    var x := g.candidates[c];
    if challenge == x.challenge {
      var y := g.(heard := g.heard + {(c, challenge)},
                  candidates := g.candidates[c := x.(live := true, armed := false)]);
      assert Step(g, Answer(c, challenge, env)) == Promote(y, x.owner, env);
      if c == g.transitions[x.owner].queue[0] {
        HeadInTurn(y, x.owner, env);
      } else {
        HeadsSplit(g, x.owner);
        HeadStays(g, y, x.owner, env);
      }
    }
  }

  // Once the predecessor is taken down, it is the head's turn if there is one; a source
  // that was given up meanwhile stays as it is.
  ghost predicate CleanedLaw(g: Gate, z: Gate, t: TransitionId, env: Env)
    requires t in g.transitions && Queued(g)
  {
    var x := g.transitions[t];
    var y := g.(transitions := g.transitions[t := x.(pending := false, cleanup := true)], resolved := g.resolved + {t});
    if !Reserved(g, t) then
      z == g.(transitions := g.transitions[t := x.(pending := false)], resolved := g.resolved + {t})
    else if x.queue == [] then z == y
    else TurnOf(y, z, t, 0, env)
  }

  lemma CleanedLands(g: Gate, t: TransitionId, env: Env)
    requires Inv(g) && Enabled(g, Cleaned(t, env))
    ensures Linked(g) && CleanedLaw(g, Step(g, Cleaned(t, env)), t, env)
  {
    hide Promote, Answers, Ports, Promotions, TurnOf, Queues, Standing;
    CoreIsLinked(g, {});
    var x := g.transitions[t];
    var y := g.(transitions := g.transitions[t := x.(pending := false, cleanup := true)], resolved := g.resolved + {t});
    if Reserved(g, t) {
      assert Reservation(g, x.source, t);
      var z := SetTransition(g, t, x.(pending := false)).(resolved := g.resolved + {t});
      assert SetTransition(z, t, z.transitions[t].(cleanup := true)).transitions == y.transitions;
      assert Step(g, Cleaned(t, env)) == Promote(y, t, env);
      if x.queue == [] {
        NobodyLeft(y, t, env);
      } else {
        HeadsSplit(g, t);
        HeadInTurn(y, t, env);
      }
    }
  }

  // ------------------------------------------------------------ the offers

  // How a port begins: it waits for the answer to its challenge, with a deadline.
  function Newcomer(t: TransitionId, n: nat, port: Port, origin: nat, identity: nat, challenge: Challenge): Candidate {
    Candidate(t, n, port, origin, identity, challenge, false, false, false, true, true, Waiting)
  }

  // Exactly one port, from a source whose document the browser can name.
  predicate Proper(e: Event)
    requires e.Offer?
  {
    e.plain && |e.ports| == 1 && e.source.Some? && e.identity.Some?
  }

  // The source has a context of this very document, or of one the browser cannot name.
  predicate Taken(e: Event)
    requires e.Offer?
  {
    e.previous.Some? && (e.previous.value.identity.None? || e.previous.value.identity == e.identity)
  }

  predicate SomeLive(g: Gate, t: TransitionId) {
    t in g.transitions
    && exists c :: c in g.transitions[t].queue && c in g.candidates && g.candidates[c].live
  }

  // The port goes to the end of its source's queue, to the front of an emptied one if the
  // document changed, or begins a new queue; it is turned away if somebody of the same
  // document has already answered, or has its context.
  ghost predicate OfferLaw(g: Gate, z: Gate, e: Event)
    requires e.Offer? && Linked(g)
  {
    var seen := g.offered + set p | p in e.ports;
    if !Proper(e) then z == g.(offered := seen, rejected := g.rejected + e.ports)
    else
      var port, source, identity, c := e.ports[0], e.source.value, e.identity.value, g.nextCandidate;
      if source in g.reservations then
        var t := g.reservations[source];
        var x := g.transitions[t];
        if x.target == identity && SomeLive(g, t) then z == g.(offered := seen, rejected := g.rejected + [port])
        else
          && t in z.transitions && c in z.candidates && z.offered == seen
          && (e.env.posts ==>
                && z.candidates[c] == Newcomer(t, x.nextSequence, port, e.origin, identity, e.challenge)
                && z.reservations == g.reservations && z.transitions[t].target == identity
                && (x.target == identity ==> z.transitions[t].queue == x.queue + [c] && z.rejected == g.rejected)
                && (x.target != identity ==> z.transitions[t].queue == [c] && AllClosed(z, x.queue)))
          && (!e.env.posts ==> z.candidates[c].closed && port in z.rejected)
      else if Taken(e) then z == g.(offered := seen, rejected := g.rejected + [port])
      else
        var t := g.nextTransition;
        && t in z.transitions && c in z.candidates && z.offered == seen
        && (e.env.posts ==>
              && z.candidates == g.candidates[c := Newcomer(t, 0, port, e.origin, identity, e.challenge)]
              && z.reservations == g.reservations[source := t] && z.rejected == g.rejected
              && z.transitions[t].queue == [c] && z.transitions[t].target == identity
              && z.transitions[t].cleanup == e.previous.None? && z.transitions[t].pending == e.previous.Some?)
        && (!e.env.posts ==> z.candidates[c].closed && port in z.rejected)
  }

  lemma AddLands(g: Gate, t: TransitionId, port: Port, origin: nat, identity: nat, challenge: Challenge, env: Env)
    requires Queued(g) && t in g.transitions
    ensures var z := AddCandidate(g, t, port, origin, identity, challenge, env);
      var c, x := g.nextCandidate, g.transitions[t];
      && t in z.transitions && c in z.candidates && z.offered == g.offered
      && (env.posts ==>
            z == g.(candidates := g.candidates[c := Newcomer(t, x.nextSequence, port, origin, identity, challenge)],
                    transitions := g.transitions[t := x.(queue := x.queue + [c], nextSequence := x.nextSequence + 1)],
                    nextCandidate := c + 1))
      && (!env.posts ==> z.candidates[c].closed && port in z.rejected)
  {
    hide Promote, Suffix, Onward;
    if !env.posts {
      var y := Expire(Enqueue(g, t, port, origin, identity, challenge), g.nextCandidate);
      PromoteOnward(y, t, env);
      SameCandidates(y, Promote(y, t, env), t);
      StaysClosed(y, Promote(y, t, env), t, g.nextCandidate);
      RejectionStays(y, Promote(y, t, env), t, port);
    }
  }

  lemma OfferLands(g: Gate, e: Event)
    requires Linked(g) && e.Offer? && g.nextCandidate !in g.candidates
    ensures OfferLaw(g, Receive(g, e), e)
  {
    if Proper(e) {
      if e.source.value in g.reservations {
        OfferJoins(g, e);
      } else {
        OfferBegins(g, e);
      }
    }
  }

  lemma OfferJoins(g: Gate, e: Event)
    requires Linked(g) && e.Offer? && g.nextCandidate !in g.candidates && Proper(e)
    requires e.source.value in g.reservations
    ensures OfferLaw(g, Receive(g, e), e)
  {
    hide AddCandidate, CloseCandidates, Onward, StartTransition;
    var seen := g.(offered := g.offered + set p | p in e.ports);
    var port, identity := e.ports[0], e.identity.value;
    var t := g.reservations[e.source.value];
    assert SomeLive(g, t) <==> AnyLive(seen, t);
    if g.transitions[t].target == identity {
      AddLands(seen, t, port, e.origin, identity, e.challenge, e.env);
    } else {
      OfferSupersedes(g, e);
    }
  }

  lemma OfferSupersedes(g: Gate, e: Event)
    requires Linked(g) && e.Offer? && g.nextCandidate !in g.candidates && Proper(e)
    requires e.source.value in g.reservations
    requires g.transitions[g.reservations[e.source.value]].target != e.identity.value
    ensures OfferLaw(g, Receive(g, e), e)
  {
    hide AddCandidate, CloseCandidates, AllClosed;
    var seen := g.(offered := g.offered + set p | p in e.ports);
    var t := g.reservations[e.source.value];
    var identity := e.identity.value;
    var y := CloseCandidates(seen, t);
    Emptied(seen, t, identity);
    var w := SetTransition(y, t, y.transitions[t].(target := identity));
    AddLands(w, t, e.ports[0], e.origin, identity, e.challenge, e.env);
    var z := AddCandidate(w, t, e.ports[0], e.origin, identity, e.challenge, e.env);
    if e.env.posts {
      NewcomerCloses(w, z, g.transitions[t].queue, g.nextCandidate);
    }
  }

  lemma Emptied(g: Gate, t: TransitionId, target: nat)
    requires Queued(g) && t in g.transitions && g.nextCandidate !in g.candidates
    ensures var y := CloseCandidates(g, t);
      && t in y.transitions
      && (var w := SetTransition(y, t, y.transitions[t].(target := target));
          && Queued(w) && w.transitions[t] == g.transitions[t].(queue := [], target := target)
          && w.reservations == g.reservations && w.offered == g.offered && w.nextCandidate == g.nextCandidate
          && w.nextCandidate !in w.candidates && AllClosed(w, g.transitions[t].queue))
  {
    hide CloseCandidates, Onward;
    CloseAllOnward(g, t);
    SameCandidates(g, CloseCandidates(g, t), t);
  }

  lemma NewcomerCloses(g: Gate, z: Gate, cs: seq<CandidateId>, c: CandidateId)
    requires AllClosed(g, cs) && c !in g.candidates && c in z.candidates
    requires z.candidates == g.candidates[c := z.candidates[c]]
    ensures AllClosed(z, cs)
  {
  }

  lemma OfferBegins(g: Gate, e: Event)
    requires Linked(g) && e.Offer? && Proper(e) && e.source.value !in g.reservations
    ensures OfferLaw(g, Receive(g, e), e)
  {
    hide AddCandidate, Supersede;
    if !Taken(e) {
      var seen := g.(offered := g.offered + set p | p in e.ports);
      var t := g.nextTransition;
      var previous := if e.previous.Some? then Some(e.previous.value.context) else None;
      var x := Transition(e.source.value, previous, e.identity.value, previous.None?, previous.Some?, [], 0, false);
      var z := SetTransition(seen, t, x).(reservations := g.reservations[e.source.value := t], nextTransition := t + 1);
      AddLands(z, t, e.ports[0], e.origin, e.identity.value, e.challenge, e.env);
    }
  }

  // ------------------------------------------------- silence blocks nobody

  lemma NextOpen(g: Gate, q: seq<CandidateId>, j: nat) returns (k: nat)
    requires 0 < j < |q| && (forall c :: c in q ==> c in g.candidates) && !g.candidates[q[j]].expired
    ensures 0 < k <= j && FirstOpen(g, q, k)
  {
    k := 1;
    while g.candidates[q[k]].expired
      invariant 0 < k <= j && forall i :: 0 < i < k ==> g.candidates[q[i]].expired
      decreases j - k
    {
      k := k + 1;
    }
  }

  predicate Silent(g: Gate, c: CandidateId) {
    c in g.candidates && (g.candidates[c].expired || (g.candidates[c].armed && !g.candidates[c].live))
  }

  // Everybody before this place in the queue has been given up or can still be.
  ghost predicate SilentBefore(g: Gate, t: TransitionId, j: nat)
    requires t in g.transitions && j < |g.transitions[t].queue|
  {
    forall i :: 0 <= i < j ==> Silent(g, g.transitions[t].queue[i])
  }

  // A live and welcome candidate gets in however many are before it that never answer:
  // their deadlines are all that it takes.
  lemma {:induction false} SilenceBlocksNobody(g: Gate, t: TransitionId, j: nat, env: Env) returns (es: seq<Event>)
    requires Inv(g) && t in g.transitions && 0 < j < |g.transitions[t].queue| && SilentBefore(g, t, j)
    requires g.transitions[t].cleanup && g.transitions[t].queue[j] in g.candidates
    requires var x := g.candidates[g.transitions[t].queue[j]];
      x.live && !x.expired && env.current == Some(x.identity) == Some(g.transitions[t].target)
    requires env.accepts && env.announces
    ensures forall e :: e in es ==> e.Deadline? && e.candidate in g.transitions[t].queue[..j]
    ensures IsRun(g, es) && IsAccepted(After(g, es), g.candidates[g.transitions[t].queue[j]].port)
    ensures g.transitions[t].source !in After(g, es).reservations
    decreases j
  {
    hide Inv, Step, DeadlineLaw, IsAccepted;
    var q := g.transitions[t].queue;
    QueueOf(g, t);
    assert Silent(g, q[0]);
    DeadlineLands(g, q[0], env);
    var k := NextOpen(g, q, j);
    HeadPasses(g, Step(g, Deadline(q[0], env)), t, k, env);
    StepKeeps(g, Deadline(q[0], env));
    var z := Step(g, Deadline(q[0], env));
    if k == j {
      LetIn(g, z, t, j, env);
      es := [];
      NoEvents(z);
    } else {
      Moved(g, z, t, j, k, env);
      es := SilenceBlocksNobody(z, t, j - k, env);
      assert forall c :: c in q[k..][..j - k] ==> c in q[..j];
    }
    RunFirst(g, Deadline(q[0], env), es);
    es := [Deadline(q[0], env)] + es;
  }

  lemma QueueOf(g: Gate, t: TransitionId)
    requires Inv(g) && t in g.transitions && g.transitions[t].queue != []
    ensures forall c :: c in g.transitions[t].queue ==> c in g.candidates && g.candidates[c].owner == t
    ensures !g.candidates[g.transitions[t].queue[0]].expired
    ensures forall i, j :: 0 <= i < j < |g.transitions[t].queue| ==>
      g.transitions[t].queue[i] != g.transitions[t].queue[j]
  {
    hide Answers, Ports, Promotions, Tables, Standing;
    HeadsSplit(g, t);
    var q := g.transitions[t].queue;
    forall c | c in q ensures c in g.candidates && g.candidates[c].owner == t {
      assert Queues1(g, t, c);
    }
    forall i, j | 0 <= i < j < |q| ensures q[i] != q[j] {
      assert InOrder(g, t, i, j);
    }
  }

  lemma HeadPasses(g: Gate, z: Gate, t: TransitionId, k: nat, env: Env)
    requires Queued(g) && t in g.transitions && g.transitions[t].queue != []
    requires var c := g.transitions[t].queue[0]; g.candidates[c].owner == t && DeadlineLaw(g, z, c, env)
    requires 0 < k < |g.transitions[t].queue| && FirstOpen(g, g.transitions[t].queue, k)
    ensures TurnOf(Silenced(g, g.transitions[t].queue[0]), z, t, k, env)
  {
    hide TurnOf;
  }

  lemma LetIn(g: Gate, z: Gate, t: TransitionId, j: nat, env: Env)
    requires Queued(g) && t in g.transitions && 0 < j < |g.transitions[t].queue|
    requires g.transitions[t].queue[0] != g.transitions[t].queue[j] && g.transitions[t].cleanup
    requires TurnOf(Silenced(g, g.transitions[t].queue[0]), z, t, j, env)
    requires var x := g.candidates[g.transitions[t].queue[j]];
      x.live && env.current == Some(x.identity) == Some(g.transitions[t].target)
    requires env.accepts && env.announces
    ensures IsAccepted(z, g.candidates[g.transitions[t].queue[j]].port) && g.transitions[t].source !in z.reservations
  {
  }

  lemma Moved(g: Gate, z: Gate, t: TransitionId, j: nat, k: nat, env: Env)
    requires Queued(g) && t in g.transitions && 0 < k < j < |g.transitions[t].queue| && SilentBefore(g, t, j)
    requires forall i, m :: 0 <= i < m < |g.transitions[t].queue| ==>
      g.transitions[t].queue[i] != g.transitions[t].queue[m]
    requires FirstOpen(g, g.transitions[t].queue, k)
    requires TurnOf(Silenced(g, g.transitions[t].queue[0]), z, t, k, env)
    ensures t in z.transitions && z.transitions[t] == g.transitions[t].(queue := g.transitions[t].queue[k..])
    ensures SilentBefore(z, t, j - k)
    ensures var c := g.transitions[t].queue[j]; c in z.candidates && z.candidates[c] == g.candidates[c]
    ensures z.transitions[t].queue[j - k] == g.transitions[t].queue[j]
  {
    var q := g.transitions[t].queue;
    assert q[k] != q[0];
    forall i | 0 <= i < j - k
      ensures z.transitions[t].queue[i] in z.candidates && z.transitions[t].queue[i] == q[k + i]
      ensures z.candidates[q[k + i]] == g.candidates[q[k + i]]
    {
      assert q[k + i] != q[0];
    }
    forall i | 0 <= i < j - k ensures Silent(z, z.transitions[t].queue[i]) {
      assert Silent(g, q[k + i]);
    }
  }

  // ---------------------------------------------------------- the deadlines

  // A candidate that is still open has a deadline running exactly until it answers.
  predicate Clocked(x: Candidate) {
    x.closed || x.fate != Waiting || (x.armed <==> !x.live)
  }

  ghost predicate ClocksOk(g: Gate) {
    forall c :: c in g.candidates ==> Clocked(g.candidates[c])
  }

  lemma OnwardClocks(g: Gate, z: Gate, t: TransitionId)
    requires ClocksOk(g) && Onward(g, z, t)
    ensures ClocksOk(z)
  {
    forall c | c in z.candidates ensures Clocked(z.candidates[c]) {
      assert Marks(g.candidates[c], z.candidates[c]);
    }
  }

  lemma PromoteClocks(g: Gate, t: TransitionId, env: Env)
    requires Queued(g) && t in g.transitions && ClocksOk(g)
    ensures ClocksOk(Promote(g, t, env))
  {
    hide Onward, Suffix, Promote;
    PromoteOnward(g, t, env);
    OnwardClocks(g, Promote(g, t, env), t);
  }

  lemma AddClocks(g: Gate, t: TransitionId, port: Port, origin: nat, identity: nat, challenge: Challenge, env: Env)
    requires Queued(g) && t in g.transitions && ClocksOk(g)
    ensures ClocksOk(AddCandidate(g, t, port, origin, identity, challenge, env))
  {
    hide Promote;
    var y := Enqueue(g, t, port, origin, identity, challenge);
    if !env.posts {
      PromoteClocks(Expire(y, g.nextCandidate), t, env);
    }
  }

  lemma ReceiveClocks(g: Gate, e: Event)
    requires Linked(g) && e.Offer? && ClocksOk(g)
    ensures ClocksOk(Receive(g, e))
  {
    hide AddCandidate, CloseCandidates, Onward, Clocked;
    var seen := g.(offered := g.offered + set p | p in e.ports);
    if e.plain && |e.ports| == 1 && e.source.Some? && e.identity.Some? {
      var port, source, identity := e.ports[0], e.source.value, e.identity.value;
      if source in g.reservations {
        var t := g.reservations[source];
        if g.transitions[t].target == identity {
          AddClocks(seen, t, port, e.origin, identity, e.challenge, e.env);
        } else {
          CloseAllOnward(seen, t);
          var y := CloseCandidates(seen, t);
          OnwardClocks(seen, y, t);
          SameCandidates(seen, y, t);
          AddClocks(SetTransition(y, t, y.transitions[t].(target := identity)), t, port, e.origin, identity,
                    e.challenge, e.env);
        }
      } else {
        var t := g.nextTransition;
        var previous := if e.previous.Some? then Some(e.previous.value.context) else None;
        var x := Transition(source, previous, identity, previous.None?, previous.Some?, [], 0, false);
        var z := SetTransition(seen, t, x).(reservations := g.reservations[source := t], nextTransition := t + 1);
        AddClocks(z, t, port, e.origin, identity, e.challenge, e.env);
      }
    }
  }

  lemma ClocksStep(g: Gate, e: Event)
    requires Inv(g) && Enabled(g, e) && ClocksOk(g)
    ensures Linked(g) && ClocksOk(Step(g, e))
  {
    hide Promote, Receive, FailTransition, Onward, Core, HeadsOk;
    CoreIsLinked(g, {});
    match e {
      case Offer(_, _, _, _, _, _, _, _) => ReceiveClocks(g, e);
      case Answer(c, challenge, env) =>
        var x := g.candidates[c];
        var y := SetCandidate(g.(heard := g.heard + {(c, challenge)}), c, x.(live := true, armed := false));
        PromoteClocks(y, x.owner, env);
      case Deadline(c, env) => DeadlineClocks(g, c, env);
      case Cleaned(t, env) =>
        var z := SetTransition(g, t, g.transitions[t].(pending := false)).(resolved := g.resolved + {t});
        PromoteClocks(SetTransition(z, t, z.transitions[t].(cleanup := true)), t, env);
      case CleanupFailed(t) =>
        var z := SetTransition(g, t, g.transitions[t].(pending := false));
        if !z.transitions[t].failed {
          FailOnward(z, t);
          OnwardClocks(z, FailTransition(z, t), t);
        } else {
          assert FailTransition(z, t) == z by { FailedStays(z, t); }
        }
    }
  }

  lemma DeadlineClocks(g: Gate, c: CandidateId, env: Env)
    requires Inv(g) && Enabled(g, Deadline(c, env)) && ClocksOk(g)
    ensures Linked(g) && ClocksOk(TimedOut(g, c, env))
  {
    hide Promote, Answers, Ports, Promotions, HeadsOk, Tables, Queues, Standing;
    CoreIsLinked(g, {});
    ListeningStands(g, c);
    if !g.candidates[c].live {
      SilencedSteps(g, c);
      PromoteClocks(Silenced(g, c), g.candidates[c].owner, env);
    }
  }

  lemma FailedStays(g: Gate, t: TransitionId)
    requires Queued(g) && t in g.transitions && g.transitions[t].failed
    ensures FailTransition(g, t) == g
  {
  }

  lemma {:induction false} ClocksRun(g: Gate, es: seq<Event>)
    requires Inv(g) && IsRun(g, es) && ClocksOk(g)
    ensures ClocksOk(After(g, es))
    decreases |es|
  {
    hide Inv, Step, ClocksOk;
    if es != [] {
      StepKeeps(g, es[0]);
      ClocksStep(g, es[0]);
      ClocksRun(Step(g, es[0]), es[1..]);
    }
  }

  // In every reachable state: the first live candidate gets in once cleanup is done and
  // the browser shows its document, whether or not those before it ever answer.
  lemma FirstLiveGetsIn(past: seq<Event>, t: TransitionId, j: nat, env: Env) returns (es: seq<Event>)
    requires IsRun(Start(), past)
    requires var g := After(Start(), past);
      && t in g.transitions && 0 < j < |g.transitions[t].queue| && g.transitions[t].cleanup
      && (forall i :: 0 <= i <= j ==> g.transitions[t].queue[i] in g.candidates)
      && (forall i :: 0 <= i < j ==> !g.candidates[g.transitions[t].queue[i]].live)
      && (var x := g.candidates[g.transitions[t].queue[j]];
          && x.live && !x.expired && x.identity == g.transitions[t].target
          && env == Env(Some(x.identity), true, true, env.posts))
    ensures Inv(After(Start(), past)) && IsRun(After(Start(), past), es)
    ensures var g := After(Start(), past);
      && (forall e :: e in es ==> e.Deadline? && e.candidate in g.transitions[t].queue[..j])
      && IsAccepted(After(g, es), g.candidates[g.transitions[t].queue[j]].port)
      && g.transitions[t].source !in After(g, es).reservations
  {
    hide Inv, Step;
    RunKeeps(Start(), past);
    assert ClocksOk(Start());
    ClocksRun(Start(), past);
    var g := After(Start(), past);
    ClockedAreSilent(g, t, j);
    es := SilenceBlocksNobody(g, t, j, env);
  }

  lemma ClockedAreSilent(g: Gate, t: TransitionId, j: nat)
    requires Inv(g) && ClocksOk(g) && t in g.transitions && j < |g.transitions[t].queue|
    requires forall i :: 0 <= i < j ==> g.transitions[t].queue[i] in g.candidates
    requires forall i :: 0 <= i < j ==> !g.candidates[g.transitions[t].queue[i]].live
    ensures SilentBefore(g, t, j)
  {
    hide Answers, Ports, Promotions, Tables, Standing, HeadsOk;
    forall i | 0 <= i < j ensures Silent(g, g.transitions[t].queue[i]) {
      assert Queues1(g, t, g.transitions[t].queue[i]) && Clocked(g.candidates[g.transitions[t].queue[i]]);
    }
  }

  // It does happen that one whose deadline has passed is still in a queue: the second of
  // two that wait for an answer.
  lemma SilentBehindHead() returns (past: seq<Event>, e: Event)
    ensures IsRun(Start(), past)
    ensures var g := After(Start(), past);
      && Linked(g) && e.Deadline? && Enabled(g, e)
      && (var z := Step(g, e);
          && e.candidate in z.candidates && z.candidates[e.candidate].closed
          && exists t :: t in z.transitions && e.candidate in z.transitions[t].queue)
  {
    hide Inv, IsRun, After;
    var env := Env(None, true, true, true);
    var one := Offer([1], true, Some(0), 0, Some(0), None, 0, env);
    var two := Offer([2], true, Some(0), 0, Some(0), None, 0, env);
    StepKeeps(Start(), one);
    var g1 := Step(Start(), one);
    assert g1.transitions[0].queue == [0] && !g1.candidates[0].live;
    StepKeeps(g1, two);
    var g := Step(g1, two);
    assert g.transitions[0].queue == [0, 1];
    past, e := [one] + ([two] + []), Deadline(1, env);
    NoEvents(g);
    RunFirst(g1, two, []);
    RunFirst(Start(), one, [two] + []);
    DeadlineLands(g, 1, env);
    assert 1 in Step(g, e).transitions[0].queue;
  }
}
