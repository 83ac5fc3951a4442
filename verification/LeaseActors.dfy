/** Exclusion of actors rather than of `Running`: a stopping manager still has its actor.  It holds in the runs
    in which no stopping manager is asked for the lease by another live node; every such request breaks the
    invariant that it rests on. */
module LeaseActors {
  import opened Prelude
  import opened LeaseManager
  import opened LeaseProtocol
  import opened LeaseStarvation

  /** `x` has `y`'s permission, or an actor that has not stopped yet. */
  predicate Occupies(s: System, x: NodeId, y: NodeId)
    requires x in s.nodes
  {
    s.net[Ack(y, x)] > 0 || Collected(s.nodes[x], y) || s.nodes[x].state.HasActor()
  }

  /** No two live managers occupy the singleton against each other. */
  ghost predicate Apart(s: System) {
    forall x, y {:trigger Occupies(s, x, y), Occupies(s, y, x)} ::
      x in s.live * s.nodes.Keys && y in s.live * s.nodes.Keys && x != y ==> !(Occupies(s, x, y) && Occupies(s, y, x))
  }

  /** A live node's request reaches another manager that is stopping, and is granted at once. */
  predicate Hasty(s: System, e: Event)
    requires Enabled(s, e)
  {
    && e.Deliver? && e.envelope.Request? && e.envelope.src in s.live && e.envelope.src != e.envelope.dst
    && s.nodes[e.envelope.dst].state.Stopping?
  }

  /** A manager is stopping only if it had an actor before, and then it acknowledges nobody but the sender
      of a request that finds it stopping. */
  lemma StopsWithActor(v: View, e: Event, y: NodeId)
    requires !e.Lose? && !e.Crash? && Respond(v, e).view.state.Stopping?
    requires !(v.state.Stopping? && e.Deliver? && e.envelope.Request? && e.envelope.src == y)
    ensures v.state.HasActor() && Ack(v.id, y) !in Respond(v, e).sent
  {
    BroadcastIsOwn(StoppedKind, v.id, v.managers);
  }

  /** A manager gets an actor from a start that succeeds, and from nothing else. */
  lemma ActorIsStarted(v: View, e: Event)
    requires !e.Lose? && !e.Crash? && Respond(v, e).view.state.HasActor()
    ensures v.state.HasActor() || e.Complete?
  {
  }

  /** A manager collects an acknowledgement when it is delivered. */
  lemma CollectsWhatIsDelivered(v: View, e: Event, x: NodeId)
    requires !e.Lose? && !e.Crash? && Collected(Respond(v, e).view, x)
    ensures Collected(v, x) || (e.Deliver? && e.envelope.Ack? && e.envelope.src == x)
  {
  }

  /** A step of `x` that leaves it stopping gives nobody new permission, unless it is hasty. */
  lemma OwnStepStaysApart(s: System, e: Event, x: NodeId, y: NodeId)
    requires Enabled(s, e) && !e.Lose? && !e.Crash? && Target(e) == x && !Hasty(s, e)
    requires x in s.live && y in s.live && x != y && !Occupies(s, y, x)
    requires Next(s, e).nodes[x].state.Stopping?
    ensures !Occupies(Next(s, e), y, x)
  {
    StopsWithActor(s.nodes[x], e, y);
    assert Ack(x, y) !in s.net;
  }

  /** Nor does a step of `y`. */
  lemma OtherStepStaysApart(s: System, e: Event, x: NodeId, y: NodeId)
    requires Inv(s) && Enabled(s, e) && !e.Lose? && !e.Crash? && Target(e) == y
    requires x in s.live && y in s.live && x != y && !Occupies(s, y, x)
    ensures !Occupies(Next(s, e), y, x)
  {
    var effect := Respond(s.nodes[y], e);
    SendsAsItself(s.nodes[y], e);
    assert NodeOk(s, y) && Ack(x, y) !in s.net;
    assert Next(s, e).net[Ack(x, y)] == 0;
    if Collected(effect.view, x) {
      CollectsWhatIsDelivered(s.nodes[y], e, x);
    }
    if effect.view.state.HasActor() {
      ActorIsStarted(s.nodes[y], e);
    }
  }

  lemma ThirdStepStaysApart(s: System, e: Event, x: NodeId, y: NodeId)
    requires Enabled(s, e) && (e.Lose? || e.Crash? || (Target(e) != x && Target(e) != y))
    requires x in s.live && y in s.live && x != y && !Occupies(s, y, x)
    ensures !Occupies(Next(s, e), y, x)
  {
    assert Ack(x, y) !in s.net;
    if !e.Lose? && !e.Crash? {
      SendsAsItself(s.nodes[Target(e)], e);
    }
  }

  lemma HadActor(s: System, e: Event, x: NodeId)
    requires Enabled(s, e) && x in s.nodes && Next(s, e).nodes[x].state.Stopping?
    ensures s.nodes[x].state.HasActor()
  {
    if !e.Lose? && !e.Crash? && Target(e) == x {
      ActorIsStarted(s.nodes[x], e);
    }
  }

  /** While `x` is stopping nobody else gets its permission. */
  lemma StoppingStaysApart(s: System, e: Event, s': System, x: NodeId, y: NodeId)
    requires Inv(s) && Apart(s) && Step(s, e, s') && !Hasty(s, e)
    requires x in s'.live && y in s'.live && x != y && s'.nodes[x].state.Stopping?
    ensures !Occupies(s', y, x)
  {
    HadActor(s, e, x);
    assert Occupies(s, x, y) && !Occupies(s, y, x);
    if e.Lose? || e.Crash? || (Target(e) != x && Target(e) != y) {
      ThirdStepStaysApart(s, e, x, y);
    } else if Target(e) == x {
      OwnStepStaysApart(s, e, x, y);
    } else {
      OtherStepStaysApart(s, e, x, y);
    }
  }

  lemma PairStaysApart(s: System, e: Event, s': System, x: NodeId, y: NodeId)
    requires Inv(s) && Apart(s) && Step(s, e, s') && !Hasty(s, e) && Shape(s') && x in s'.nodes && y in s'.nodes && PairOk(s', x, y)
    requires x in s'.live && y in s'.live && x != y
    ensures !(Occupies(s', x, y) && Occupies(s', y, x))
  {
    if s'.nodes[x].state.Stopping? {
      StoppingStaysApart(s, e, s', x, y);
    } else if s'.nodes[y].state.Stopping? {
      StoppingStaysApart(s, e, s', y, x);
    }
  }

  lemma GentleStepStaysApart(s: System, e: Event, s': System)
    requires Inv(s) && Apart(s) && Step(s, e, s') && !Hasty(s, e)
    ensures Inv(s') && Apart(s')
  {
    StepInv(s, e, s');
    forall x, y | x in s'.live && y in s'.live && x != y
      ensures x in s'.nodes && y in s'.nodes && !(Occupies(s', x, y) && Occupies(s', y, x))
    {
      assert PairOk(s', x, y);
      PairStaysApart(s, e, s', x, y);
    }
  }

  lemma HastyStepIntrudes(s: System, e: Event)
    requires Inv(s) && Enabled(s, e) && Hasty(s, e)
    ensures !Apart(Next(s, e))
  {
    var x, z, s' := e.envelope.dst, e.envelope.src, Next(s, e);
    assert NodeOk(s, x);
    assert Ack(x, z) in s'.net;
    assert Occupies(s', x, z) && Occupies(s', z, x);
  }

  /** An admissible step keeps the managers apart if and only if it is not hasty. */
  lemma ApartIffNotHasty(s: System, e: Event, s': System)
    requires Inv(s) && Apart(s) && Step(s, e, s')
    ensures Apart(s') <==> !Hasty(s, e)
  {
    if Hasty(s, e) {
      HastyStepIntrudes(s, e);
    } else {
      GentleStepStaysApart(s, e, s');
    }
  }

  lemma {:induction false} RunApart(states: seq<System>, events: seq<Event>, i: nat)
    requires Run(states, events) && i < |states|
    requires forall k :: 0 <= k < i ==> Enabled(states[k], events[k]) && !Hasty(states[k], events[k])
    ensures Inv(states[i]) && Apart(states[i])
    decreases i
  {
    if i == 0 {
      RunInv(states, events, 0);
    } else {
      RunApart(states, events, i - 1);
      assert Step(states[i - 1], events[i - 1], states[i]);
      GentleStepStaysApart(states[i - 1], events[i - 1], states[i]);
    }
  }

  /** The managers are apart throughout a run if and only if none of its steps is hasty. */
  lemma ApartThroughoutIff(states: seq<System>, events: seq<Event>)
    requires Run(states, events)
    ensures (forall i :: 0 <= i < |states| ==> Apart(states[i]))
       <==> (forall k :: 0 <= k < |events| ==> Enabled(states[k], events[k]) && !Hasty(states[k], events[k]))
  {
    if forall i :: 0 <= i < |states| ==> Apart(states[i]) {
      forall k | 0 <= k < |events|
        ensures Enabled(states[k], events[k]) && !Hasty(states[k], events[k])
      {
        RunInv(states, events, k);
        assert Step(states[k], events[k], states[k + 1]);
        assert Apart(states[k]) && Apart(states[k + 1]);
        ApartIffNotHasty(states[k], events[k], states[k + 1]);
      }
    }
    if forall k :: 0 <= k < |events| ==> Enabled(states[k], events[k]) && !Hasty(states[k], events[k]) {
      forall i | 0 <= i < |states|
        ensures Apart(states[i])
      {
        RunApart(states, events, i);
      }
    }
  }

  /** In every run without hasty requests at most one live manager has an actor, running or stopping. */
  lemma OneActor(states: seq<System>, events: seq<Event>, i: nat, x: NodeId, y: NodeId)
    requires Run(states, events) && i < |states|
    requires forall k :: 0 <= k < i ==> Enabled(states[k], events[k]) && !Hasty(states[k], events[k])
    requires x in states[i].live && y in states[i].live && x != y
    ensures x in states[i].nodes && y in states[i].nodes
    ensures !(states[i].nodes[x].state.HasActor() && states[i].nodes[y].state.HasActor())
  {
    RunApart(states, events, i);
    assert Occupies(states[i], x, y) && Occupies(states[i], y, x) ==> false;
  }
}
