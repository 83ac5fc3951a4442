/** The singleton proxy: messages wait while no singleton is known, and are passed on in order. */
module Proxy {
  import opened Prelude

  type Message = nat
  type ActorRef = nat

  datatype State = Buffered(queue: seq<Message>) | Active(target: ActorRef)

  datatype Event =
    | Send(message: Message)
    | SingletonStarted(target: ActorRef)
    | SingletonStopping

  /** The proxy and what it has passed on, to whom. */
  datatype View = View(state: State, passed: seq<(Message, ActorRef)>)

  const INITIAL := View(Buffered([]), [])

  function To(queue: seq<Message>, target: ActorRef): seq<(Message, ActorRef)> {
    if queue == [] then [] else To(queue[..|queue| - 1], target) + [(queue[|queue| - 1], target)]
  }

  function Handle(v: View, e: Event): View {
    match e
    case Send(m) =>
      if v.state.Buffered? then v.(state := Buffered(v.state.queue + [m]))
      else v.(passed := v.passed + [(m, v.state.target)])
    case SingletonStarted(target) =>
      View(Active(target), v.passed + (if v.state.Buffered? then To(v.state.queue, target) else []))
    case SingletonStopping =>
      if v.state.Active? then v.(state := Buffered([])) else v
  }

  class Proxy {
    var state: State
    var passed: seq<(Message, ActorRef)>

    ghost function Fields(): View
      reads this
    {
      View(state, passed)
    }

    constructor ()
      ensures Fields() == INITIAL
    {
      state, passed := Buffered([]), [];
    }

    method HandleSend(m: Message)
      modifies this
      ensures Fields() == Handle(old(Fields()), Send(m))
    {
      match state
      case Buffered(queue) => state := Buffered(queue + [m]);
      case Active(target) => passed := passed + [(m, target)];
    }

    method HandleStarted(target: ActorRef)
      modifies this
      ensures Fields() == Handle(old(Fields()), SingletonStarted(target))
    {
      if state.Buffered? {
        var queue := state.queue;
        ghost var gone := [];
        while |queue| > 0
          invariant gone + queue == old(state).queue
          invariant passed == old(passed) + To(gone, target)
        {
          var m := queue[0];
          queue := queue[1..];
          passed := passed + [(m, target)];
          assert (gone + [m])[..|gone|] == gone;
          gone := gone + [m];
        }
        assert gone == old(state).queue;
      }
      state := Active(target);
    }

    method HandleStopping()
      modifies this
      ensures Fields() == Handle(old(Fields()), SingletonStopping)
    {
      if state.Active? {
        state := Buffered([]);
      }
    }
  }

  function Sent(events: seq<Event>): seq<Message> {
    if events == [] then []
    else
      var init, e := Sent(events[..|events| - 1]), events[|events| - 1];
      if e.Send? then init + [e.message] else init
  }

  function Messages(passed: seq<(Message, ActorRef)>): seq<Message> {
    if passed == [] then [] else Messages(passed[..|passed| - 1]) + [passed[|passed| - 1].0]
  }

  function Waiting(v: View): seq<Message> {
    if v.state.Buffered? then v.state.queue else []
  }

  lemma MessagesAppend(passed: seq<(Message, ActorRef)>, m: Message, target: ActorRef)
    ensures Messages(passed + [(m, target)]) == Messages(passed) + [m]
  {
    assert (passed + [(m, target)])[..|passed|] == passed;
  }

  lemma {:induction false} MessagesTo(passed: seq<(Message, ActorRef)>, queue: seq<Message>, target: ActorRef)
    ensures Messages(passed + To(queue, target)) == Messages(passed) + queue
  {
    if queue == [] {
      assert passed + [] == passed && Messages(passed) + [] == Messages(passed);
    } else {
      var init, last := queue[..|queue| - 1], queue[|queue| - 1];
      calc {
        Messages(passed + To(queue, target));
        { assert passed + (To(init, target) + [(last, target)]) == (passed + To(init, target)) + [(last, target)]; }
        Messages((passed + To(init, target)) + [(last, target)]);
        { MessagesAppend(passed + To(init, target), last, target); }
        Messages(passed + To(init, target)) + [last];
        { MessagesTo(passed, init, target); }
        (Messages(passed) + init) + [last];
        { assert init + [last] == queue; }
        Messages(passed) + queue;
      }
    }
  }

  ghost predicate Run(views: seq<View>, events: seq<Event>) {
    && |views| == |events| + 1 && views[0] == INITIAL
    && forall i :: 0 <= i < |events| ==> views[i + 1] == Handle(views[i], events[i])
  }

  /** What was passed on, followed by what waits. */
  function Line(v: View): seq<Message> {
    Messages(v.passed) + Waiting(v)
  }

  lemma SendJoins(v: View, m: Message)
    ensures Line(Handle(v, Send(m))) == Line(v) + [m]
  {
    if v.state.Active? {
      MessagesAppend(v.passed, m, v.state.target);
    }
  }

  lemma SingletonKeepsLine(v: View, e: Event)
    requires !e.Send?
    ensures Line(Handle(v, e)) == Line(v)
  {
    if e.SingletonStarted? && v.state.Buffered? {
      MessagesTo(v.passed, v.state.queue, e.target);
    } else {
      assert v.passed + [] == v.passed;
    }
  }

  lemma SentGrows(events: seq<Event>, e: Event)
    ensures Sent(events + [e]) == if e.Send? then Sent(events) + [e.message] else Sent(events)
  {
    assert (events + [e])[..|events|] == events;
  }

  /** For every interleaving of sends, starts and stops, what was passed on followed by what waits is what
      was sent: nothing is lost, doubled or reordered. */
  lemma {:induction false} NothingIsLost(views: seq<View>, events: seq<Event>, i: nat)
    requires Run(views, events) && i < |views|
    ensures Messages(views[i].passed) + Waiting(views[i]) == Sent(events[..i])
    decreases i
  {
    if i > 0 {
      NothingIsLost(views, events, i - 1);
      var v, e := views[i - 1], events[i - 1];
      assert events[..i] == events[..i - 1] + [e];
      SentGrows(events[..i - 1], e);
      if e.Send? {
        SendJoins(v, e.message);
      } else {
        SingletonKeepsLine(v, e);
      }
      assert Line(v) == Sent(events[..i - 1]) && Line(views[i]) == Sent(events[..i]);
    }
  }

  /** The singleton that messages go to: the one that started last, unless it has stopped since. */
  function Target(events: seq<Event>): Option<ActorRef> {
    if events == [] then None
    else match events[|events| - 1]
      case Send(_) => Target(events[..|events| - 1])
      case SingletonStarted(target) => Some(target)
      case SingletonStopping => None
  }

  lemma TargetGrows(events: seq<Event>, e: Event)
    ensures Target(events + [e]) == match e case Send(_) => Target(events) case SingletonStarted(t) => Some(t) case SingletonStopping => None
  {
    assert (events + [e])[..|events|] == events;
  }

  /** In every run the proxy is active exactly while there is such a singleton, and points at it. */
  lemma {:induction false} PointsAtTarget(views: seq<View>, events: seq<Event>, i: nat)
    requires Run(views, events) && i < |views|
    ensures views[i].state.Active? <==> Target(events[..i]).Some?
    ensures views[i].state.Active? ==> views[i].state.target == Target(events[..i]).value
    decreases i
  {
    if i > 0 {
      var k := i - 1;
      PointsAtTarget(views, events, k);
      TargetGrows(events[..k], events[k]);
      assert events[..i] == events[..k] + [events[k]];
    }
  }

  lemma {:induction false} ToTarget(queue: seq<Message>, target: ActorRef)
    ensures |To(queue, target)| == |queue| && forall k :: 0 <= k < |queue| ==> To(queue, target)[k] == (queue[k], target)
  {
    if queue != [] {
      ToTarget(queue[..|queue| - 1], target);
    }
  }

  /** In every run, each step passes messages on only to the singleton that is running after it, and a message
      that was passed on is never passed on again or taken back. */
  lemma GoesToTarget(views: seq<View>, events: seq<Event>, i: nat, k: nat)
    requires Run(views, events) && i < |events|
    ensures views[i].passed <= views[i + 1].passed
    ensures |views[i].passed| <= k < |views[i + 1].passed| ==> Target(events[..i + 1]) == Some(views[i + 1].passed[k].1)
  {
    PointsAtTarget(views, events, i + 1);
    var v, e := views[i], events[i];
    assert views[i + 1] == Handle(v, e);
    if e.SingletonStarted? && v.state.Buffered? {
      ToTarget(v.state.queue, e.target);
    }
  }
}
