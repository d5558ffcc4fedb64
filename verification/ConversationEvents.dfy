/**
 * Fan-out of a turn's events to the viewers of a conversation (src/api/conversation-events.ts). A write
 * to a viewer's stream can fail at any time; which ones fail is a parameter of each broadcast.
 */
module ConversationEvents {
  import opened Prelude
  import opened TurnLog

  datatype Frame =
    | Subscribed(isActive: bool, activeSeq: nat)
    | RunEvent(event: BufferedRunEvent)
    | Heartbeat(timestamp: int)

  datatype Subscriber = Subscriber(userId: string, conversationId: string, closed: bool)

  /** The registered subscribers, and what every stream ever opened has accepted. */
  datatype Hub = Hub(subscribers: map<string, Subscriber>, streams: map<string, seq<Frame>>)

  ghost predicate WellFormed(hub: Hub) {
    forall id :: id in hub.subscribers ==> id in hub.streams
  }

  function Frames(events: seq<BufferedRunEvent>): seq<Frame> {
    if events == [] then [] else [RunEvent(events[0])] + Frames(events[1..])
  }

  /** `None` addresses every subscriber. */
  predicate Addressed(sub: Subscriber, conversationId: Option<string>) {
    conversationId == None || conversationId == Some(sub.conversationId)
  }

  predicate Keeps(hub: Hub, id: string, to: Option<string>, failing: set<string>) {
    id in hub.subscribers && !hub.subscribers[id].closed && (Addressed(hub.subscribers[id], to) ==> id !in failing)
  }

  predicate Receives(hub: Hub, id: string, to: Option<string>, failing: set<string>) {
    Keeps(hub, id, to, failing) && Addressed(hub.subscribers[id], to)
  }

  function Broadcast(hub: Hub, to: Option<string>, frame: Frame, failing: set<string>): Hub {
    Hub(map id | id in hub.subscribers && Keeps(hub, id, to, failing) :: hub.subscribers[id],
        map id | id in hub.streams ::
          if Receives(hub, id, to, failing) then hub.streams[id] + [frame] else hub.streams[id])
  }

  /** One subscriber's turn in a broadcast. */
  function Offered(hub: Hub, id: string, to: Option<string>, frame: Frame, failing: set<string>): Hub
    requires id in hub.subscribers && id in hub.streams
  {
    var sub := hub.subscribers[id];
    if sub.closed || (Addressed(sub, to) && id in failing) then hub.(subscribers := hub.subscribers - {id})
    else if Addressed(sub, to) then hub.(streams := hub.streams[id := hub.streams[id] + [frame]])
    else hub
  }

  /** A broadcast that has reached all but `rest`. */
  ghost predicate Partly(
    was: Hub, now: Hub, rest: set<string>, to: Option<string>, frame: Frame, failing: set<string>) {
    && rest <= was.subscribers.Keys
    && was.subscribers.Keys <= was.streams.Keys == now.streams.Keys
    && (forall id :: Reached(was, now, id, rest, to, frame, failing))
  }

  /** What a broadcast has done to one id. */
  ghost predicate Reached(
    was: Hub, now: Hub, id: string, rest: set<string>, to: Option<string>, frame: Frame, failing: set<string>) {
    && (id in now.subscribers <==> id in was.subscribers && (id in rest || Keeps(was, id, to, failing)))
    && (id in now.subscribers ==> now.subscribers[id] == was.subscribers[id])
    && (id in was.streams && id in now.streams ==>
          now.streams[id] ==
            if id !in rest && Receives(was, id, to, failing) then was.streams[id] + [frame] else was.streams[id])
  }

  lemma {:induction false} OfferProgress(
    was: Hub, now: Hub, rest: set<string>, id: string, to: Option<string>, frame: Frame, failing: set<string>)
    requires Partly(was, now, rest, to, frame, failing) && id in rest
    ensures id in now.subscribers && id in now.streams
    ensures Partly(was, Offered(now, id, to, frame, failing), rest - {id}, to, frame, failing)
  {
    var next := Offered(now, id, to, frame, failing);
    assert Reached(was, now, id, rest, to, frame, failing);
    forall k ensures Reached(was, next, k, rest - {id}, to, frame, failing) {
      assert Reached(was, now, k, rest, to, frame, failing);
    }
  }

  lemma {:induction false} PartlyDone(was: Hub, now: Hub, to: Option<string>, frame: Frame, failing: set<string>)
    requires Partly(was, now, {}, to, frame, failing)
    ensures now == Broadcast(was, to, frame, failing)
  {
    var all := Broadcast(was, to, frame, failing);
    forall id
      ensures id in now.subscribers <==> id in all.subscribers
      ensures id in now.subscribers ==> now.subscribers[id] == all.subscribers[id]
      ensures id in was.streams ==> now.streams[id] == all.streams[id]
    {
      assert Reached(was, now, id, {}, to, frame, failing);
    }
    assert now.subscribers == all.subscribers && now.streams == all.streams;
  }

  class ConversationEventManager {
    var subscribers: map<string, Subscriber>
    var streams: map<string, seq<Frame>>

    ghost function State(): Hub
      reads this
    {
      Hub(subscribers, streams)
    }

    constructor ()
      ensures State() == Hub(map[], map[])
    {
      subscribers, streams := map[], map[];
    }

    /** Opens a stream under a new id: the `subscribed` frame, the replay, and only then live events. */
    method AddSubscriber(
      id: string, conversationId: string, userId: string, replay: seq<BufferedRunEvent>, isActive: bool, activeSeq: nat)
      requires WellFormed(State()) && id !in streams
      modifies this
      ensures WellFormed(State())
      ensures State() == After(old(State()), Subscribe(id, conversationId, userId, replay, isActive, activeSeq))
    {
      var sub := Subscriber(userId, conversationId, false);
      streams := streams[id := [Subscribed(isActive, activeSeq)]];
      var i := 0;
      while i < |replay|
        invariant 0 <= i <= |replay|
        invariant subscribers == old(subscribers)
        invariant id in streams && streams == old(streams)[id := streams[id]]
        invariant streams[id] == [Subscribed(isActive, activeSeq)] + Frames(replay[..i])
      {
        FramesOne(replay, i);
        streams := streams[id := streams[id] + [RunEvent(replay[i])]];
        i := i + 1;
      }
      assert replay[..|replay|] == replay;
      subscribers := subscribers[id := sub];
    }

    /** Writes one frame to every subscriber addressed, dropping those whose write fails. */
    method Send(to: Option<string>, frame: Frame, failing: set<string>)
      requires WellFormed(State())
      modifies this
      ensures WellFormed(State()) && State() == Broadcast(old(State()), to, frame, failing)
    {
      var rest := subscribers.Keys;
      while rest != {}
        invariant Partly(old(State()), State(), rest, to, frame, failing)
        decreases rest
      {
        var id :| id in rest;
        OfferProgress(old(State()), State(), rest, id, to, frame, failing);
        var sub := subscribers[id];
        if sub.closed {
          subscribers := subscribers - {id};
        } else if Addressed(sub, to) {
          if id in failing {
            subscribers := subscribers - {id};
          } else {
            streams := streams[id := streams[id] + [frame]];
          }
        }
        rest := rest - {id};
      }
      PartlyDone(old(State()), State(), to, frame, failing);
    }

    method PublishEvent(conversationId: string, event: BufferedRunEvent, failing: set<string>)
      requires WellFormed(State())
      modifies this
      ensures WellFormed(State()) && State() == After(old(State()), Publish(conversationId, event, failing))
    {
      Send(Some(conversationId), RunEvent(event), failing);
    }

    method BroadcastHeartbeat(timestamp: int, failing: set<string>)
      requires WellFormed(State())
      modifies this
      ensures WellFormed(State()) && State() == After(old(State()), Beat(timestamp, failing))
    {
      Send(None, Heartbeat(timestamp), failing);
    }

    method RemoveSubscriber(id: string)
      requires WellFormed(State())
      modifies this
      ensures WellFormed(State()) && State() == After(old(State()), Remove(id))
    {
      if id in subscribers {
        subscribers := subscribers - {id};
      }
    }

    method StopAll()
      requires WellFormed(State())
      modifies this
      ensures WellFormed(State()) && State() == After(old(State()), Stop)
    {
      subscribers := map[];
    }
  }

  lemma {:induction false} FramesOne(events: seq<BufferedRunEvent>, i: nat)
    requires i < |events|
    ensures Frames(events[..i + 1]) == Frames(events[..i]) + [RunEvent(events[i])]
  {
    FramesConcat(events[..i], [events[i]]);
    assert events[..i + 1] == events[..i] + [events[i]] && [events[i]][1..] == [];
  }

  lemma {:induction false} FramesConcat(a: seq<BufferedRunEvent>, b: seq<BufferedRunEvent>)
    ensures Frames(a + b) == Frames(a) + Frames(b)
  {
    if a == [] {
      assert a + b == b;
    } else {
      assert (a + b)[1..] == a[1..] + b;
      FramesConcat(a[1..], b);
    }
  }

  // ------------------------------------------------------------------ traces

  datatype Step =
    | Subscribe(
        id: string, conversationId: string, userId: string, replay: seq<BufferedRunEvent>,
        isActive: bool, activeSeq: nat)
    | Publish(conversationId: string, event: BufferedRunEvent, failing: set<string>)
    | Beat(timestamp: int, failing: set<string>)
    | Remove(id: string)
    | Stop

  function After(hub: Hub, step: Step): Hub {
    match step
    case Subscribe(id, c, userId, replay, isActive, activeSeq) =>
      Hub(hub.subscribers[id := Subscriber(userId, c, false)],
          hub.streams[id := [Subscribed(isActive, activeSeq)] + Frames(replay)])
    case Publish(c, event, failing) => Broadcast(hub, Some(c), RunEvent(event), failing)
    case Beat(timestamp, failing) => Broadcast(hub, None, Heartbeat(timestamp), failing)
    case Remove(id) => hub.(subscribers := hub.subscribers - {id})
    case Stop => hub.(subscribers := map[])
  }

  function Run(hub: Hub, steps: seq<Step>): Hub
    decreases |steps|
  {
    if steps == [] then hub else Run(After(hub, steps[0]), steps[1..])
  }

  predicate Registered(hub: Hub, id: string, conversationId: string) {
    && id in hub.subscribers && id in hub.streams
    && !hub.subscribers[id].closed && hub.subscribers[id].conversationId == conversationId
  }

  /** A step that ends a subscriber's stream: a write of its own that fails, its removal, or a stop. */
  predicate Drops(step: Step, id: string, conversationId: string) {
    match step
    case Subscribe(_, _, _, _, _, _) => false
    case Publish(c, _, failing) => c == conversationId && id in failing
    case Beat(_, failing) => id in failing
    case Remove(other) => other == id
    case Stop => true
  }

  predicate Dropped(steps: seq<Step>, id: string, conversationId: string) {
    exists i :: 0 <= i < |steps| && Drops(steps[i], id, conversationId)
  }

  /** What a conversation's viewer is owed for a step. */
  function Owed(step: Step, conversationId: string): seq<Frame> {
    match step
    case Publish(c, event, _) => if c == conversationId then [RunEvent(event)] else []
    case Beat(timestamp, _) => [Heartbeat(timestamp)]
    case _ => []
  }

  /** What a viewer is owed up to the step that ends its stream. */
  function Live(steps: seq<Step>, id: string, conversationId: string): seq<Frame> {
    if steps == [] || Drops(steps[0], id, conversationId) then []
    else Owed(steps[0], conversationId) + Live(steps[1..], id, conversationId)
  }

  /** An id is handed out once. */
  predicate NeverReopened(steps: seq<Step>, id: string) {
    forall i :: 0 <= i < |steps| && steps[i].Subscribe? ==> steps[i].id != id
  }

  lemma {:induction false} StepOnRegistered(hub: Hub, step: Step, id: string, c: string)
    requires Registered(hub, id, c) && !(step.Subscribe? && step.id == id)
    ensures id in After(hub, step).streams
    ensures if Drops(step, id, c)
            then id !in After(hub, step).subscribers && After(hub, step).streams[id] == hub.streams[id]
            else Registered(After(hub, step), id, c) && After(hub, step).streams[id] == hub.streams[id] + Owed(step, c)
  {
  }

  lemma {:induction false} EndedStaysEnded(hub: Hub, steps: seq<Step>, id: string)
    requires id !in hub.subscribers && id in hub.streams && NeverReopened(steps, id)
    ensures id !in Run(hub, steps).subscribers && id in Run(hub, steps).streams
    ensures Run(hub, steps).streams[id] == hub.streams[id]
    decreases |steps|
  {
    if steps != [] {
      assert !(steps[0].Subscribe? && steps[0].id == id);
      assert id in After(hub, steps[0]).streams && After(hub, steps[0]).streams[id] == hub.streams[id];
      EndedStaysEnded(After(hub, steps[0]), steps[1..], id);
    }
  }

  lemma {:induction false} DroppedFirst(steps: seq<Step>, id: string, c: string)
    requires steps != []
    ensures Dropped(steps, id, c) <==> Drops(steps[0], id, c) || Dropped(steps[1..], id, c)
    ensures NeverReopened(steps, id) ==> NeverReopened(steps[1..], id) && !(steps[0].Subscribe? && steps[0].id == id)
  {
    var rest := steps[1..];
    assert forall i :: 0 <= i < |rest| ==> rest[i] == steps[i + 1];
    if Dropped(steps, id, c) && !Drops(steps[0], id, c) {
      var i :| 0 <= i < |steps| && Drops(steps[i], id, c);
      assert Drops(rest[i - 1], id, c);
    }
  }

  /**
   * What a viewer's stream holds is exactly what it held, then what it is owed, in order, until a step
   * that ends it; and it is registered still exactly when no step has. No other viewer's subscription,
   * failure or removal appears in this.
   */
  lemma {:induction false} StreamIsExact(hub: Hub, steps: seq<Step>, id: string, c: string)
    requires Registered(hub, id, c) && NeverReopened(steps, id)
    ensures id in Run(hub, steps).streams && Run(hub, steps).streams[id] == hub.streams[id] + Live(steps, id, c)
    ensures Registered(Run(hub, steps), id, c) <==> !Dropped(steps, id, c)
    ensures Dropped(steps, id, c) ==> id !in Run(hub, steps).subscribers
    decreases |steps|
  {
    if steps != [] {
      var next, rest := After(hub, steps[0]), steps[1..];
      StepOnRegistered(hub, steps[0], id, c);
      DroppedFirst(steps, id, c);
      if Drops(steps[0], id, c) {
        EndedStaysEnded(next, rest, id);
      } else {
        StreamIsExact(next, rest, id, c);
      }
    }
  }

  /** A new viewer's stream: the `subscribed` frame, its replay, then what it is owed from there on. */
  lemma {:induction false} ReplayThenLive(
    hub: Hub, id: string, c: string, userId: string, replay: seq<BufferedRunEvent>, isActive: bool, activeSeq: nat,
    steps: seq<Step>)
    requires NeverReopened(steps, id)
    ensures var r := Run(After(hub, Subscribe(id, c, userId, replay, isActive, activeSeq)), steps);
            && id in r.streams
            && r.streams[id] == [Subscribed(isActive, activeSeq)] + Frames(replay) + Live(steps, id, c)
            && (Registered(r, id, c) <==> !Dropped(steps, id, c))
  {
    StreamIsExact(After(hub, Subscribe(id, c, userId, replay, isActive, activeSeq)), steps, id, c);
  }

  /** The step as one viewer sees it: other viewers' failures and departures taken out. */
  function AsSeenBy(step: Step, id: string): Step {
    match step
    case Publish(c, event, failing) => Publish(c, event, failing * {id})
    case Beat(timestamp, failing) => Beat(timestamp, failing * {id})
    case _ => step
  }

  predicate SameTo(a: seq<Step>, b: seq<Step>, id: string) {
    |a| == |b| && forall i :: 0 <= i < |a| ==> AsSeenBy(a[i], id) == AsSeenBy(b[i], id)
  }

  lemma {:induction false} LiveSameTo(a: seq<Step>, b: seq<Step>, id: string, c: string)
    requires SameTo(a, b, id)
    ensures Live(a, id, c) == Live(b, id, c)
  {
    if a != [] {
      assert AsSeenBy(a[0], id) == AsSeenBy(b[0], id);
      SeenAlike(a[0], b[0], id, c);
      assert forall i :: 0 <= i < |a| - 1 ==> a[1..][i] == a[i + 1] && b[1..][i] == b[i + 1];
      LiveSameTo(a[1..], b[1..], id, c);
    }
  }

  lemma {:induction false} SeenAlike(a: Step, b: Step, id: string, c: string)
    requires AsSeenBy(a, id) == AsSeenBy(b, id)
    ensures Drops(a, id, c) == Drops(b, id, c) && Owed(a, c) == Owed(b, c)
  {
    if a.Publish? || a.Beat? {
      assert id in a.failing <==> id in a.failing * {id};
      assert id in b.failing <==> id in b.failing * {id};
    }
  }

  /** Another viewer's failed write changes nothing in this one's stream. */
  lemma {:induction false} OthersFailuresAreInvisible(hub: Hub, a: seq<Step>, b: seq<Step>, id: string, c: string)
    requires Registered(hub, id, c) && SameTo(a, b, id) && NeverReopened(a, id) && NeverReopened(b, id)
    ensures id in Run(hub, a).streams && id in Run(hub, b).streams && Run(hub, a).streams[id] == Run(hub, b).streams[id]
  {
    StreamIsExact(hub, a, id, c);
    StreamIsExact(hub, b, id, c);
    LiveSameTo(a, b, id, c);
  }
}
