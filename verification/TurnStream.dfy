/**
 * A turn as its viewers see it: the runtime publishes each event to the bus and to the viewers at once
 * (src/runtime/runtime.ts), and a viewer that connects replays the buffer before it follows.
 */
module TurnStream {
  import opened Prelude
  import opened TurnLog
  import opened ConversationEvents

  datatype Config = Config(cap: nat, keeps: bool)

  datatype World = World(runs: Runs, hub: Hub)

  datatype Act =
    | Begin(c: string)
    | Emit(c: string, kind: string, data: string, writesFailing: set<string>)
    | End(c: string, status: RunStatus)
    | Collect(c: string)
    | View(viewer: string, c: string, userId: string, afterSeq: int)
    | Fan(step: Step)

  function Next(config: Config, w: World, act: Act): World {
    match act
    case Begin(c) => w.(runs := Begun(w.runs, c))
    case Emit(c, kind, data, failing) =>
      World(Published(w.runs, c, kind, data, config.cap, config.keeps),
            if IsRunning(w.runs, c)
            then After(w.hub, Publish(c, NextEvent(w.runs[c], kind, data, config.cap), failing))
            else w.hub)
    case End(c, status) => w.(runs := Ended(w.runs, c, status, config.keeps))
    case Collect(c) => w.(runs := Collected(w.runs, c))
    case View(id, c, userId, afterSeq) =>
      var replay := Since(w.runs, c, afterSeq);
      w.(hub := After(w.hub, Subscribe(id, c, userId, replay, IsRunning(w.runs, c), CurrentSeq(w.runs, c))))
    case Fan(step) => w.(hub := After(w.hub, step))
  }

  function Acts(config: Config, w: World, acts: seq<Act>): World
    decreases |acts|
  {
    if acts == [] then w else Acts(config, Next(config, w, acts[0]), acts[1..])
  }

  class Runtime {
    const runBus: RunBus
    const viewers: ConversationEventManager

    constructor (runBus: RunBus, viewers: ConversationEventManager)
      ensures this.runBus == runBus && this.viewers == viewers
    {
      this.runBus, this.viewers := runBus, viewers;
    }

    ghost function State(): World
      reads runBus, viewers
    {
      World(runBus.runs, viewers.State())
    }

    /** Publishes to the buffer, and what was buffered to the live viewers. */
    method PublishToRunBus(c: string, kind: string, data: string, failing: set<string>)
      requires WellFormed(viewers.State())
      modifies runBus, viewers
      ensures WellFormed(viewers.State())
      ensures State() == Next(Config(runBus.maxEventsPerRun, runBus.keeps), old(State()), Emit(c, kind, data, failing))
    {
      var buffered := runBus.Publish(c, kind, data);
      if buffered.Some? {
        viewers.PublishEvent(c, buffered.value, failing);
      }
    }

    /** Connects a viewer that has seen everything up to `afterSeq`. */
    method Connect(id: string, c: string, userId: string, afterSeq: int)
      requires WellFormed(viewers.State()) && id !in viewers.streams
      modifies viewers
      ensures WellFormed(viewers.State())
      ensures State() == Next(Config(runBus.maxEventsPerRun, runBus.keeps), old(State()), View(id, c, userId, afterSeq))
    {
      var replay := Since(runBus.runs, c, afterSeq);
      viewers.AddSubscriber(id, c, userId, replay, IsRunning(runBus.runs, c), CurrentSeq(runBus.runs, c));
    }
  }

  // ------------------------------------------------------------------ numbers

  /** The sequence numbers a stream carries. */
  function Numbers(frames: seq<Frame>): seq<nat> {
    if frames == [] then []
    else if frames[0].RunEvent? then [frames[0].event.number] + Numbers(frames[1..])
    else Numbers(frames[1..])
  }

  lemma {:induction false} NumbersConcat(a: seq<Frame>, b: seq<Frame>)
    ensures Numbers(a + b) == Numbers(a) + Numbers(b)
  {
    if a == [] {
      assert a + b == b;
    } else {
      assert (a + b)[1..] == a[1..] + b;
      NumbersConcat(a[1..], b);
    }
  }

  /** The `count` numbers after `last`. */
  function Consecutive(last: nat, count: nat): (r: seq<nat>)
    ensures |r| == count && forall i :: 0 <= i < count ==> r[i] == last + 1 + i
  {
    seq(count, i requires 0 <= i => last + 1 + i)
  }

  lemma {:induction false} NumbersOfLog(log: RunLog, start: nat)
    requires Numbered(log) && start <= log.last
    ensures Numbers(Frames(log.events[start..])) == Consecutive(start, log.last - start)
    decreases log.last - start
  {
    if start < log.last {
      NumbersOfLog(log, start + 1);
      var events := log.events[start..];
      assert events[1..] == log.events[start + 1..] && events[0].number == start + 1;
      assert Frames(events)[1..] == Frames(events[1..]);
    }
  }

  // ------------------------------------------------------------------ one turn

  /** No act begins another turn of the conversation. */
  predicate SameTurn(config: Config, w: World, acts: seq<Act>, c: string)
    decreases |acts|
  {
    acts == [] ||
    (!(acts[0] == Begin(c) && !IsRunning(w.runs, c)) && SameTurn(config, Next(config, w, acts[0]), acts[1..], c))
  }

  predicate OpensStream(act: Act, id: string) {
    (act.View? && act.viewer == id) || (act.Fan? && act.step.Subscribe?) || (act.Fan? && act.step.Publish?)
  }

  /** The id is not reused, and viewers connect and events are published only through the runtime. */
  predicate Wired(acts: seq<Act>, id: string) {
    forall i :: 0 <= i < |acts| ==> !OpensStream(acts[i], id)
  }

  /** Open to the events of a turn that is still retained. */
  predicate Follows(w: World, id: string, c: string) {
    Registered(w.hub, id, c) && c in w.runs
  }

  ghost predicate Sound(w: World, id: string, c: string) {
    AllNumbered(w.runs) && id in w.hub.streams && (id in w.hub.subscribers ==> Registered(w.hub, id, c))
  }

  /** One act gives a viewer the next number, or nothing; only an event of its own turn gives one. */
  lemma {:induction false} OneAct(config: Config, w: World, act: Act, id: string, c: string)
    requires Sound(w, id, c) && !OpensStream(act, id) && !(act == Begin(c) && !IsRunning(w.runs, c))
    ensures Sound(Next(config, w, act), id, c)
    ensures Follows(Next(config, w, act), id, c) ==> Follows(w, id, c)
    ensures var was, now := Numbers(w.hub.streams[id]), Numbers(Next(config, w, act).hub.streams[id]);
            && (now == was || (Follows(w, id, c) && now == was + [w.runs[c].last + 1]))
            && (Follows(Next(config, w, act), id, c) ==>
                  Next(config, w, act).runs[c].last == w.runs[c].last + |now| - |was|)
  {
    match act
    case Emit(d, kind, data, failing) =>
      StepsKeepNumbers(w.runs, d, kind, data, config.cap, Errored, config.keeps);
      if IsRunning(w.runs, d) {
        OneStep(w.hub, Publish(d, NextEvent(w.runs[d], kind, data, config.cap), failing), id, c);
      }
    case Begin(d) => StepsKeepNumbers(w.runs, d, "", "", 0, Errored, config.keeps);
    case End(d, status) => StepsKeepNumbers(w.runs, d, "", "", 0, status, config.keeps);
    case Collect(d) => StepsKeepNumbers(w.runs, d, "", "", 0, Errored, config.keeps);
    case View(_, _, _, _) =>
    case Fan(step) => OneStep(w.hub, step, id, c);
  }

  lemma {:induction false} OneStep(hub: Hub, step: Step, id: string, c: string)
    requires id in hub.streams && (id in hub.subscribers ==> Registered(hub, id, c)) && !step.Subscribe?
    ensures id in After(hub, step).streams
    ensures id in After(hub, step).subscribers ==>
              id in hub.subscribers && Registered(After(hub, step), id, c) && !Drops(step, id, c)
    ensures id in hub.subscribers && id !in After(hub, step).subscribers ==> Drops(step, id, c)
    ensures Numbers(After(hub, step).streams[id]) == Numbers(hub.streams[id]) +
              if id in hub.subscribers && !Drops(step, id, c) && step.Publish? && step.conversationId == c
                then [step.event.number] else []
  {
    if id in hub.subscribers {
      StepOnRegistered(hub, step, id, c);
      NumbersConcat(hub.streams[id], Owed(step, c));
      assert forall f: Frame :: [f][1..] == [];
    }
  }

  /** While one turn lasts, a viewer's stream gains consecutive numbers, and all there are. */
  lemma {:induction false} TurnTail(config: Config, w: World, acts: seq<Act>, id: string, c: string, last: nat)
    requires Sound(w, id, c) && Wired(acts, id) && SameTurn(config, w, acts, c)
    requires Follows(w, id, c) ==> w.runs[c].last == last
    ensures var r := Acts(config, w, acts);
            && Sound(r, id, c)
            && var was, now := Numbers(w.hub.streams[id]), Numbers(r.hub.streams[id]);
               && |was| <= |now|
               && now == was + Consecutive(last, |now| - |was|)
               && (Follows(r, id, c) ==> r.runs[c].last == last + |now| - |was|)
               && (!Follows(w, id, c) ==> now == was && !Follows(r, id, c))
    decreases |acts|
  {
    if acts != [] {
      var next := Next(config, w, acts[0]);
      assert !OpensStream(acts[0], id);
      OneAct(config, w, acts[0], id, c);
      assert forall i :: 0 <= i < |acts| - 1 ==> acts[1..][i] == acts[i + 1];
      var was, mid := Numbers(w.hub.streams[id]), Numbers(next.hub.streams[id]);
      TurnTail(config, next, acts[1..], id, c, last + |mid| - |was|);
    }
  }

  /**
   * No gap, no duplicate, no reordering: a viewer that connects during a turn with a cursor carries,
   * for as long as the turn is the same, exactly the consecutive numbers from its cursor on; while it is
   * connected and the log retained, up to the last one assigned.
   */
  lemma {:induction false} ViewerMissesNothing(
    config: Config, w: World, id: string, c: string, userId: string, afterSeq: int, acts: seq<Act>)
    requires AllNumbered(w.runs) && Wired(acts, id)
    requires SameTurn(config, Next(config, w, View(id, c, userId, afterSeq)), acts, c)
    ensures var r := Acts(config, Next(config, w, View(id, c, userId, afterSeq)), acts);
            var start := Resume(CurrentSeq(w.runs, c), afterSeq);
            && id in r.hub.streams
            && var carried := Numbers(r.hub.streams[id]);
               && carried == Consecutive(start, |carried|)
               && (Follows(r, id, c) ==> start + |carried| == r.runs[c].last)
  {
    var v := Next(config, w, View(id, c, userId, afterSeq));
    var start, last := Resume(CurrentSeq(w.runs, c), afterSeq), CurrentSeq(w.runs, c);
    assert Numbers(v.hub.streams[id]) == Consecutive(start, last - start) by {
      var head := [Subscribed(IsRunning(w.runs, c), last)];
      NumbersConcat(head, Frames(Since(w.runs, c, afterSeq)));
      assert head[1..] == [];
      if c in w.runs {
        ReplayIsSuffix(w.runs[c], afterSeq);
        NumbersOfLog(w.runs[c], start);
      }
    }
    TurnTail(config, v, acts, id, c, last);
  }

  /**
   * What a cursor costs. Numbers start again with each turn, and a cursor may be left over from a longer
   * one. A viewer that has rendered `seen` numbers of this turn and connects with any cursor is never
   * given exactly the numbers after `seen` up to the cursor or the last one assigned by then, whichever is
   * less; so it misses nothing if and only if that is no more than `seen`.
   */
  lemma {:induction false} CursorMisses(
    config: Config, w: World, id: string, c: string, userId: string, afterSeq: int, acts: seq<Act>, seen: nat)
    requires AllNumbered(w.runs) && Wired(acts, id)
    requires SameTurn(config, Next(config, w, View(id, c, userId, afterSeq)), acts, c)
    requires Follows(Acts(config, Next(config, w, View(id, c, userId, afterSeq)), acts), id, c)
    ensures var r := Acts(config, Next(config, w, View(id, c, userId, afterSeq)), acts);
            var carried, start := Numbers(r.hub.streams[id]), Resume(CurrentSeq(w.runs, c), afterSeq);
            && (forall x: nat :: seen < x <= r.runs[c].last ==> (x !in carried <==> x <= start))
            && ((forall x: nat :: seen < x <= r.runs[c].last ==> x in carried) <==> start <= seen)
  {
    ViewerMissesNothing(config, w, id, c, userId, afterSeq, acts);
    var r := Acts(config, Next(config, w, View(id, c, userId, afterSeq)), acts);
    hide Acts, Next, Follows, SameTurn, Wired, Numbers;
    var carried, start := Numbers(r.hub.streams[id]), Resume(CurrentSeq(w.runs, c), afterSeq);
    forall x: nat | seen < x <= r.runs[c].last ensures x !in carried <==> x <= start {
      if x > start {
        assert carried[x - start - 1] == x;
      }
    }
    if start > seen {
      var x: nat := seen + 1;
      assert x !in carried && x <= r.runs[c].last;
    }
  }

  /** A turn of one event so far. */
  const SHORT_TURN :=
    World(map["c" := RunLog(1, [BufferedRunEvent(1, "user.message", "")], Running)], Hub(map[], map[]))

  /** A viewer that connects to it with a cursor of 7 from an earlier turn is told of one event and given none. */
  lemma {:induction false} StaleCursorMissesTheTurn(config: Config)
    ensures var v := Next(config, SHORT_TURN, View("viewer", "c", "user", 7));
            && v.hub.streams["viewer"] == [Subscribed(true, 1)]
            && Follows(v, "viewer", "c") && v.runs["c"].last == 1
  {
  }

  /** A turn begun under a connected viewer is carried from its first event. */
  lemma {:induction false} NextTurnFromItsStart(config: Config, w: World, id: string, c: string, acts: seq<Act>)
    requires Sound(w, id, c) && Registered(w.hub, id, c) && !IsRunning(w.runs, c) && Wired(acts, id)
    requires SameTurn(config, Next(config, w, Begin(c)), acts, c)
    ensures var r := Acts(config, Next(config, w, Begin(c)), acts);
            && id in r.hub.streams
            && var was, now := Numbers(w.hub.streams[id]), Numbers(r.hub.streams[id]);
               && |was| <= |now|
               && now == was + Consecutive(0, |now| - |was|)
               && (Follows(r, id, c) ==> |now| - |was| == r.runs[c].last)
  {
    StepsKeepNumbers(w.runs, c, "", "", 0, Errored, config.keeps);
    TurnTail(config, Next(config, w, Begin(c)), acts, id, c, 0);
  }
}
