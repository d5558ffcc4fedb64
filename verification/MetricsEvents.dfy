/**
 * Promotion tracking of the metrics sink (src/adapters/metrics-events.ts): a promotion is counted when
 * its run ends, labelled by whether the run called the promoted tool. Tracking is capped, so a run can
 * be dropped before it ends.
 */
module MetricsEvents {
  import opened Prelude

  const MAX_TRACKED_RUNS := 1000

  /** The engine events that matter to promotions; `run.done` and `run.error` end a run alike. */
  datatype EngineEvent =
    | ToolDone(runId: string, name: string, ok: bool)
    | ToolPromoted(runId: string, toolName: string)
    | RunEnded(ended: Option<string>)

  predicate Concerns(e: EngineEvent, id: string) {
    !e.RunEnded? && e.runId == id
  }

  /** A terminator without a run id, or with an empty one, ends nothing. */
  predicate Ends(e: EngineEvent, id: string) {
    e.RunEnded? && e.ended == Some(id) && id != ""
  }

  // ------------------------------------------------------------------ the sink

  datatype Tracking = Tracking(promoted: set<string>, called: set<string>)

  /** `runs` with its insertion order, the counters and the runs warned about. */
  datatype SinkState = SinkState(
    runs: map<string, Tracking>, order: seq<string>, used: nat, unused: nat, okCalls: nat, failedCalls: nat,
    warned: seq<string>)

  function Without(order: seq<string>, id: string): seq<string> {
    if order == [] then []
    else if order[0] == id then Without(order[1..], id)
    else [order[0]] + Without(order[1..], id)
  }

  /** The oldest run, when tracking one more needs its place. */
  function Displaced(order: seq<string>, id: string): Option<string> {
    if id !in order && |order| >= MAX_TRACKED_RUNS then Some(order[0]) else None
  }

  function Admit(order: seq<string>, id: string): seq<string> {
    if id in order then order
    else if |order| >= MAX_TRACKED_RUNS then order[1..] + [id]
    else order + [id]
  }

  function Tracked(s: SinkState, id: string): SinkState {
    if id in s.runs then s
    else
      var runs := s.runs[id := Tracking({}, {})];
      match Displaced(s.order, id)
      case Some(oldest) => s.(runs := runs - {oldest}, order := Admit(s.order, id), warned := s.warned + [oldest])
      case None => s.(runs := runs, order := Admit(s.order, id))
  }

  ghost predicate WellTracked(s: SinkState) {
    && NoDuplicates(s.order)
    && (forall id :: id in s.runs <==> id in s.order)
    && |s.order| <= MAX_TRACKED_RUNS
  }

  predicate NoDuplicates(order: seq<string>) {
    forall i, j :: 0 <= i < j < |order| ==> order[i] != order[j]
  }

  lemma {:induction false} WithoutMembers(order: seq<string>, id: string)
    ensures forall k :: k in Without(order, id) <==> k in order && k != id
    ensures |Without(order, id)| <= |order|
  {
    if order != [] {
      WithoutMembers(order[1..], id);
    }
  }

  lemma {:induction false} WithoutDistinct(order: seq<string>, id: string)
    requires NoDuplicates(order)
    ensures NoDuplicates(Without(order, id))
  {
    if order != [] {
      var rest := order[1..];
      assert forall i :: 0 <= i < |rest| ==> rest[i] == order[i + 1];
      WithoutDistinct(rest, id);
      WithoutMembers(rest, id);
      assert order[0] !in rest;
    }
  }

  lemma {:induction false} TrackedIsWell(s: SinkState, id: string)
    requires WellTracked(s)
    ensures WellTracked(Tracked(s, id)) && id in Tracked(s, id).runs
  {
    if id !in s.runs && |s.order| >= MAX_TRACKED_RUNS {
      assert s.order == [s.order[0]] + s.order[1..];
    }
  }

  function After(s: SinkState, e: EngineEvent): SinkState
    requires WellTracked(s)
  {
    match e
    case ToolDone(id, name, ok) =>
      TrackedIsWell(s, id);
      var t := Tracked(s, id);
      t.(runs := t.runs[id := t.runs[id].(called := t.runs[id].called + {name})],
         okCalls := t.okCalls + (if ok then 1 else 0), failedCalls := t.failedCalls + (if ok then 0 else 1))
    case ToolPromoted(id, tool) =>
      TrackedIsWell(s, id);
      var t := Tracked(s, id);
      t.(runs := t.runs[id := t.runs[id].(promoted := t.runs[id].promoted + {tool})])
    case RunEnded(ended) =>
      if ended.GetOr("") == "" || ended.value !in s.runs then s
      else
        var r := s.runs[ended.value];
        s.(runs := s.runs - {ended.value}, order := Without(s.order, ended.value),
           used := s.used + |r.promoted * r.called|, unused := s.unused + |r.promoted - r.called|)
  }

  lemma {:induction false} AfterIsWell(s: SinkState, e: EngineEvent)
    requires WellTracked(s)
    ensures WellTracked(After(s, e))
  {
    if e.RunEnded? {
      WithoutMembers(s.order, e.ended.GetOr(""));
      WithoutDistinct(s.order, e.ended.GetOr(""));
    } else {
      TrackedIsWell(s, e.runId);
    }
  }

  class MetricsEventSink {
    var runs: map<string, Tracking>
    var order: seq<string>
    var used: nat
    var unused: nat
    var okCalls: nat
    var failedCalls: nat
    var warned: seq<string>

    ghost function State(): SinkState
      reads this
    {
      SinkState(runs, order, used, unused, okCalls, failedCalls, warned)
    }

    constructor ()
      ensures State() == Run([]) && WellTracked(State())
    {
      runs, order, used, unused, okCalls, failedCalls, warned := map[], [], 0, 0, 0, 0, [];
    }

    method Emit(e: EngineEvent)
      requires WellTracked(State())
      modifies this
      ensures WellTracked(State()) && State() == After(old(State()), e)
    {
      AfterIsWell(State(), e);
      match e
      case ToolDone(id, name, ok) => OnToolDone(id, name, ok);
      case ToolPromoted(id, tool) => OnToolPromoted(id, tool);
      case RunEnded(ended) => FinalizeRun(ended);
    }

    method OnToolDone(id: string, name: string, ok: bool)
      requires WellTracked(State())
      modifies this
      ensures State() == After(old(State()), ToolDone(id, name, ok))
    {
      if ok {
        okCalls := okCalls + 1;
      } else {
        failedCalls := failedCalls + 1;
      }
      var r := TrackedRun(id);
      runs := runs[id := r.(called := r.called + {name})];
    }

    method OnToolPromoted(id: string, tool: string)
      requires WellTracked(State())
      modifies this
      ensures State() == After(old(State()), ToolPromoted(id, tool))
    {
      var r := TrackedRun(id);
      runs := runs[id := r.(promoted := r.promoted + {tool})];
    }

    /** The run's tracking, begun if it has none; one run too many displaces the oldest. */
    method TrackedRun(id: string) returns (r: Tracking)
      requires WellTracked(State())
      modifies this
      ensures State() == Tracked(old(State()), id) && id in runs && r == runs[id]
    {
      TrackedIsWell(State(), id);
      if id !in runs {
        runs, order := runs[id := Tracking({}, {})], order + [id];
        if |order| > MAX_TRACKED_RUNS {
          var oldest := order[0];
          runs, order, warned := runs - {oldest}, order[1..], warned + [oldest];
          assert order == Admit(old(order), id);
        }
      }
      r := runs[id];
    }

    /** One sample for each promoted tool, then the run is forgotten. */
    method FinalizeRun(ended: Option<string>)
      requires WellTracked(State())
      modifies this
      ensures State() == After(old(State()), RunEnded(ended))
    {
      if ended.None? || ended.value == "" || ended.value !in runs {
        return;
      }
      CountPromotions(runs[ended.value]);
      runs, order := runs - {ended.value}, Without(order, ended.value);
    }

    method CountPromotions(r: Tracking)
      modifies `used, `unused
      ensures used == old(used) + |r.promoted * r.called|
      ensures unused == old(unused) + |r.promoted - r.called|
    {
      var rest := r.promoted;
      while rest != {}
        invariant rest <= r.promoted
        invariant used + |rest * r.called| == old(used) + |r.promoted * r.called|
        invariant unused + |rest - r.called| == old(unused) + |r.promoted - r.called|
        decreases rest
      {
        var tool :| tool in rest;
        CountOne(rest, r.called, tool);
        if tool in r.called {
          used := used + 1;
        } else {
          unused := unused + 1;
        }
        rest := rest - {tool};
      }
    }
  }

  lemma {:induction false} CountOne(rest: set<string>, called: set<string>, tool: string)
    requires tool in rest
    ensures tool in called ==>
              |(rest - {tool}) * called| == |rest * called| - 1 && (rest - {tool}) - called == rest - called
    ensures tool !in called ==>
              |(rest - {tool}) - called| == |rest - called| - 1 && (rest - {tool}) * called == rest * called
  {
    if tool in called {
      assert (rest - {tool}) * called == rest * called - {tool};
      assert (rest - {tool}) - called == rest - called;
    } else {
      assert (rest - {tool}) - called == (rest - called) - {tool};
      assert (rest - {tool}) * called == rest * called;
    }
  }

  // ------------------------------------------------------------------ what a trace means

  /** The sink after a trace of events. */
  function Run(trace: seq<EngineEvent>): (s: SinkState)
    ensures WellTracked(s)
  {
    if trace == [] then SinkState(map[], [], 0, 0, 0, 0, [])
    else
      var before := Run(trace[..|trace| - 1]);
      AfterIsWell(before, trace[|trace| - 1]);
      After(before, trace[|trace| - 1])
  }

  predicate Opens(order: seq<string>, e: EngineEvent) {
    !e.RunEnded? && e.runId !in order
  }

  /** The runs being tracked after a trace, oldest first. */
  function Open(trace: seq<EngineEvent>): seq<string> {
    if trace == [] then []
    else
      var before, e := Open(trace[..|trace| - 1]), trace[|trace| - 1];
      if !e.RunEnded? then Admit(before, e.runId)
      else if e.ended.GetOr("") == "" then before
      else Without(before, e.ended.value)
  }

  /** The events of a tracked run since its tracking last began; none when it is not tracked. */
  function Episode(trace: seq<EngineEvent>, id: string): seq<EngineEvent> {
    if trace == [] || id !in Open(trace) then []
    else
      var before, e := Episode(trace[..|trace| - 1], id), trace[|trace| - 1];
      if Concerns(e, id) then before + [e] else before
  }

  function Promoted(events: seq<EngineEvent>): set<string> {
    set e | e in events && e.ToolPromoted? :: e.toolName
  }

  function Called(events: seq<EngineEvent>): set<string> {
    set e | e in events && e.ToolDone? :: e.name
  }

  /** The samples with a label that a trace owes: one for each tool promoted in an episode that ended. */
  function Samples(trace: seq<EngineEvent>, used: bool): nat {
    if trace == [] then 0
    else
      var before, e := trace[..|trace| - 1], trace[|trace| - 1];
      Samples(before, used) +
      if e.RunEnded? && e.ended.GetOr("") != "" then
        var episode := Episode(before, e.ended.value);
        if used then |Promoted(episode) * Called(episode)| else |Promoted(episode) - Called(episode)|
      else 0
  }

  /** The promotions lost with the runs dropped. */
  function Lost(trace: seq<EngineEvent>): nat {
    if trace == [] then 0
    else
      var before, e := trace[..|trace| - 1], trace[|trace| - 1];
      var dropped := if e.RunEnded? then None else Displaced(Open(before), e.runId);
      Lost(before) + if dropped.Some? then |Promoted(Episode(before, dropped.value))| else 0
  }

  /** The promotions that are the first of their tool in their episode. */
  function Distinct(trace: seq<EngineEvent>): nat {
    if trace == [] then 0
    else
      var before, e := trace[..|trace| - 1], trace[|trace| - 1];
      Distinct(before) + if e.ToolPromoted? && e.toolName !in Promoted(Episode(before, e.runId)) then 1 else 0
  }

  /** The promotions of the runs listed. */
  function Pending(trace: seq<EngineEvent>, order: seq<string>): nat {
    if order == [] then 0 else |Promoted(Episode(trace, order[0]))| + Pending(trace, order[1..])
  }

  lemma {:induction false} OpenIsOrder(trace: seq<EngineEvent>)
    ensures Run(trace).order == Open(trace)
  {
    if trace != [] {
      OpenIsOrder(trace[..|trace| - 1]);
      var s, e := Run(trace[..|trace| - 1]), trace[|trace| - 1];
      if e.RunEnded? && e.ended.GetOr("") != "" && e.ended.value !in s.runs {
        WithoutAbsent(s.order, e.ended.value);
      }
    }
  }

  lemma {:induction false} WithoutAbsent(order: seq<string>, id: string)
    requires id !in order
    ensures Without(order, id) == order
  {
    if order != [] {
      WithoutAbsent(order[1..], id);
    }
  }

  lemma {:induction false} SnocSets(events: seq<EngineEvent>, e: EngineEvent)
    ensures Promoted(events + [e]) == Promoted(events) + (if e.ToolPromoted? then {e.toolName} else {})
    ensures Called(events + [e]) == Called(events) + (if e.ToolDone? then {e.name} else {})
  {
    assert forall x :: x in events + [e] <==> x in events || x == e;
  }

  function Seen(s: SinkState, id: string): Tracking {
    if id in s.runs then s.runs[id] else Tracking({}, {})
  }

  /** What one event adds to the tracking of a run that stays tracked. */
  function Noted(t: Tracking, e: EngineEvent): Tracking {
    match e
    case ToolDone(_, name, _) => t.(called := t.called + {name})
    case ToolPromoted(_, tool) => t.(promoted := t.promoted + {tool})
    case RunEnded(_) => t
  }

  lemma {:induction false} SeenAfter(s: SinkState, e: EngineEvent, id: string)
    requires WellTracked(s) && WellTracked(After(s, e)) && id in After(s, e).order
    ensures Seen(After(s, e), id) == if Concerns(e, id) then Noted(Seen(s, id), e) else Seen(s, id)
  {
  }

  lemma {:induction false} EpisodeNoted(events: seq<EngineEvent>, e: EngineEvent)
    ensures Described(events + [e]) == Noted(Described(events), e)
  {
    SnocSets(events, e);
  }

  function Described(events: seq<EngineEvent>): Tracking {
    Tracking(Promoted(events), Called(events))
  }

  /** The sink tracks exactly the open runs, each with what its current episode promoted and called. */
  lemma {:induction false} TracksEpisodes(trace: seq<EngineEvent>, id: string)
    ensures id in Run(trace).runs <==> id in Open(trace)
    ensures Seen(Run(trace), id) == Described(Episode(trace, id))
  {
    OpenIsOrder(trace);
    if trace != [] && id in Open(trace) {
      var before, e := trace[..|trace| - 1], trace[|trace| - 1];
      TracksEpisodes(before, id);
      SeenAfter(Run(before), e, id);
      EpisodeNoted(Episode(before, id), e);
    }
  }

  /** The counters are the samples owed, no more and no fewer. */
  lemma {:induction false} CountersAreSamples(trace: seq<EngineEvent>)
    ensures Run(trace).used == Samples(trace, true) && Run(trace).unused == Samples(trace, false)
  {
    if trace != [] {
      var before, e := trace[..|trace| - 1], trace[|trace| - 1];
      CountersAreSamples(before);
      if e.RunEnded? && e.ended.GetOr("") != "" {
        TracksEpisodes(before, e.ended.value);
        assert e.ended.value !in Open(before) ==> Promoted([]) == {};
      }
    }
  }

  // ------------------------------------------------------------------ conservation

  /** An event changes what is pending only for the run it concerns. */
  lemma {:induction false} PendingAfter(trace: seq<EngineEvent>, e: EngineEvent, order: seq<string>)
    requires NoDuplicates(order) && forall id :: id in order ==> id in Open(trace + [e])
    ensures Pending(trace + [e], order) ==
            Pending(trace, order) +
              if e.ToolPromoted? && e.runId in order && e.toolName !in Promoted(Episode(trace, e.runId))
              then 1 else 0
  {
    if order != [] {
      assert order[0] in order && forall id :: id in order[1..] ==> id in order;
      RestDistinct(order);
      PendingAfter(trace, e, order[1..]);
      PromotedAfter(trace, e, order[0]);
    }
  }

  lemma {:induction false} RestDistinct(order: seq<string>)
    requires order != [] && NoDuplicates(order)
    ensures NoDuplicates(order[1..]) && order[0] !in order[1..]
  {
    assert forall i :: 0 <= i < |order| - 1 ==> order[1..][i] == order[i + 1];
  }

  lemma {:induction false} PromotedAfter(trace: seq<EngineEvent>, e: EngineEvent, id: string)
    requires id in Open(trace + [e])
    ensures |Promoted(Episode(trace + [e], id))| ==
            |Promoted(Episode(trace, id))| +
            if e.ToolPromoted? && e.runId == id && e.toolName !in Promoted(Episode(trace, id)) then 1 else 0
  {
    assert (trace + [e])[..|trace|] == trace;
    SnocSets(Episode(trace, id), e);
  }

  lemma {:induction false} PendingWithout(trace: seq<EngineEvent>, order: seq<string>, id: string)
    requires NoDuplicates(order)
    ensures Pending(trace, order) ==
            Pending(trace, Without(order, id)) + if id in order then |Promoted(Episode(trace, id))| else 0
  {
    if order != [] {
      RestDistinct(order);
      PendingWithout(trace, order[1..], id);
    }
  }

  lemma {:induction false} PendingOne(trace: seq<EngineEvent>, order: seq<string>, id: string)
    ensures Pending(trace, order + [id]) == Pending(trace, order) + |Promoted(Episode(trace, id))|
  {
    if order == [] {
      assert [id][1..] == [];
    } else {
      assert (order + [id])[1..] == order[1..] + [id];
      PendingOne(trace, order[1..], id);
    }
  }

  /** Admitting a run keeps what is pending, but for a displaced run. */
  lemma {:induction false} PendingAdmit(trace: seq<EngineEvent>, id: string)
    ensures var order := Open(trace);
            Pending(trace, order) == Pending(trace, Admit(order, id)) +
              match Displaced(order, id) case Some(oldest) => |Promoted(Episode(trace, oldest))| case None => 0
  {
    var order := Open(trace);
    if id !in order {
      assert Promoted(Episode(trace, id)) == {};
      PendingOne(trace, if Displaced(order, id).Some? then order[1..] else order, id);
    }
  }

  /**
   * Nothing is miscounted: over any trace, the samples emitted, the promotions still tracked and those
   * lost with dropped runs are together all the distinct promotions made.
   */
  lemma {:induction false} PromotionsAreConserved(trace: seq<EngineEvent>)
    ensures var s := Run(trace);
            s.used + s.unused + Pending(trace, s.order) + Lost(trace) == Distinct(trace)
  {
    OpenIsOrder(trace);
    CountersAreSamples(trace);
    if trace != [] {
      var before, e := trace[..|trace| - 1], trace[|trace| - 1];
      assert trace == before + [e];
      PromotionsAreConserved(before);
      OpenIsOrder(before);
      CountersAreSamples(before);
      PendingAfter(before, e, Open(trace));
      if e.RunEnded? {
        EndingSettles(before, e);
      } else {
        PendingAdmit(before, e.runId);
      }
    }
  }

  lemma {:induction false} EndingSettles(before: seq<EngineEvent>, e: EngineEvent)
    requires e.RunEnded?
    ensures Samples(before + [e], true) + Samples(before + [e], false) + Pending(before, Open(before + [e])) ==
            Samples(before, true) + Samples(before, false) + Pending(before, Open(before))
  {
    assert (before + [e])[..|before|] == before;
    if e.ended.GetOr("") != "" {
      var episode := Episode(before, e.ended.value);
      OpenIsOrder(before);
      PendingWithout(before, Open(before), e.ended.value);
      assert Promoted(episode) == Promoted(episode) * Called(episode) + (Promoted(episode) - Called(episode));
      assert e.ended.value !in Open(before) ==> Promoted(episode) == {};
    }
  }

  // ------------------------------------------------------------------ runs within the cap

  /** The runs seen and not ended, with no cap on how many. */
  function Live(trace: seq<EngineEvent>): seq<string> {
    if trace == [] then []
    else
      var before, e := Live(trace[..|trace| - 1]), trace[|trace| - 1];
      if !e.RunEnded? then (if e.runId in before then before else before + [e.runId])
      else if e.ended.GetOr("") == "" then before
      else Without(before, e.ended.value)
  }

  /** The events of a run since it last ended. */
  function SinceEnd(trace: seq<EngineEvent>, id: string): seq<EngineEvent> {
    if trace == [] then []
    else
      var before, e := SinceEnd(trace[..|trace| - 1], id), trace[|trace| - 1];
      if Ends(e, id) then [] else if Concerns(e, id) then before + [e] else before
  }

  /** There have never been more live runs than the cap. */
  predicate WithinCap(trace: seq<EngineEvent>) {
    |Live(trace)| <= MAX_TRACKED_RUNS && (trace != [] ==> WithinCap(trace[..|trace| - 1]))
  }

  lemma {:induction false} StepWithinCap(before: seq<EngineEvent>, e: EngineEvent)
    requires Run(before).warned == [] && Open(before) == Live(before)
    ensures Run(before + [e]).warned == [] <==> |Live(before + [e])| <= MAX_TRACKED_RUNS
    ensures Run(before + [e]).warned == [] ==> Open(before + [e]) == Live(before + [e])
  {
    assert (before + [e])[..|before|] == before;
    OpenIsOrder(before);
    if e.RunEnded? {
      WithoutMembers(Live(before), e.ended.GetOr(""));
    }
  }

  lemma {:induction false} WarningsStay(before: seq<EngineEvent>, e: EngineEvent)
    requires Run(before).warned != []
    ensures Run(before + [e]).warned != []
  {
    assert (before + [e])[..|before|] == before;
  }

  /** No run is ever dropped exactly when there are never more live runs than the cap. */
  lemma {:induction false} DropsOnlyOverCap(trace: seq<EngineEvent>)
    ensures Run(trace).warned == [] <==> WithinCap(trace)
    ensures Run(trace).warned == [] ==> Open(trace) == Live(trace)
  {
    if trace != [] {
      var before, e := trace[..|trace| - 1], trace[|trace| - 1];
      DropsOnlyOverCap(before);
      assert trace == before + [e];
      if Run(before).warned == [] {
        StepWithinCap(before, e);
      } else {
        WarningsStay(before, e);
      }
    }
  }

  /** Within the cap an episode is all the run did since it last ended. */
  lemma {:induction false} EpisodeIsWholeRun(trace: seq<EngineEvent>, id: string)
    requires Run(trace).warned == []
    ensures Episode(trace, id) == SinceEnd(trace, id)
  {
    OpenIsOrder(trace);
    if trace != [] {
      var before, e := trace[..|trace| - 1], trace[|trace| - 1];
      OpenIsOrder(before);
      EpisodeIsWholeRun(before, id);
      if e.RunEnded? && e.ended.GetOr("") != "" {
        WithoutMembers(Open(before), e.ended.value);
      }
    }
  }

  /**
   * While there have never been more live runs than the cap, the end of a run emits one sample for each
   * tool the run promoted since it last ended, labelled used exactly when the run also called it.
   */
  lemma {:induction false} EndedRunIsSampled(trace: seq<EngineEvent>, id: string)
    requires id != "" && WithinCap(trace)
    ensures var run, s, r := SinceEnd(trace, id), Run(trace), Run(trace + [RunEnded(Some(id))]);
            && r.used == s.used + |Promoted(run) * Called(run)|
            && r.unused == s.unused + |Promoted(run) - Called(run)|
            && id !in r.runs
  {
    DropsOnlyOverCap(trace);
    EpisodeIsWholeRun(trace, id);
    CountersAreSamples(trace);
    CountersAreSamples(trace + [RunEnded(Some(id))]);
    assert (trace + [RunEnded(Some(id))])[..|trace|] == trace;
  }
}
