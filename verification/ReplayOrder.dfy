/**
 * A history stands in the order of its log: user turns and answers come from events at increasing positions,
 * each from one, and no event that should be shown is passed over.
 */
module ReplayOrder {
  import opened Prelude
  import opened Sifting
  import opened ConversationTypes
  import opened Compaction
  import opened Replay
  import opened ReplayStability
  import opened ReplayWellFormed
  import opened CompactionReplay
  import opened ReplayFidelity

  // ------------------------------------------------------------------ turns

  /** An answer, or what a user said; no result and no overlay. */
  predicate IsTurn(m: Message) {
    m.role == Assistant || (m.role == User && !IsOverlay(m))
  }

  function TurnsOf(ms: seq<Message>): seq<Message> {
    if ms == [] then []
    else if IsTurn(ms[0]) then [ms[0]] + TurnsOf(ms[1..])
    else TurnsOf(ms[1..])
  }

  lemma {:induction false} TurnsConcat(a: seq<Message>, b: seq<Message>)
    ensures TurnsOf(a + b) == TurnsOf(a) + TurnsOf(b)
  {
    if a == [] {
      assert a + b == b;
    } else {
      assert (a + b)[1..] == a[1..] + b;
      TurnsConcat(a[1..], b);
    }
  }

  lemma {:induction false} RunTurns(ms: seq<Message>)
    requires AllFromRun(ms)
    ensures TurnsOf(ms) == AssistantsOf(ms)
  {
    if ms != [] {
      assert FromRun(ms[0]);
      forall i | 0 <= i < |ms[1..]| ensures FromRun(ms[1..][i]) {
        assert FromRun(ms[i + 1]);
      }
      RunTurns(ms[1..]);
    }
  }

  // ------------------------------------------------------------------ what a turn stems from

  /** A user message as it was written. */
  ghost predicate UserTurn(m: Message, e: Event) {
    && e.UserMessage?
    && m.role == User && !IsOverlay(m) && m.timestamp == e.ts
    && m.userId == (if e.userId == Some("") then None else e.userId)
    && m.metadata == NO_METADATA.(files := e.files)
    && IsSift(e.content, m.content, IsUserPart, UserPart)
  }

  ghost predicate Answered(w: Wording, m: Message, e: Event) {
    exists run :: AnswerTo(w, m, e, run)
  }

  /** The answer, and after it that the run was stopped. */
  ghost predicate AnsweredAndStopped(w: Wording, m: Message, e: Event) {
    && m.content != [] && m.content[|m.content| - 1] == PlainText(w.cancelledRun)
    && Answered(w, m.(content := m.content[..|m.content| - 1]), e)
  }

  /** The message that only tells of a stop. */
  predicate Stopped(w: Wording, m: Message, e: Event) {
    && e.RunDone? && e.stopReason == "cancelled"
    && m.role == Assistant && m.content == [PlainText(w.cancelledRun)] && m.timestamp == e.ts
  }

  ghost predicate Stems(w: Wording, m: Message, e: Event) {
    || UserTurn(m, e)
    || Answered(w, m, e)
    || AnsweredAndStopped(w, m, e)
    || Stopped(w, m, e)
  }

  /** The event ends a run: a user message or the start of a run, or the run's own end; the end of another does not. */
  predicate EndsRun(e: Event, runId: string) {
    e.UserMessage? || e.RunStart? || (e.RunDone? && e.runId == runId) || (e.RunError? && e.runId == runId)
  }

  /** Event `p` is a response inside the run that event `r` starts. */
  predicate InRun(events: seq<Event>, r: nat, p: nat) {
    && r < p < |events|
    && events[r].RunStart? && events[p].LlmResponse? && events[p].runId == events[r].runId
    && forall i :: r < i <= p ==> !EndsRun(events[i], events[r].runId)
  }

  ghost predicate InSomeRun(events: seq<Event>, p: nat) {
    exists r: nat :: InRun(events, r, p)
  }

  /** A user message, or a response inside a run that is not silent. */
  ghost predicate IsShown(events: seq<Event>, p: nat) {
    p < |events| && (events[p].UserMessage? || (events[p].LlmResponse? && Loud(events[p]) && InSomeRun(events, p)))
  }

  /** The turns stem, in order, from exactly the events shown, and from stops. */
  ghost predicate Traces(w: Wording, events: seq<Event>, turns: seq<Message>, from: seq<nat>) {
    && Ascending(from, |events|) && |from| == |turns|
    && (forall i :: 0 <= i < |turns| ==> Stems(w, turns[i], events[from[i]]))
    && (forall p: nat :: p < |events| && !events[p].RunDone? ==> (p in from <==> IsShown(events, p)))
  }

  // ------------------------------------------------------------------ a step of the log

  lemma {:induction false} UserStems(e: UserMessageEvent)
    ensures UserTurn(BuildUserMessage(e), e)
  {
    var from := UserContentKept(e.content);
  }

  lemma {:induction false} LastAssistant(ms: seq<Message>)
    requires ms != [] && ms[|ms| - 1].role == Assistant
    ensures AssistantsOf(ms) == AssistantsOf(ms[..|ms| - 1]) + [ms[|ms| - 1]]
  {
    var n := |ms| - 1;
    assert ms == ms[..n] + [ms[n]] && [ms[n]][1..] == [];
    AssistantsConcat(ms[..n], [ms[n]]);
  }

  lemma {:induction false} StopEnds(w: Wording, events: seq<Event>, runId: string, m: Message)
    requires IsStopped(events, runId) && m.role == Assistant && m.content == [PlainText(w.cancelledRun)]
    requires m.timestamp == events[InnerLength(events, runId)].ts
    ensures InnerLength(events, runId) < |events| && Stopped(w, m, events[InnerLength(events, runId)])
  {
  }

  /** A message that ends in the marker of a stop. */
  predicate EndsStopped(w: Wording, m: Message, before: Message) {
    m == before.(content := before.content + [PlainText(w.cancelledRun)])
  }

  /** What a stop does to a span's answers: nothing, one more of its own, or the last one told of it. */
  lemma {:induction false} ClosedAnswers(w: Wording, events: seq<Event>, runId: string)
    ensures var a, c := AssistantsOf(OpenSpan(w, events, runId)), AssistantsOf(SpanMessages(w, events, runId));
            var n, k := InnerLength(events, runId), |a| - 1;
            || c == a
            || (|c| == |a| + 1 && c[..|a|] == a && n < |events| && Stopped(w, c[|a|], events[n]))
            || (|c| == |a| > 0 && c[..k] == a[..k] && EndsStopped(w, c[k], a[k]))
  {
    hide SpanMessages, OpenSpan, IsStopped, Stopped, HasOther, InnerLength;
    var open, closed := OpenSpan(w, events, runId), SpanMessages(w, events, runId);
    StopIsTold(w, events, runId);
    if closed != open {
      LastAssistant(closed);
      if |closed| > |open| {
        StopEnds(w, events, runId, closed[|closed| - 1]);
      } else {
        LastAssistant(open);
      }
    }
  }

  lemma {:induction false} StillStems(w: Wording, m: Message, before: Message, e: Event)
    requires EndsStopped(w, m, before) && Answered(w, before, e)
    ensures Stems(w, m, e)
  {
    hide Answered;
    assert m.content[..|m.content| - 1] == before.content;
    assert m.(content := m.content[..|m.content| - 1]) == before;
  }

  /** The responses of a span, and its end where it has a message of its own. */
  ghost predicate AreSpoken(events: seq<Event>, runId: string, from: seq<nat>) {
    var n := InnerLength(events, runId);
    && Ascending(from, |events|) && (forall i :: 0 <= i < |from| ==> from[i] <= n)
    && (forall p: nat :: p < |events| && !events[p].RunDone? ==> (p in from <==> p < n && Speaks(runId)(events[p])))
  }

  lemma {:induction false} SpanSpoken(
    events: seq<Event>, runId: string, a: seq<Message>, like: (Message, Event) -> bool, f: seq<nat>, stopped: bool)
    returns (from: seq<nat>)
    requires Sifts(events[..InnerLength(events, runId)], a, Speaks(runId), like, f)
    requires stopped ==> var n := InnerLength(events, runId); n < |events| && events[n].RunDone?
    ensures AreSpoken(events, runId, from) && f <= from
    ensures from == if stopped then f + [InnerLength(events, runId)] else f
  {
    hide InnerLength;
    var n := InnerLength(events, runId);
    from := if stopped then f + [n] else f;
    forall p: nat | p < |events| && !events[p].RunDone? ensures p in from <==> p < n && Speaks(runId)(events[p]) {
      assert p < n ==> events[..n][p] == events[p];
      assert p in from <==> p in f || (stopped && p == n);
    }
  }

  /** The closed span's answers one by one: as they were, or told of the stop, and perhaps the stop's own. */
  ghost predicate ClosesAs(w: Wording, events: seq<Event>, n: nat, a: seq<Message>, c: seq<Message>) {
    && (|c| == |a| || (|c| == |a| + 1 && n < |events| && Stopped(w, c[|a|], events[n])))
    && forall i :: 0 <= i < |a| ==> c[i] == a[i] || EndsStopped(w, c[i], a[i])
  }

  lemma {:induction false} ClosedOneByOne(w: Wording, events: seq<Event>, runId: string)
    ensures ClosesAs(w, events, InnerLength(events, runId), AssistantsOf(OpenSpan(w, events, runId)),
                     AssistantsOf(SpanMessages(w, events, runId)))
  {
    hide SpanMessages, OpenSpan, EndsStopped, InnerLength, AssistantsOf, Stopped;
    ClosedAnswers(w, events, runId);
    var a, c := AssistantsOf(OpenSpan(w, events, runId)), AssistantsOf(SpanMessages(w, events, runId));
    forall i | 0 <= i < |a| ensures c[i] == a[i] || EndsStopped(w, c[i], a[i]) {
      if i < |a| - 1 && c[..|a| - 1] == a[..|a| - 1] {
        assert c[i] == c[..|a| - 1][i] == a[..|a| - 1][i];
      } else if |c| == |a| + 1 {
        assert c[i] == c[..|a|][i];
      }
    }
  }

  /** The answers of a span, its stop included, stem from the responses inside it in order, and from its end. */
  lemma {:induction false} SpanStems(w: Wording, events: seq<Event>, runId: string) returns (from: seq<nat>)
    ensures AreSpoken(events, runId, from)
    ensures var turns := AssistantsOf(SpanMessages(w, events, runId));
            |from| == |turns| && forall i :: 0 <= i < |turns| ==> Stems(w, turns[i], events[from[i]])
  {
    hide SpanMessages, OpenSpan, EndsStopped, Gathered, InnerLength, Stems, AreSpoken, AssistantsOf, Stopped;
    var n := InnerLength(events, runId);
    var run, f := SpanAnswers(w, events, runId);
    ClosedOneByOne(w, events, runId);
    var a, c := AssistantsOf(OpenSpan(w, events, runId)), AssistantsOf(SpanMessages(w, events, runId));
    SiftLength(events[..n], a, Speaks(runId), AnswerIn(w, run), f);
    if |c| > |a| {
      StopIsStem(w, c[|a|], events[n]);
    }
    from := SpanSpoken(events, runId, a, AnswerIn(w, run), f, |c| > |a|);
    forall i | 0 <= i < |a| ensures Stems(w, c[i], events[from[i]]) {
      AnswerStems(w, events, runId, run, a, f, i, c[i]);
      assert from[i] == f[i];
    }
  }

  lemma SiftLength(
    events: seq<Event>, ms: seq<Message>, keep: Event -> bool, like: (Message, Event) -> bool, f: seq<nat>)
    requires Sifts(events, ms, keep, like, f)
    ensures |f| == |ms|
  {
  }

  lemma StopIsStem(w: Wording, m: Message, e: Event)
    requires Stopped(w, m, e)
    ensures Stems(w, m, e) && e.RunDone?
  {
  }

  lemma {:induction false} AnswerStems(
    w: Wording, events: seq<Event>, runId: string, run: Run, a: seq<Message>, f: seq<nat>, i: nat, m: Message)
    requires Sifts(events[..InnerLength(events, runId)], a, Speaks(runId), AnswerIn(w, run), f) && i < |a|
    requires m == a[i] || EndsStopped(w, m, a[i])
    ensures f[i] < InnerLength(events, runId) && Stems(w, m, events[f[i]])
  {
    hide Stems, Answered, InnerLength, EndsStopped;
    AnswerIsAnswered(w, events, runId, run, a, f, i);
    if m == a[i] {
      AnsweredIsStem(w, m, events[f[i]]);
    } else {
      StillStems(w, m, a[i], events[f[i]]);
    }
  }

  lemma AnsweredIsStem(w: Wording, m: Message, e: Event)
    requires Answered(w, m, e)
    ensures Stems(w, m, e)
  {
  }

  lemma {:induction false} AnswerIsAnswered(
    w: Wording, events: seq<Event>, runId: string, run: Run, a: seq<Message>, f: seq<nat>, i: nat)
    requires Sifts(events[..InnerLength(events, runId)], a, Speaks(runId), AnswerIn(w, run), f) && i < |a|
    ensures f[i] < InnerLength(events, runId) && Answered(w, a[i], events[f[i]])
  {
    hide AnswerTo, InnerLength;
    assert AnswerIn(w, run)(a[i], events[..InnerLength(events, runId)][f[i]]);
  }

  /** Inside the span that a log begins with, the responses in a run are those of its run. */
  lemma {:induction false} ShownInSpan(events: seq<Event>, p: nat)
    requires events != [] && events[0].RunStart? && p < InnerLength(events[1..], events[0].runId)
    ensures IsShown(events, p + 1) <==> Speaks(events[0].runId)(events[1..][p])
  {
    var rest, runId := events[1..], events[0].runId;
    assert forall i :: 0 < i <= p + 1 ==> events[i] == rest[i - 1];
    if Responds(runId)(rest[p]) {
      assert InRun(events, 0, p + 1);
    }
    if InSomeRun(events, p + 1) {
      var r: nat :| InRun(events, r, p + 1);
      assert forall i :: 0 < i <= p ==> !events[i].RunStart?;
    }
  }

  /** Being in a run is a matter of the events from its start on. */
  lemma {:induction false} InRunShifts(events: seq<Event>, n: nat, r: nat, p: nat)
    requires n <= |events|
    ensures InRun(events[n..], r, p) <==> InRun(events, n + r, n + p)
  {
    if p < |events| - n {
      assert forall i :: 0 <= i <= p ==> events[n..][i] == events[n + i];
      if InRun(events[n..], r, p) {
        assert forall i :: n + r < i <= n + p ==> events[i] == events[n..][i - n];
      }
    }
  }

  /** Past its leading step, what a log shows is what the rest of it shows. */
  lemma {:induction false} ShownPast(events: seq<Event>, p: nat)
    requires events != [] && StepLength(events) <= p < |events|
    ensures IsShown(events, p) <==> IsShown(events[StepLength(events)..], p - StepLength(events))
  {
    hide InRun, StepLength, Loud;
    var n := StepLength(events);
    if InSomeRun(events[n..], p - n) {
      var q: nat :| InRun(events[n..], q, p - n);
      InRunShifts(events, n, q, p - n);
    }
    if InSomeRun(events, p) {
      var r: nat :| InRun(events, r, p);
      RunStartsPast(events, r, p);
      InRunShifts(events, n, r - n, p - n);
    }
  }

  /** A response past the leading step is in no run that starts in it. */
  lemma {:induction false} RunStartsPast(events: seq<Event>, r: nat, p: nat)
    requires events != [] && StepLength(events) <= p && InRun(events, r, p)
    ensures StepLength(events) <= r
  {
    var rest := events[1..];
    assert forall i :: 0 < i < |events| ==> rest[i - 1] == events[i];
    var m := if events[0].RunStart? then InnerLength(rest, events[0].runId) else 0;
    assert m < |rest| ==> rest[m] == events[m + 1];
  }

  /** The turns of the leading step stem from the events it shows. */
  lemma {:induction false} StepStems(w: Wording, events: seq<Event>) returns (from: seq<nat>)
    requires events != []
    ensures var turns, n := TurnsOf(StepMessages(w, events)), StepLength(events);
            && Ascending(from, n) && |from| == |turns|
            && (forall i :: 0 <= i < |turns| ==> Stems(w, turns[i], events[from[i]]))
            && (forall p: nat :: p < n && !events[p].RunDone? ==> (p in from <==> IsShown(events, p)))
  {
    hide Stems, SpanMessages;
    if events[0].RunStart? {
      from := RunStems(w, events);
    } else {
      OneEventStep(w, events);
      from := if events[0].UserMessage? then [0] else [];
      if events[0].UserMessage? {
        var m := BuildUserMessage(events[0]);
        assert [m][1..] == [];
        assert Stems(w, m, events[0]) by { UserStems(events[0]); UserIsStem(w, m, events[0]); }
      }
    }
  }

  lemma UserIsStem(w: Wording, m: Message, e: Event)
    requires UserTurn(m, e)
    ensures Stems(w, m, e) && IsTurn(m)
  {
  }

  lemma {:induction false} RunStems(w: Wording, events: seq<Event>) returns (from: seq<nat>)
    requires events != [] && events[0].RunStart?
    ensures var turns, n := TurnsOf(StepMessages(w, events)), StepLength(events);
            && Ascending(from, n) && |from| == |turns|
            && (forall i :: 0 <= i < |turns| ==> Stems(w, turns[i], events[from[i]]))
            && (forall p: nat :: p < n && !events[p].RunDone? ==> (p in from <==> IsShown(events, p)))
  {
    hide Stems, SpanMessages, IsShown, Speaks, AreSpoken, StepLength;
    var rest, runId := events[1..], events[0].runId;
    var f := SpanStems(w, rest, runId);
    assert TurnsOf(StepMessages(w, events)) == AssistantsOf(SpanMessages(w, rest, runId)) by {
      SpanTurns(w, rest, runId);
    }
    from := Shifted(f, 1);
    SpokenInStep(events, f);
    forall i | 0 <= i < |f| ensures from[i] < |events| && rest[f[i]] == events[from[i]] {
    }
  }

  /** The spoken positions of the leading span, in the log, are those shown in its step. */
  lemma {:induction false} SpokenInStep(events: seq<Event>, f: seq<nat>)
    requires events != [] && events[0].RunStart? && AreSpoken(events[1..], events[0].runId, f)
    ensures Ascending(Shifted(f, 1), StepLength(events)) && forall i :: 0 <= i < |f| ==> f[i] < |events| - 1
    ensures forall p: nat :: p < StepLength(events) && !events[p].RunDone? ==>
              (p in Shifted(f, 1) <==> IsShown(events, p))
  {
    hide IsShown, Speaks;
    var rest, runId := events[1..], events[0].runId;
    var m := InnerLength(rest, runId);
    forall i | 0 <= i < |f| ensures f[i] + 1 < StepLength(events) {
      assert f[i] in f;
    }
    forall p: nat | p < StepLength(events) && !events[p].RunDone? ensures p in Shifted(f, 1) <==> IsShown(events, p) {
      ShiftedHas(f, 1, p);
      if p == 0 {
        assert !IsShown(events, 0) by { StartNotShown(events); }
      } else {
        assert rest[p - 1] == events[p];
        if p - 1 < m {
          ShownInSpan(events, p - 1);
        } else {
          assert !IsShown(events, p) by { EndNotShown(events, p); }
        }
      }
    }
  }

  lemma {:induction false} SpanTurns(w: Wording, events: seq<Event>, runId: string)
    ensures TurnsOf(SpanMessages(w, events, runId)) == AssistantsOf(SpanMessages(w, events, runId))
  {
    RunIsPaired(w, Collect(events[..InnerLength(events, runId)], runId), CancelledAt(events, runId));
    RunTurns(SpanMessages(w, events, runId));
  }

  lemma StartNotShown(events: seq<Event>)
    requires events != [] && events[0].RunStart?
    ensures !IsShown(events, 0)
  {
  }

  lemma EndNotShown(events: seq<Event>, p: nat)
    requires p < |events| && (events[p].RunDone? || events[p].RunError?)
    ensures !IsShown(events, p)
  {
  }

  // ------------------------------------------------------------------ a log

  lemma {:induction false} TracesJoin(
    w: Wording, events: seq<Event>, n: nat, a: seq<Message>, b: seq<Message>, f: seq<nat>, g: seq<nat>)
    requires n <= |events| && Ascending(f, n) && |f| == |a|
    requires forall i :: 0 <= i < |a| ==> Stems(w, a[i], events[f[i]])
    requires forall p: nat :: p < n && !events[p].RunDone? ==> (p in f <==> IsShown(events, p))
    requires Traces(w, events[n..], b, g)
    requires forall p: nat :: n <= p < |events| ==> (IsShown(events, p) <==> IsShown(events[n..], p - n))
    ensures Traces(w, events, a + b, Joined(f, n, g))
  {
    hide Stems, IsShown, Joined;
    var h := Joined(f, n, g);
    JoinedAscends(f, n, g, |events| - n);
    JoinedLength(f, n, g);
    forall i | 0 <= i < |a + b| ensures Stems(w, (a + b)[i], events[h[i]]) {
      JoinedAt(f, n, g, i);
      if i >= |a| {
        assert events[h[i]] == events[n..][g[i - |a|]];
      }
    }
    forall p: nat | p < |events| && !events[p].RunDone? ensures p in h <==> IsShown(events, p) {
      JoinedHas(f, n, g, p);
      if p >= n {
        assert events[n..][p - n] == events[p];
      }
    }
  }

  /** The turns a log replays to stem from its events in order: each shown event has one, and no other but a stop. */
  lemma {:induction false} BuildStems(w: Wording, events: seq<Event>) returns (from: seq<nat>)
    ensures Traces(w, events, TurnsOf(Build(w, events)), from)
    decreases |events|
  {
    hide Stems, IsShown, StepMessages, StepLength;
    if events == [] {
      from := [];
    } else {
      var n := StepLength(events);
      var f := StepStems(w, events);
      var g := BuildStems(w, events[n..]);
      forall p: nat | n <= p < |events| ensures IsShown(events, p) <==> IsShown(events[n..], p - n) {
        ShownPast(events, p);
      }
      TurnsConcat(StepMessages(w, events), Build(w, events[n..]));
      TracesJoin(w, events, n, TurnsOf(StepMessages(w, events)), TurnsOf(Build(w, events[n..])), f, g);
      from := Joined(f, n, g);
    }
  }

  // ------------------------------------------------------------------ a history

  function Surviving(boundary: Option<int>): Event -> bool {
    (e: Event) => Survives(e, boundary)
  }

  predicate SameLogged(kept: Event, e: Event) {
    kept == e
  }

  lemma {:induction false} TailSifts(log: seq<Event>, boundary: Option<int>) returns (at: seq<nat>)
    ensures Sifts(log, Tail(log, boundary), Surviving(boundary), SameLogged, at)
  {
    if log == [] {
      at := [];
    } else {
      at := TailSifts(log[1..], boundary);
      at := SiftHead(log, Tail(log, boundary), Tail(log[1..], boundary), Surviving(boundary), SameLogged, at);
    }
  }

  /** A run whose start and response survive is a run of the tail. */
  lemma {:induction false} RunSurvives(
    log: seq<Event>, tail: seq<Event>, boundary: Option<int>, at: seq<nat>, r: nat, p: nat) returns (x: nat, y: nat)
    requires Sifts(log, tail, Surviving(boundary), SameLogged, at)
    requires InRun(log, r, p) && Survives(log[r], boundary) && Survives(log[p], boundary)
    ensures y < |at| && at[y] == p && InRun(tail, x, y)
  {
    x := AscendingShows(log, tail, Surviving(boundary), SameLogged, at, r);
    y := AscendingShows(log, tail, Surviving(boundary), SameLogged, at, p);
    forall i | 0 <= i < |tail| ensures tail[i] == log[at[i]] {
      assert SameLogged(tail[i], log[at[i]]);
    }
    assert x < y;
    forall i | x < i <= y ensures !EndsRun(tail[i], tail[x].runId) {
      assert r < at[i] <= p;
    }
  }

  /** In the verbatim view, where only compaction records go, a run of the tail is a run of the log. */
  lemma {:induction false} RunOfLog(log: seq<Event>, tail: seq<Event>, at: seq<nat>, x: nat, y: nat)
    requires Sifts(log, tail, Surviving(None), SameLogged, at) && InRun(tail, x, y)
    ensures InRun(log, at[x], at[y])
  {
    forall i | 0 <= i < |tail| ensures tail[i] == log[at[i]] {
      assert SameLogged(tail[i], log[at[i]]);
    }
    forall q | at[x] < q <= at[y] ensures !EndsRun(log[q], log[at[x]].runId) {
      if Survives(log[q], None) {
        var i := AscendingShows(log, tail, Surviving(None), SameLogged, at, q);
        assert x < i <= y;
      }
    }
  }

  /** The turns of a history that its log accounts for: all but the markers replay puts in and the summary seed. */
  function LoggedTurns(w: Wording, log: seq<Event>, ignoreCompaction: bool): seq<Message> {
    var turns := TurnsOf(EraseInserted(Reconstruct(w, log, ignoreCompaction)));
    if Honoured(log, ignoreCompaction).Some? && |turns| >= 2 then turns[2..] else turns
  }

  /** They are the turns the tail replays to, and the seed is two turns before them. */
  lemma {:induction false} LoggedTurnsAre(w: Wording, log: seq<Event>, ignoreCompaction: bool)
    ensures var c := Honoured(log, ignoreCompaction);
            && LoggedTurns(w, log, ignoreCompaction) == TurnsOf(Build(w, Tail(log, BoundaryOf(c))))
            && TurnsOf(EraseInserted(Reconstruct(w, log, ignoreCompaction))) ==
                 Seed(w, log, c) + LoggedTurns(w, log, ignoreCompaction)
            && forall i :: 0 <= i < |Seed(w, log, c)| ==> Seed(w, log, c)[i].timestamp == c.value.compactedThroughTs
  {
    hide Build, Reconstruct, CompactionSummaryMessages, SelectFrom;
    var c := Honoured(log, ignoreCompaction);
    var seed, built := Seed(w, log, c), Build(w, Tail(log, BoundaryOf(c)));
    HistoryIsWellFormed(w, log, ignoreCompaction);
    TurnsConcat(seed, built);
    SeedShape(w, log, c);
    assert TurnsOf(seed) == seed by { SeedIsTurns(w, log, c); }
  }

  lemma {:induction false} SeedIsTurns(w: Wording, log: seq<Event>, c: Option<CompactionEvent>)
    ensures TurnsOf(Seed(w, log, c)) == Seed(w, log, c)
  {
    hide SelectFrom, SeedText;
    var seed := Seed(w, log, c);
    if c.Some? {
      assert seed == [seed[0]] + [seed[1]] && [seed[0]][1..] == [] && [seed[1]][1..] == [];
      TurnsConcat([seed[0]], [seed[1]]);
    }
  }

  /**
   * A history stands in the order of its log, in either view: its turns stem from events at increasing
   * positions that the view keeps, every user message kept has its turn, and so has every response of a run
   * that is kept from its start, but the silent ones; the verbatim view has no others.
   */
  lemma {:induction false} HistoryStems(w: Wording, log: seq<Event>, ignoreCompaction: bool) returns (from: seq<nat>)
    ensures var turns, b := LoggedTurns(w, log, ignoreCompaction), BoundaryOf(Honoured(log, ignoreCompaction));
            && Ascending(from, |log|) && |from| == |turns|
            && (forall i :: 0 <= i < |turns| ==> Survives(log[from[i]], b) && Stems(w, turns[i], log[from[i]]))
            && (forall p: nat :: p < |log| && log[p].UserMessage? && Survives(log[p], b) ==> p in from)
            && (forall r: nat, p: nat ::
                  InRun(log, r, p) && Survives(log[r], b) && Survives(log[p], b) && Loud(log[p]) ==> p in from)
            && (b.None? ==> forall i :: 0 <= i < |from| ==> log[from[i]].RunDone? || IsShown(log, from[i]))
  {
    hide Stems, Build, Tail, Reconstruct, InRun, Loud, Traces, LoggedTurns, Survives;
    var b := BoundaryOf(Honoured(log, ignoreCompaction));
    var tail, turns := Tail(log, b), LoggedTurns(w, log, ignoreCompaction);
    LoggedTurnsAre(w, log, ignoreCompaction);
    var at := TailSifts(log, b);
    var f := BuildStems(w, tail);
    from := KeptStems(w, log, b, tail, turns, at, f);
    ShownAreKept(w, log, b, tail, turns, at, f, from);
    if b.None? {
      KeptAreShown(w, log, tail, turns, at, f, from);
    }
  }

  /** The positions in the log of what stems from the tail. */
  ghost predicate Through(from: seq<nat>, at: seq<nat>, f: seq<nat>) {
    |from| == |f| && forall i :: 0 <= i < |f| ==> f[i] < |at| && from[i] == at[f[i]]
  }

  lemma {:induction false} KeptStems(
    w: Wording, log: seq<Event>, b: Option<int>, tail: seq<Event>, turns: seq<Message>, at: seq<nat>, f: seq<nat>)
    returns (from: seq<nat>)
    requires Sifts(log, tail, Surviving(b), SameLogged, at) && Traces(w, tail, turns, f)
    ensures Through(from, at, f)
    ensures Ascending(from, |log|) && |from| == |turns|
    ensures forall i :: 0 <= i < |turns| ==> Survives(log[from[i]], b) && Stems(w, turns[i], log[from[i]])
  {
    hide Stems, IsShown;
    from := seq(|f|, i requires 0 <= i < |f| => at[f[i]]);
    forall i | 0 <= i < |turns| ensures Survives(log[from[i]], b) && Stems(w, turns[i], log[from[i]]) {
      assert SameLogged(tail[f[i]], log[at[f[i]]]) && at[f[i]] in at;
    }
  }

  lemma {:induction false} ShownAreKept(
    w: Wording, log: seq<Event>, b: Option<int>, tail: seq<Event>, turns: seq<Message>, at: seq<nat>, f: seq<nat>,
    from: seq<nat>)
    requires Sifts(log, tail, Surviving(b), SameLogged, at) && Traces(w, tail, turns, f) && Through(from, at, f)
    ensures forall p: nat :: p < |log| && log[p].UserMessage? && Survives(log[p], b) ==> p in from
    ensures forall r: nat, p: nat ::
              InRun(log, r, p) && Survives(log[r], b) && Survives(log[p], b) && Loud(log[p]) ==> p in from
  {
    hide Stems, Loud;
    forall p: nat | p < |log| && log[p].UserMessage? && Survives(log[p], b) ensures p in from {
      var y := AscendingShows(log, tail, Surviving(b), SameLogged, at, p);
      assert SameLogged(tail[y], log[p]) && IsShown(tail, y);
      PositionIn(from, at, f, y);
    }
    forall r: nat, p: nat | InRun(log, r, p) && Survives(log[r], b) && Survives(log[p], b) && Loud(log[p])
      ensures p in from
    {
      var x, y := RunSurvives(log, tail, b, at, r, p);
      RunIsOfResponse(log, r, p);
      assert SameLogged(tail[y], log[p]) && IsShown(tail, y);
      PositionIn(from, at, f, y);
    }
  }

  lemma {:induction false} KeptAreShown(
    w: Wording, log: seq<Event>, tail: seq<Event>, turns: seq<Message>, at: seq<nat>, f: seq<nat>, from: seq<nat>)
    requires Sifts(log, tail, Surviving(None), SameLogged, at) && Traces(w, tail, turns, f) && Through(from, at, f)
    ensures forall i :: 0 <= i < |from| ==> from[i] < |log| && (log[from[i]].RunDone? || IsShown(log, from[i]))
  {
    hide Stems, InRun, Loud;
    forall i | 0 <= i < |from| ensures from[i] < |log| && (log[from[i]].RunDone? || IsShown(log, from[i])) {
      assert f[i] in f && SameLogged(tail[f[i]], log[from[i]]);
      if !tail[f[i]].RunDone? {
        assert IsShown(tail, f[i]);
        if tail[f[i]].LlmResponse? {
          var x: nat :| InRun(tail, x, f[i]);
          RunIsOfResponse(tail, x, f[i]);
          RunOfLog(log, tail, at, x, f[i]);
          assert InRun(log, at[x], from[i]);
        }
      }
    }
  }

  lemma RunIsOfResponse(log: seq<Event>, r: nat, p: nat)
    requires InRun(log, r, p)
    ensures r < |log| && p < |log| && log[p].LlmResponse?
  {
  }

  lemma {:induction false} PositionIn(from: seq<nat>, at: seq<nat>, f: seq<nat>, y: nat)
    requires Through(from, at, f) && y in f
    ensures y < |at| && at[y] in from
  {
    var i :| 0 <= i < |f| && f[i] == y;
    assert from[i] == at[y];
  }

  // ------------------------------------------------------------------ times

  lemma StemsInTime(w: Wording, m: Message, e: Event)
    requires Stems(w, m, e)
    ensures m.timestamp == e.ts
  {
  }

  ghost predicate InTimeOrder(ms: seq<Message>) {
    forall i, j :: 0 <= i < j < |ms| ==> ms[i].timestamp <= ms[j].timestamp
  }

  /** The turns the log accounts for are in the order of its times, none before the boundary of the view. */
  lemma {:induction false} LoggedInTimeOrder(w: Wording, log: seq<Event>, ignoreCompaction: bool)
    requires Chronological(log)
    ensures var turns, b := LoggedTurns(w, log, ignoreCompaction), BoundaryOf(Honoured(log, ignoreCompaction));
            InTimeOrder(turns) && (b.Some? ==> forall i :: 0 <= i < |turns| ==> turns[i].timestamp >= b.value)
  {
    hide Stems, LoggedTurns, BoundaryOf, Honoured, InRun, Loud, IsShown;
    var from := HistoryStems(w, log, ignoreCompaction);
    var turns := LoggedTurns(w, log, ignoreCompaction);
    forall i | 0 <= i < |turns| ensures turns[i].timestamp == log[from[i]].ts {
      StemsInTime(w, turns[i], log[from[i]]);
    }
    forall i, j | 0 <= i < j < |turns| ensures turns[i].timestamp <= turns[j].timestamp {
      assert from[i] < from[j];
    }
  }

  lemma {:induction false} TimesJoin(a: seq<Message>, b: seq<Message>, t: int)
    requires forall i :: 0 <= i < |a| ==> a[i].timestamp == t
    requires InTimeOrder(b) && (a != [] ==> forall i :: 0 <= i < |b| ==> b[i].timestamp >= t)
    ensures InTimeOrder(a + b)
  {
  }

  /** Where the log runs forwards in time, so do the turns of its history, a summary seed first. */
  lemma {:induction false} TurnsInTimeOrder(w: Wording, log: seq<Event>, ignoreCompaction: bool)
    requires Chronological(log)
    ensures InTimeOrder(TurnsOf(EraseInserted(Reconstruct(w, log, ignoreCompaction))))
  {
    hide Reconstruct, LoggedTurns, TurnsOf, EraseInserted, Chronological, InTimeOrder, CompactionSummaryMessages,
         SelectFrom;
    LoggedInTimeOrder(w, log, ignoreCompaction);
    LoggedTurnsAre(w, log, ignoreCompaction);
    var c := Honoured(log, ignoreCompaction);
    var t := if c.Some? then c.value.compactedThroughTs else 0;
    TimesJoin(Seed(w, log, c), LoggedTurns(w, log, ignoreCompaction), t);
  }
}
