/**
 * The dates of a replayed history: where the log runs forwards in time, when the history does, the markers
 * that replay puts in between included, and what those markers say.
 */
module ReplayTimes {
  import opened Prelude
  import opened Sifting
  import opened ConversationTypes
  import opened Compaction
  import opened Replay
  import opened ReplayStability
  import opened ReplayWellFormed
  import opened CompactionReplay
  import opened ReplayFidelity
  import opened ReplayOrder
  import opened Fork

  // ------------------------------------------------------------------ what a marker says

  /** A marker names the gap it fills, by what is before it, and is dated a millisecond later, or like what follows. */
  ghost predicate MarksGap(w: Wording, h: seq<Message>, i: nat) {
    && 0 < i < |h| - 1
    && h[i + 1].role == User && h[i - 1].role != Assistant
    && h[i].role == Assistant
    && h[i].content == [PlainText(if h[i - 1].role == Tool then w.endedOnToolResults else w.abandonedRun)]
    && h[i].timestamp ==
         (if h[i - 1].timestamp < h[i + 1].timestamp then h[i - 1].timestamp + 1 else h[i + 1].timestamp)
  }

  ghost predicate AllMarkGaps(w: Wording, h: seq<Message>) {
    forall i :: 0 < i < |h| && IsInserted(h[i]) ==> MarksGap(w, h, i)
  }

  lemma {:induction false} AfterMarks(w: Wording, prev: Message, ms: seq<Message>)
    requires AllGenuine(ms)
    ensures AllMarkGaps(w, [prev] + AlternateAfter(w, prev, ms))
    decreases ms
  {
    hide Settled;
    if ms != [] {
      assert Genuine(ms[0]);
      forall i | 0 <= i < |ms| - 1 ensures Genuine(ms[1..][i]) {
        assert Genuine(ms[i + 1]);
      }
      AfterMarks(w, ms[0], ms[1..]);
      MarksJoin(w, prev, ms[0], AlternateAfter(w, ms[0], ms[1..]));
    }
  }

  lemma {:induction false} MarksJoin(w: Wording, prev: Message, m: Message, after: seq<Message>)
    requires !IsInserted(m) && AllMarkGaps(w, [m] + after)
    ensures AllMarkGaps(w, [prev] + (Markers(w, prev, m) + [m] + after))
  {
    var marks, rest := Markers(w, prev, m), [m] + after;
    var h, n := [prev] + (marks + [m] + after), 1 + |marks|;
    assert h == [prev] + marks + rest;
    forall i | 0 < i < |h| && IsInserted(h[i]) ensures MarksGap(w, h, i) {
      if i >= n {
        assert h[i] == rest[i - n] && i > n;
        assert MarksGap(w, rest, i - n);
        assert h[i - 1] == rest[i - n - 1] && h[i + 1] == rest[i - n + 1];
      }
    }
  }

  /** Every marker of a history stands between two of its messages, tells what ended there, and when. */
  lemma {:induction false} MarkersMarkGaps(w: Wording, log: seq<Event>, ignoreCompaction: bool)
    ensures var h := Reconstruct(w, log, ignoreCompaction);
            AllMarkGaps(w, h) && (h != [] ==> !IsInserted(h[0]))
  {
    hide Replayed, Settled;
    var ms := Replayed(w, log, Honoured(log, ignoreCompaction));
    ReplayedIsPaired(w, log, Honoured(log, ignoreCompaction));
    if ms != [] {
      assert Genuine(ms[0]);
      forall i | 0 <= i < |ms| - 1 ensures Genuine(ms[1..][i]) {
        assert Genuine(ms[i + 1]);
      }
      AfterMarks(w, ms[0], ms[1..]);
    }
  }

  // ------------------------------------------------------------------ overlays come before the turns after them

  predicate IsOverlayMessage(m: Message) {
    m.role == User && IsOverlay(m)
  }

  /** No turn is dated before an overlay it stands behind. */
  ghost predicate OverlaysFirst(ms: seq<Message>) {
    forall i, j :: 0 <= i < j < |ms| && IsOverlayMessage(ms[i]) && IsTurn(ms[j]) ==> ms[i].timestamp <= ms[j].timestamp
  }

  /** The overlays of a run are recorded no later than the responses that are counted after them. */
  ghost predicate Timely(run: Run) {
    forall x, r :: 0 <= x < |run.overlays| && run.overlays[x].afterResponses <= r < |run.responses| ==>
      run.overlays[x].event.ts <= run.responses[r].ts
  }

  lemma {:induction false} CollectedInTime(inner: seq<Event>, runId: string)
    requires Chronological(inner)
    ensures Timely(Collect(inner, runId))
  {
    if inner != [] {
      var n := |inner| - 1;
      var before, after := Collect(inner[..n], runId), Collect(inner, runId);
      CollectedInTime(inner[..n], runId);
      CollectedOverlays(inner[..n], runId);
      forall x | 0 <= x < |before.overlays| ensures before.overlays[x].event.ts <= inner[n].ts {
        assert before.overlays[x].event in inner[..n];
      }
      assert after == Accumulate(before, inner[n], runId);
    }
  }

  /** Every overlay among `ms` is of a delivery of the run after at most `k` responses. */
  ghost predicate OverlaysOf(ms: seq<Message>, run: Run, k: nat) {
    forall i :: 0 <= i < |ms| && IsOverlayMessage(ms[i]) ==>
      exists x :: 0 <= x < |run.overlays| && run.overlays[x].afterResponses <= k &&
        run.overlays[x].event.ts == ms[i].timestamp
  }

  lemma {:induction false} DeliveredOf(w: Wording, run: Run, overlays: seq<Overlay>, k: nat)
    requires forall x :: 0 <= x < |overlays| ==> overlays[x] in run.overlays
    ensures OverlaysOf(OverlayMessages(w, DeliveredAfter(overlays, k)), run, k)
  {
    if overlays != [] {
      DeliveredOf(w, run, overlays[1..], k);
      assert overlays[0] in run.overlays;
    }
  }

  lemma {:induction false} IterationOverlays(w: Wording, run: Run, k: nat)
    requires 0 < k <= |run.responses|
    ensures OverlaysOf(Iteration(w, run, k), run, k)
  {
    hide MessagesForResponse;
    ResponseIsPaired(w, run.responses[k - 1], run);
    DeliveredOf(w, run, run.overlays, k);
  }

  /** The turns among `ms` are answers of the run to responses from `k` on. */
  ghost predicate TurnsFromResponse(ms: seq<Message>, run: Run, k: nat) {
    forall i :: 0 <= i < |ms| && IsTurn(ms[i]) ==>
      exists r :: k <= r < |run.responses| && run.responses[r].ts == ms[i].timestamp
  }

  lemma {:induction false} AssistantIsAmong(ms: seq<Message>, i: nat)
    requires i < |ms| && ms[i].role == Assistant
    ensures ms[i] in AssistantsOf(ms)
  {
    if i > 0 {
      AssistantIsAmong(ms[1..], i - 1);
    }
  }

  lemma {:induction false} IterationTurns(w: Wording, run: Run, k: nat)
    requires 0 < k <= |run.responses|
    ensures TurnsFromResponse(Iteration(w, run, k), run, k - 1)
  {
    hide MessagesForResponse, WithOverlays;
    var e, ms := run.responses[k - 1], Iteration(w, run, k);
    IterationIsPaired(w, run, k);
    ResponseAnswer(w, e, run);
    IterationAnswers(w, MessagesForResponse(w, e, run), DeliveredAfter(run.overlays, k));
    forall i | 0 <= i < |ms| && IsTurn(ms[i]) ensures ms[i].timestamp == e.ts {
      assert FromRun(ms[i]);
      AssistantIsAmong(ms, i);
    }
  }

  /** Overlays recorded in time stand before the turns after them, through `k` iterations. */
  lemma {:induction false} IterationsInTime(w: Wording, run: Run, k: nat)
    requires k <= |run.responses|
    requires Timely(run)
    ensures OverlaysFirst(Iterations(w, run, k)) && OverlaysOf(Iterations(w, run, k), run, k)
  {
    hide Iteration;
    if k > 0 {
      IterationsInTime(w, run, k - 1);
      IterationOverlays(w, run, k);
      IterationTurns(w, run, k);
      AnswersComeFirst(w, run, k);
      OverlaysJoin(Iterations(w, run, k - 1), Iteration(w, run, k), run, k);
    }
  }

  lemma {:induction false} OverlaysJoin(a: seq<Message>, b: seq<Message>, run: Run, k: nat)
    requires k > 0 && OverlaysFirst(a) && OverlaysFirst(b)
    requires OverlaysOf(a, run, k - 1) && OverlaysOf(b, run, k) && TurnsFromResponse(b, run, k - 1)
    requires Timely(run)
    ensures OverlaysFirst(a + b) && OverlaysOf(a + b, run, k)
  {
    var ms := a + b;
    forall i, j | 0 <= i < j < |ms| && IsOverlayMessage(ms[i]) && IsTurn(ms[j])
      ensures ms[i].timestamp <= ms[j].timestamp
    {
      if i < |a| <= j {
        var x :| 0 <= x < |run.overlays| && run.overlays[x].afterResponses <= k - 1 &&
          run.overlays[x].event.ts == a[i].timestamp;
        assert IsTurn(b[j - |a|]);
        var r :| k - 1 <= r < |run.responses| && run.responses[r].ts == b[j - |a|].timestamp;
      }
    }
    forall i | 0 <= i < |ms| && IsOverlayMessage(ms[i])
      ensures exists x ::
        0 <= x < |run.overlays| && run.overlays[x].afterResponses <= k && run.overlays[x].event.ts == ms[i].timestamp
    {
      if i < |a| {
        var x :| 0 <= x < |run.overlays| && run.overlays[x].afterResponses <= k - 1 &&
          run.overlays[x].event.ts == a[i].timestamp;
      }
    }
  }

  /** In an iteration the answer comes first. */
  lemma {:induction false} AnswersComeFirst(w: Wording, run: Run, k: nat)
    requires 0 < k <= |run.responses|
    ensures OverlaysFirst(Iteration(w, run, k))
  {
    hide MessagesForResponse;
    var e, ms := run.responses[k - 1], Iteration(w, run, k);
    IterationIsPaired(w, run, k);
    ResponseIsPaired(w, e, run);
    AnswerAtHead(w, e, run);
    forall i | 0 < i < |ms| ensures !IsTurn(ms[i]) {
      assert FromRun(ms[i]);
    }
  }

  lemma {:induction false} AnswerAtHead(w: Wording, e: LlmResponseEvent, run: Run)
    ensures forall i :: 0 < i < |MessagesForResponse(w, e, run)| ==> MessagesForResponse(w, e, run)[i].role == Tool
  {
    hide MessagesForResponse;
    if IsReal(e, run) {
      RealAnswer(w, e, run);
      var ms := MessagesForResponse(w, e, run);
      forall i | 0 < i < |ms| ensures ms[i].role == Tool {
        assert ms[1 + (i - 1)] == ToolResultMessage(w, ExecutedCalls(e.content, run)[i - 1], run);
      }
    } else {
      GapAnswer(w, e, run);
    }
  }

  /** In a span, overlays stand before the turns dated after them. */
  lemma {:induction false} SpanInTime(w: Wording, events: seq<Event>, runId: string)
    requires Chronological(events)
    ensures OverlaysFirst(SpanMessages(w, events, runId))
  {
    hide Iterations, Collect, InnerLength, SpanMessages, HasOther;
    var n := InnerLength(events, runId);
    var inner := events[..n];
    var open, closed := OpenSpan(w, events, runId), SpanMessages(w, events, runId);
    OpenInTime(w, events, runId);
    StopIsTold(w, events, runId);
    if |closed| > |open| {
      forall i | 0 <= i < |open| && IsOverlayMessage(open[i]) ensures open[i].timestamp <= closed[|open|].timestamp {
        OverlayInside(w, events, runId, i);
      }
    }
  }

  lemma {:induction false} OpenInTime(w: Wording, events: seq<Event>, runId: string)
    requires Chronological(events)
    ensures OverlaysFirst(OpenSpan(w, events, runId))
  {
    hide Iterations, Collect, InnerLength;
    var inner := events[..InnerLength(events, runId)];
    InnerOfInner(events, runId);
    assert inner[..|inner|] == inner;
    var run := Collect(inner, runId);
    CollectedInTime(inner, runId);
    IterationsInTime(w, run, |run.responses|);
    assert OpenSpan(w, events, runId) == OpenRunMessages(w, run);
  }

  lemma {:induction false} OverlayInside(w: Wording, events: seq<Event>, runId: string, i: nat)
    requires Chronological(events)
    requires i < |OpenSpan(w, events, runId)| && IsOverlayMessage(OpenSpan(w, events, runId)[i])
    ensures var n := InnerLength(events, runId);
            n < |events| ==> OpenSpan(w, events, runId)[i].timestamp <= events[n].ts
  {
    hide RunMessages;
    var n := InnerLength(events, runId);
    var inner := events[..n];
    InnerOfInner(events, runId);
    assert inner[..|inner|] == inner;
    CollectedOverlays(inner, runId);
    RunUsers(w, Collect(inner, runId), None, inner);
    assert IsOverlayTime(inner, OpenSpan(w, events, runId)[i].timestamp);
  }

  lemma {:induction false} TurnAmong(ms: seq<Message>, i: nat) returns (k: nat)
    requires i < |ms| && IsTurn(ms[i])
    ensures k < |TurnsOf(ms)| && TurnsOf(ms)[k] == ms[i]
  {
    if i == 0 {
      k := 0;
    } else {
      k := TurnAmong(ms[1..], i - 1);
      k := if IsTurn(ms[0]) then k + 1 else k;
    }
  }

  /** A turn is dated like the event of the log that it stems from. */
  lemma {:induction false} TurnTime(w: Wording, events: seq<Event>, j: nat) returns (p: nat)
    requires j < |Build(w, events)| && IsTurn(Build(w, events)[j])
    ensures p < |events| && events[p].ts == Build(w, events)[j].timestamp
  {
    hide Build, Stems;
    var from := BuildStems(w, events);
    var k := TurnAmong(Build(w, events), j);
    p := from[k];
    StemsInTime(w, TurnsOf(Build(w, events))[k], events[p]);
  }

  /** An overlay of the leading step is dated like an event in it. */
  lemma {:induction false} StepOverlayTime(w: Wording, events: seq<Event>, i: nat) returns (p: nat)
    requires events != [] && i < |StepMessages(w, events)| && IsOverlayMessage(StepMessages(w, events)[i])
    ensures p < StepLength(events) && events[p].ts == StepMessages(w, events)[i].timestamp
  {
    hide RunMessages;
    var rest, runId := events[1..], events[0].runId;
    var inner := rest[..InnerLength(rest, runId)];
    CollectedOverlays(inner, runId);
    RunUsers(w, Collect(inner, runId), CancelledAt(rest, runId), inner);
    var e :| e in inner && e.ConnectorSkillInjected? && e.ts == StepMessages(w, events)[i].timestamp;
    var q :| 0 <= q < |inner| && inner[q] == e;
    assert events[q + 1] == e;
    p := q + 1;
  }

  lemma {:induction false} StepInTime(w: Wording, events: seq<Event>)
    requires events != [] && Chronological(events)
    ensures OverlaysFirst(StepMessages(w, events))
  {
    hide SpanMessages;
    if events[0].RunStart? {
      assert forall i :: 0 <= i < |events[1..]| ==> events[1..][i] == events[i + 1];
      SpanInTime(w, events[1..], events[0].runId);
    }
  }

  lemma {:induction false} BuildInTime(w: Wording, events: seq<Event>)
    requires Chronological(events)
    ensures OverlaysFirst(Build(w, events))
    decreases |events|
  {
    hide StepMessages, StepLength, Build;
    BuildNothing(w);
    if events != [] {
      var n := StepLength(events);
      var a, b := StepMessages(w, events), Build(w, events[n..]);
      assert forall i :: 0 <= i < |events[n..]| ==> events[n..][i] == events[i + n];
      StepInTime(w, events);
      BuildInTime(w, events[n..]);
      BuildStep(w, events);
      forall i, j | 0 <= i < |a| && 0 <= j < |b| && IsOverlayMessage(a[i]) && IsTurn(b[j])
        ensures a[i].timestamp <= b[j].timestamp
      {
        var p := StepOverlayTime(w, events, i);
        var q := TurnTime(w, events[n..], j);
        assert events[n..][q] == events[n + q];
      }
      FirstJoin(a, b);
    }
  }

  lemma {:induction false} FirstJoin(a: seq<Message>, b: seq<Message>)
    requires OverlaysFirst(a) && OverlaysFirst(b)
    requires forall i, j :: 0 <= i < |a| && 0 <= j < |b| && IsOverlayMessage(a[i]) && IsTurn(b[j]) ==>
               a[i].timestamp <= b[j].timestamp
    ensures OverlaysFirst(a + b)
  {
  }

  lemma {:induction false} ReplayedInTime(w: Wording, log: seq<Event>, c: Option<CompactionEvent>)
    requires Chronological(log)
    ensures OverlaysFirst(Replayed(w, log, c))
  {
    hide Build, CompactionSummaryMessages, SelectFrom;
    var tail := Tail(log, BoundaryOf(c));
    forall i, j | 0 <= i < j < |tail| ensures tail[i].ts <= tail[j].ts {
      var x, y := TailOrigins(log, BoundaryOf(c), i, j);
    }
    BuildInTime(w, tail);
    FirstJoin(Seed(w, log, c), Build(w, tail));
  }

  // ------------------------------------------------------------------ the markers among the turns

  /** The turns, markers included, are in order of time. */
  ghost predicate InOrder(ms: seq<Message>) {
    forall i, j :: 0 <= i < j < |ms| && IsTurn(ms[i]) && IsTurn(ms[j]) ==> ms[i].timestamp <= ms[j].timestamp
  }

  ghost predicate NoTurnBetween(ms: seq<Message>, i: nat, j: nat) {
    forall x :: i < x < j && x < |ms| ==> !IsTurn(ms[x])
  }

  /** No marker is dated before the turn it comes after, whatever results and overlays stand between them. */
  ghost predicate MarkersDated(ms: seq<Message>) {
    forall i: nat, j: nat :: i < j < |ms| && IsTurn(ms[i]) && IsInserted(ms[j]) && NoTurnBetween(ms, i, j) ==>
      ms[i].timestamp <= ms[j].timestamp
  }

  /** Two messages that are not markers stand in the same order without the markers. */
  lemma {:induction false} ErasedOrder(h: seq<Message>, i: nat, j: nat) returns (x: nat, y: nat)
    requires i < j < |h| && !IsInserted(h[i]) && !IsInserted(h[j])
    ensures x < y < |EraseInserted(h)| && EraseInserted(h)[x] == h[i] && EraseInserted(h)[y] == h[j]
  {
    if i > 0 {
      x, y := ErasedOrder(h[1..], i - 1, j - 1);
      if !IsInserted(h[0]) {
        x, y := x + 1, y + 1;
      }
    } else {
      y := ErasedAt(h[1..], j - 1);
      x, y := 0, y + 1;
    }
  }

  lemma {:induction false} ErasedAt(h: seq<Message>, i: nat) returns (x: nat)
    requires i < |h| && !IsInserted(h[i])
    ensures x < |EraseInserted(h)| && EraseInserted(h)[x] == h[i]
  {
    if i == 0 {
      x := 0;
    } else {
      x := ErasedAt(h[1..], i - 1);
      x := if IsInserted(h[0]) then x else x + 1;
    }
  }

  /** Neighbouring turns are in order, if those of the log are and each marker is dated after the turn before it. */
  lemma {:induction false} NeighboursInOrder(w: Wording, h: seq<Message>, i: nat, j: nat)
    requires AllMarkGaps(w, h) && (h != [] ==> !IsInserted(h[0])) && MarkersDated(h)
    requires InOrder(EraseInserted(h)) && OverlaysFirst(EraseInserted(h))
    requires i < j < |h| && IsTurn(h[i]) && IsTurn(h[j]) && NoTurnBetween(h, i, j)
    ensures h[i].timestamp <= h[j].timestamp
  {
    if !IsInserted(h[j]) {
      if !IsInserted(h[i]) {
        var x, y := ErasedOrder(h, i, j);
      } else {
        assert MarksGap(w, h, i);
        if i + 1 < j {
          assert !IsTurn(h[i + 1]);
          var x, y := ErasedOrder(h, i + 1, j);
          assert IsOverlayMessage(EraseInserted(h)[x]);
        }
      }
    }
  }

  lemma {:induction false} AllInOrder(w: Wording, h: seq<Message>, i: nat, j: nat)
    requires AllMarkGaps(w, h) && (h != [] ==> !IsInserted(h[0])) && MarkersDated(h)
    requires InOrder(EraseInserted(h)) && OverlaysFirst(EraseInserted(h))
    requires i < j < |h| && IsTurn(h[i]) && IsTurn(h[j])
    ensures h[i].timestamp <= h[j].timestamp
    decreases j - i
  {
    hide AllMarkGaps, MarkersDated, InOrder, OverlaysFirst;
    if NoTurnBetween(h, i, j) {
      NeighboursInOrder(w, h, i, j);
    } else {
      var x :| i < x < j && x < |h| && IsTurn(h[x]);
      AllInOrder(w, h, i, x);
      AllInOrder(w, h, x, j);
    }
  }

  lemma {:induction false} TurnsOrdered(ms: seq<Message>)
    requires InTimeOrder(TurnsOf(ms))
    ensures InOrder(ms)
  {
    forall i, j | 0 <= i < j < |ms| && IsTurn(ms[i]) && IsTurn(ms[j]) ensures ms[i].timestamp <= ms[j].timestamp {
      var x, y := TurnsAmong(ms, i, j);
    }
  }

  lemma {:induction false} TurnsAmong(ms: seq<Message>, i: nat, j: nat) returns (x: nat, y: nat)
    requires i < j < |ms| && IsTurn(ms[i]) && IsTurn(ms[j])
    ensures x < y < |TurnsOf(ms)| && TurnsOf(ms)[x] == ms[i] && TurnsOf(ms)[y] == ms[j]
  {
    if i == 0 {
      y := TurnAmong(ms[1..], j - 1);
      x, y := 0, y + 1;
    } else {
      x, y := TurnsAmong(ms[1..], i - 1, j - 1);
      if IsTurn(ms[0]) {
        x, y := x + 1, y + 1;
      }
    }
  }

  /**
   * The whole of a history, its markers included, in order of time. In a log that runs forwards in time this
   * holds exactly when no marker is dated before the turn it comes after; the log's own turns always are in order.
   */
  lemma {:induction false} HistoryInTimeOrder(w: Wording, log: seq<Event>, ignoreCompaction: bool)
    requires Chronological(log)
    ensures var h := Reconstruct(w, log, ignoreCompaction);
            InOrder(EraseInserted(h)) && (InOrder(h) <==> MarkersDated(h))
  {
    hide Reconstruct, Replayed, AllMarkGaps, OverlaysFirst, IsInserted;
    var h := Reconstruct(w, log, ignoreCompaction);
    HistoryIsWellFormed(w, log, ignoreCompaction);
    MarkersMarkGaps(w, log, ignoreCompaction);
    TurnsInTimeOrder(w, log, ignoreCompaction);
    TurnsOrdered(EraseInserted(h));
    ReplayedInTime(w, log, Honoured(log, ignoreCompaction));
    if MarkersDated(h) {
      forall i, j | 0 <= i < j < |h| && IsTurn(h[i]) && IsTurn(h[j]) ensures h[i].timestamp <= h[j].timestamp {
        AllInOrder(w, h, i, j);
      }
    }
    if InOrder(h) {
      InsertedAreTurns();
    }
  }

  lemma InsertedAreTurns()
    ensures forall m: Message :: IsInserted(m) ==> IsTurn(m)
  {
  }

  // ------------------------------------------------------------------ a marker out of order

  /** A turn whose run was given an overlay before its one answer, and the next user message. */
  function EarlyOverlay(
    overlay: OverlayEvent, runId: string, model: string, text: string, asked: int, answered: int, asks: int): seq<Event>
  {
    [UserMessage(asked, [PlainText(text)], None, None)] + (EarlyRun(overlay, runId, model, text, asked, answered) +
      [UserMessage(asks, [PlainText(text)], None, None)])
  }

  function EarlyRun(
    overlay: OverlayEvent, runId: string, model: string, text: string, asked: int, answered: int): seq<Event>
  {
    [ RunStart(asked, runId, model), overlay,
      LlmResponse(answered, runId, model, [PlainText(text)], NO_USAGE, 0, Stop), RunDone(answered, runId, "complete") ]
  }

  lemma {:induction false} EarlyRunGathers(overlay: OverlayEvent, e: LlmResponseEvent)
    ensures Collect([overlay, e], e.runId) == EMPTY_RUN.(responses := [e], overlays := [Overlay(overlay, 0)])
  {
    var inner := [overlay, e];
    assert inner[..1] == [overlay] && [overlay][..0] == [];
    assert Collect([overlay], e.runId) == Accumulate(Collect([overlay][..0], e.runId), overlay, e.runId);
    assert Collect(inner, e.runId) == Accumulate(Collect(inner[..1], e.runId), e, e.runId);
  }

  lemma {:induction false} EarlyRunShows(
    w: Wording, overlay: OverlayEvent, runId: string, model: string, text: string, asked: int, answered: int)
    ensures var ms := Build(w, EarlyRun(overlay, runId, model, text, asked, answered));
            |ms| == 2 && ms[0].role == Assistant && ms[0].timestamp == answered && ms[1] == OverlayMessage(w, overlay)
  {
    var events := EarlyRun(overlay, runId, model, text, asked, answered);
    var e: LlmResponseEvent := events[2];
    var run := EMPTY_RUN.(responses := [e], overlays := [Overlay(overlay, 0)]);
    EarlyRunIsStep(w, overlay, runId, model, text, asked, answered);
    EarlyRunOpens(w, run, overlay, e);
  }

  lemma {:induction false} EarlyRunIsStep(
    w: Wording, overlay: OverlayEvent, runId: string, model: string, text: string, asked: int, answered: int)
    ensures var events := EarlyRun(overlay, runId, model, text, asked, answered);
            Build(w, events) ==
            OpenRunMessages(w, EMPTY_RUN.(responses := [events[2]], overlays := [Overlay(overlay, 0)]))
  {
    hide OpenRunMessages, Collect;
    var events := EarlyRun(overlay, runId, model, text, asked, answered);
    var rest := events[1..];
    assert rest[1..][0] == events[2] && rest[1..][1..][0] == events[3];
    assert InnerLength(rest[1..][1..], runId) == 0;
    assert InnerLength(rest, runId) == 2 && rest[..2] == [overlay, events[2]];
    EarlyRunGathers(overlay, events[2]);
    assert StepLength(events) == 4 && events[4..] == [];
    assert Build(w, events) == StepMessages(w, events) + Build(w, events[StepLength(events)..]);
  }

  lemma {:induction false} EarlyRunOpens(w: Wording, run: Run, overlay: OverlayEvent, e: LlmResponseEvent)
    requires run.responses == [e] && run.overlays == [Overlay(overlay, 0)] && run.toolDones == map[]
    requires |e.content| == 1 && e.content[0].Text?
    ensures var ms := OpenRunMessages(w, run);
            |ms| == 2 && ms[0].role == Assistant && ms[0].timestamp == e.ts && ms[1] == OverlayMessage(w, overlay)
  {
    hide MessagesForResponse;
    RealAnswer(w, e, run);
    assert e.content[1..] == [];
    assert ExecutedCalls(e.content, run) == [];
    assert run.overlays[1..] == [];
    assert DeliveredAfter(run.overlays, 1) == [];
    assert DeliveredAfter(run.overlays, 0) ==
           [run.overlays[0].event] + DeliveredAfter(run.overlays[1..], 0) == [overlay];
    assert [overlay][1..] == [];
    assert OverlayMessages(w, [overlay]) == [OverlayMessage(w, overlay)];
    assert Iterations(w, run, 1) == Iterations(w, run, 0) + Iteration(w, run, 1);
  }

  /** The one gap of such a history is behind the overlay, and its marker is dated after the overlay. */
  lemma {:induction false} GapBehindOverlay(w: Wording, ms: seq<Message>)
    requires |ms| == 4 && IsTurn(ms[0]) && ms[1].role == Assistant
    requires IsOverlayMessage(ms[2]) && ms[3].role == User && !IsOverlay(ms[3])
    ensures Alternate(w, ms) == ms[..3] + [MarkerMessage(w.abandonedRun, ms[2], ms[3])] + [ms[3]]
  {
    assert ms[1..][0] == ms[1] && ms[1..][1..][0] == ms[2] && ms[1..][1..][1..] == [ms[3]] && [ms[3]][1..] == [];
    assert AlternateAfter(w, ms[2], [ms[3]]) == [MarkerMessage(w.abandonedRun, ms[2], ms[3])] + [ms[3]] + [];
    assert AlternateAfter(w, ms[1], ms[1..][1..]) == [] + [ms[2]] + AlternateAfter(w, ms[2], [ms[3]]);
    assert AlternateAfter(w, ms[0], ms[1..]) == [] + [ms[1]] + AlternateAfter(w, ms[1], ms[1..][1..]);
  }

  lemma {:induction false} OneTurn(w: Wording, e: UserMessageEvent)
    ensures Build(w, [e]) == [BuildUserMessage(e)]
    ensures BuildUserMessage(e).role == User && !IsOverlay(BuildUserMessage(e))
  {
    assert [e][1..] == [];
    assert Build(w, [e]) == StepMessages(w, [e]) + Build(w, [e][1..]);
  }

  lemma {:induction false} UncompactedIs(w: Wording, log: seq<Event>, ignoreCompaction: bool)
    requires NoCompaction(log)
    ensures Reconstruct(w, log, ignoreCompaction) == Alternate(w, Build(w, log))
  {
    hide Build, Alternate;
    TailOfUncompacted(log);
    assert [] + Build(w, log) == Build(w, log);
  }

  /**
   * An overlay recorded two milliseconds or more before the run's first answer stands at the end of the run, and
   * the marker after it is dated before that answer: such a history is not in order of time, though its log is.
   */
  lemma {:induction false} MarkerOutOfOrder(
    w: Wording, overlay: OverlayEvent, runId: string, model: string, text: string, asked: int, answered: int, asks: int)
    requires asked <= overlay.ts && overlay.ts + 1 < answered <= asks
    ensures var log := EarlyOverlay(overlay, runId, model, text, asked, answered, asks);
            Chronological(log) && !InOrder(Reconstruct(w, log, true)) && !InOrder(Reconstruct(w, log, false))
  {
    hide Build, BuildUserMessage, Reconstruct, Alternate;
    var log := EarlyOverlay(overlay, runId, model, text, asked, answered, asks);
    var run := EarlyRun(overlay, runId, model, text, asked, answered);
    var first, last: UserMessageEvent := log[0], log[5];
    OneTurn(w, first);
    OneTurn(w, last);
    EarlyRunShows(w, overlay, runId, model, text, asked, answered);
    BuildSplit(w, run, [last]);
    BuildSplit(w, [first], run + [last]);
    UncompactedIs(w, log, true);
    UncompactedIs(w, log, false);
    var ms := Build(w, log);
    assert ms == [BuildUserMessage(first)] + (Build(w, run) + [BuildUserMessage(last)]);
    GapBehindOverlay(w, ms);
    var h := Alternate(w, ms);
    LastTime(last);
    assert h[1].timestamp == answered && h[3].timestamp == overlay.ts + 1;
  }

  lemma LastTime(e: UserMessageEvent)
    ensures BuildUserMessage(e).timestamp == e.ts
  {
  }
}
