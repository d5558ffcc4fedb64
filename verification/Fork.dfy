/** Forking: a history written back as an event log (src/conversation/event-sourced-store.ts). */
module Fork {
  import opened Prelude
  import opened ConversationTypes
  import opened Replay
  import opened ReplayStability
  import opened ReplayWellFormed
  import C = ContentHelpers

  // ------------------------------------------------------------------ the forked log

  function ForkUserEvent(m: Message): Event {
    UserMessage(m.timestamp, m.content, NonEmpty(m.userId), None)
  }

  /** The finish reason a message's metadata recorded, else what its content implies. */
  function SynthesizedFinishReason(m: Message): FinishReason {
    m.metadata.finishReason.GetOr(if HasToolUse(m) then ToolCalls else Stop)
  }

  function ForkedResponse(m: Message, runId: string): LlmResponseEvent {
    LlmResponse(m.timestamp, runId, m.metadata.model.GetOr("unknown"), m.content,
                m.metadata.usage.GetOr(NO_USAGE), m.metadata.llmMs.GetOr(0), SynthesizedFinishReason(m))
  }

  /** An assistant turn as a synthetic run span. */
  function ForkAssistantEvents(m: Message, runId: string): seq<Event> {
    [ RunStart(m.timestamp, runId, m.metadata.model.GetOr("unknown")),
      ForkedResponse(m, runId),
      RunDone(m.timestamp, runId, "complete") ]
  }

  function ForkRunId(n: nat): string {
    "forked-" + C.Digits(n)
  }

  /** The log of a forked history; `n` assistant turns were written before. Tool messages are not written. */
  function ForkEvents(ms: seq<Message>, n: nat): seq<Event> {
    if ms == [] then []
    else match ms[0].role
      case User => [ForkUserEvent(ms[0])] + ForkEvents(ms[1..], n)
      case Assistant => ForkAssistantEvents(ms[0], ForkRunId(n)) + ForkEvents(ms[1..], n + 1)
      case Tool => ForkEvents(ms[1..], n)
  }

  method MessagesToForkEventLines(messages: seq<Message>) returns (events: seq<Event>)
    ensures events == ForkEvents(messages, 0)
  {
    events := [];
    var runCounter := 0;
    assert messages[0..] == messages;
    for i := 0 to |messages|
      invariant ForkEvents(messages, 0) == events + ForkEvents(messages[i..], runCounter)
    {
      var msg := messages[i];
      assert messages[i..][1..] == messages[i + 1..];
      if msg.role == User {
        events := events + [ForkUserEvent(msg)];
      } else if msg.role == Assistant {
        events := events + ForkAssistantEvents(msg, ForkRunId(runCounter));
        runCounter := runCounter + 1;
      }
    }
  }

  lemma {:induction false} ForkStartsTurns(ms: seq<Message>, n: nat)
    ensures ForkEvents(ms, n) != [] ==> IsTurnStart(ForkEvents(ms, n)[0])
    ensures NoCompaction(ForkEvents(ms, n))
  {
    if ms != [] {
      ForkStartsTurns(ms[1..], if ms[0].role == Assistant then n + 1 else n);
    }
  }

  // ------------------------------------------------------------------ one forked turn

  /** The messages a forked assistant turn replays to. */
  function ForkedAnswer(w: Wording, m: Message, runId: string): seq<Message> {
    MessagesForResponse(w, ForkedResponse(m, runId), EMPTY_RUN.(responses := [ForkedResponse(m, runId)]))
  }

  lemma {:induction false} ForkedSpan(w: Wording, m: Message, runId: string)
    ensures Build(w, ForkAssistantEvents(m, runId)) == ForkedAnswer(w, m, runId)
  {
    hide RunMessages, MessagesForResponse, Collect, InnerLength, CancelledAt, SpanLength, StepMessages, StepLength;
    var events, e := ForkAssistantEvents(m, runId), ForkedResponse(m, runId);
    SpanOfThree(w, events, e, runId);
    WholeStep(w, events);
    LoneIteration(w, EMPTY_RUN.(responses := [e]));
  }

  /** A run of one response replays to the messages of a run that collected just it. */
  lemma {:induction false} SpanOfThree(w: Wording, events: seq<Event>, e: LlmResponseEvent, runId: string)
    requires |events| == 3 && events[1] == e && e.runId == runId
    requires events[0].RunStart? && events[0].runId == runId
    requires events[2].RunDone? && events[2].runId == runId && events[2].stopReason != "cancelled"
    ensures StepLength(events) == |events|
    ensures StepMessages(w, events) == RunMessages(w, EMPTY_RUN.(responses := [e]), None)
  {
    hide RunMessages, Collect;
    var rest := events[1..];
    OneInside(rest, runId);
    assert rest[..1] == [e];
    CollectOne(e, runId);
  }

  lemma {:induction false} OneInside(rest: seq<Event>, runId: string)
    requires |rest| == 2 && rest[0].LlmResponse? && IsTerminator(rest[1], runId)
    ensures InnerLength(rest, runId) == 1
  {
    assert rest[1..][0] == rest[1];
    assert InnerLength(rest[1..], runId) == 0;
  }

  lemma {:induction false} WholeStep(w: Wording, events: seq<Event>)
    requires events != [] && StepLength(events) == |events|
    ensures Build(w, events) == StepMessages(w, events)
  {
    hide StepMessages, StepLength;
    assert events[|events|..] == [];
    assert Build(w, events) == StepMessages(w, events) + Build(w, events[StepLength(events)..]);
  }

  lemma CollectOne(e: LlmResponseEvent, runId: string)
    requires e.runId == runId
    ensures Collect([e], runId) == EMPTY_RUN.(responses := [e])
  {
    assert [e][..|[e]| - 1] == [];
    assert Collect([e], runId) == Accumulate(Collect([], runId), e, runId);
  }

  lemma LoneIteration(w: Wording, run: Run)
    requires |run.responses| == 1 && run.overlays == []
    ensures RunMessages(w, run, None) == MessagesForResponse(w, run.responses[0], run)
  {
    hide MessagesForResponse;
    assert Iterations(w, run, 1) == Iterations(w, run, 0) + Iteration(w, run, 1);
    assert Iteration(w, run, 1) == MessagesForResponse(w, run.responses[0], run);
    assert OpenRunMessages(w, run) == Iterations(w, run, 1) + [];
  }

  lemma {:induction false} NoCallsNoOrphans(content: seq<Part>, run: Run)
    requires CallIds(content) == []
    ensures DropOrphans(content, run) == content && ExecutedCalls(content, run) == []
  {
    if content != [] {
      NoCallsNoOrphans(content[1..], run);
    }
  }

  /** The same message as far as role, content and time go. */
  predicate SameView(a: Message, b: Message) {
    a.role == b.role && a.content == b.content && a.timestamp == b.timestamp
  }

  ghost predicate SameViews(a: seq<Message>, b: seq<Message>) {
    |a| == |b| && forall i :: 0 <= i < |a| ==> SameView(a[i], b[i])
  }

  /** A settled answer without tool calls comes back as it was. */
  lemma AnswerRoundTrip(w: Wording, m: Message, runId: string)
    requires m.role == Assistant && Settled(m.content) && CallIds(m.content) == []
    ensures |ForkedAnswer(w, m, runId)| == 1 && SameView(ForkedAnswer(w, m, runId)[0], m)
  {
    var e := ForkedResponse(m, runId);
    NoCallsNoOrphans(m.content, EMPTY_RUN.(responses := [e]));
    if !HasText(m.content) {
      SignedReasoning(m.content);
      assert m.content[0].Reasoning?;
    }
  }

  /** What a fork's replay can hold: no tool message and no call, since a fork records no result. */
  predicate CallFree(m: Message) {
    m.role != Tool && (m.role == Assistant ==> CallIds(m.content) == [])
  }

  ghost predicate AllCallFree(ms: seq<Message>) {
    forall i :: 0 <= i < |ms| ==> CallFree(ms[i])
  }

  lemma AnswerIsCallFree(w: Wording, m: Message, runId: string)
    ensures AllCallFree(ForkedAnswer(w, m, runId))
    ensures forall i :: 0 <= i < |ForkedAnswer(w, m, runId)| ==> ForkedAnswer(w, m, runId)[i].role == Assistant
  {
    var e := ForkedResponse(m, runId);
    var run := EMPTY_RUN.(responses := [e]);
    var replay := NormalizeForReplay(DropOrphans(m.content, run));
    NormalizeKeepsCalls(DropOrphans(m.content, run));
    ExecutedAreKept(m.content, run);
    assert ExecutedCalls(m.content, run) == [];
    SignedReasoning(replay);
    NoCallsInText(w.orphanedToolCalls);
    NoCallsInText(w.truncated(e.finishReason));
  }

  lemma NoCallsInText(text: string)
    ensures CallIds([PlainText(text)]) == []
  {
    CallIdsEmpty([PlainText(text)]);
  }

  // ------------------------------------------------------------------ the whole fork

  /** The messages one history message is replayed to after a fork. */
  function ForkedTurn(w: Wording, m: Message, runId: string): seq<Message> {
    match m.role
    case User => [BuildUserMessage(ForkUserEvent(m))]
    case Assistant => ForkedAnswer(w, m, runId)
    case Tool => []
  }

  function After(m: Message, n: nat): nat {
    if m.role == Assistant then n + 1 else n
  }

  lemma ForkedUser(w: Wording, m: Message)
    ensures Build(w, [ForkUserEvent(m)]) == [BuildUserMessage(ForkUserEvent(m))]
  {
    var events := [ForkUserEvent(m)];
    assert events[1..] == [];
    assert Build(w, events) == StepMessages(w, events) + Build(w, events[1..]);
  }

  /** A forked log replays turn by turn. */
  lemma BuildForked(w: Wording, ms: seq<Message>, n: nat)
    requires ms != []
    ensures Build(w, ForkEvents(ms, n))
         == ForkedTurn(w, ms[0], ForkRunId(n)) + Build(w, ForkEvents(ms[1..], After(ms[0], n)))
  {
    hide Build, ForkAssistantEvents, ForkedAnswer;
    var rest := ForkEvents(ms[1..], After(ms[0], n));
    ForkStartsTurns(ms[1..], After(ms[0], n));
    match ms[0].role
    case User =>
      ForkedUser(w, ms[0]);
      BuildSplit(w, [ForkUserEvent(ms[0])], rest);
    case Assistant =>
      ForkedSpan(w, ms[0], ForkRunId(n));
      BuildSplit(w, ForkAssistantEvents(ms[0], ForkRunId(n)), rest);
    case Tool =>
      assert [] + Build(w, rest) == Build(w, rest);
  }

  /** Content as replay writes it. */
  ghost predicate AllSettled(ms: seq<Message>) {
    forall i :: 0 <= i < |ms| ==>
      (ms[i].role == Assistant ==> Settled(ms[i].content)) &&
      (ms[i].role == User ==> ToUserContent(ms[i].content) == ms[i].content)
  }

  /** No user message is an overlay. */
  ghost predicate PlainUsers(ms: seq<Message>) {
    forall i :: 0 <= i < |ms| ==> ms[i].role == User ==> !IsOverlay(ms[i])
  }

  function UserContents(ms: seq<Message>): seq<seq<Part>> {
    if ms == [] then []
    else if ms[0].role == User then [ms[0].content] + UserContents(ms[1..])
    else UserContents(ms[1..])
  }

  lemma {:induction false} UserContentsConcat(a: seq<Message>, b: seq<Message>)
    ensures UserContents(a + b) == UserContents(a) + UserContents(b)
  {
    if a == [] {
      assert a + b == b;
    } else {
      assert (a + b)[1..] == a[1..] + b;
      UserContentsConcat(a[1..], b);
    }
  }

  lemma {:induction false} NoUserContents(ms: seq<Message>)
    requires forall i :: 0 <= i < |ms| ==> ms[i].role == Assistant
    ensures UserContents(ms) == []
  {
    if ms != [] {
      NoUserContents(ms[1..]);
    }
  }

  /** A turn's forked replay: call-free, with the same user content, and the same view if it made no call. */
  lemma ForkedTurnIs(w: Wording, m: Message, runId: string)
    requires AllSettled([m])
    ensures AllCallFree(ForkedTurn(w, m, runId))
    ensures UserContents(ForkedTurn(w, m, runId)) == UserContents([m])
    ensures PlainUsers(ForkedTurn(w, m, runId))
    ensures CallFree(m) ==> SameViews(ForkedTurn(w, m, runId), [m])
  {
    hide ForkedAnswer, Settled;
    assert [m][0] == m && [m][1..] == [];
    if m.role == Assistant {
      AnswerIsCallFree(w, m, runId);
      NoUserContents(ForkedAnswer(w, m, runId));
      if CallFree(m) {
        AnswerRoundTrip(w, m, runId);
      }
    } else if m.role == User {
      assert [BuildUserMessage(ForkUserEvent(m))][1..] == [];
    }
  }

  lemma {:induction false} ForkIsCallFree(w: Wording, ms: seq<Message>, n: nat)
    requires AllSettled(ms)
    ensures AllCallFree(Build(w, ForkEvents(ms, n))) && PlainUsers(Build(w, ForkEvents(ms, n)))
  {
    hide ForkedTurn, Settled;
    if ms != [] {
      BuildForked(w, ms, n);
      ForkIsCallFree(w, ms[1..], After(ms[0], n));
      ForkedTurnIs(w, ms[0], ForkRunId(n));
    }
  }

  lemma {:induction false} ForkKeepsUserContents(w: Wording, ms: seq<Message>, n: nat)
    requires AllSettled(ms)
    ensures UserContents(Build(w, ForkEvents(ms, n))) == UserContents(ms)
  {
    hide ForkedTurn, Settled;
    if ms != [] {
      BuildForked(w, ms, n);
      ForkKeepsUserContents(w, ms[1..], After(ms[0], n));
      ForkedTurnIs(w, ms[0], ForkRunId(n));
      UserContentsFirst(ForkedTurn(w, ms[0], ForkRunId(n)), Build(w, ForkEvents(ms[1..], After(ms[0], n))), ms);
    }
  }

  lemma {:induction false} UserContentsFirst(turn: seq<Message>, rest: seq<Message>, ms: seq<Message>)
    requires ms != [] && UserContents(turn) == UserContents([ms[0]]) && UserContents(rest) == UserContents(ms[1..])
    ensures UserContents(turn + rest) == UserContents(ms)
  {
    UserContentsConcat(turn, rest);
    UserContentsConcat([ms[0]], ms[1..]);
    assert ms == [ms[0]] + ms[1..];
  }

  lemma {:induction false} ForkKeepsViews(w: Wording, ms: seq<Message>, n: nat)
    requires AllSettled(ms) && AllCallFree(ms)
    ensures SameViews(Build(w, ForkEvents(ms, n)), ms)
  {
    hide ForkedTurn, Settled;
    if ms != [] {
      BuildForked(w, ms, n);
      ForkKeepsViews(w, ms[1..], After(ms[0], n));
      ForkedTurnIs(w, ms[0], ForkRunId(n));
      SameViewsFirst(ForkedTurn(w, ms[0], ForkRunId(n)), Build(w, ForkEvents(ms[1..], After(ms[0], n))), ms);
    }
  }

  lemma {:induction false} SameViewsFirst(turn: seq<Message>, rest: seq<Message>, ms: seq<Message>)
    requires ms != [] && SameViews(turn, [ms[0]]) && SameViews(rest, ms[1..])
    ensures SameViews(turn + rest, ms)
  {
    SameViewsConcat(turn, [ms[0]], rest, ms[1..]);
    assert ms == [ms[0]] + ms[1..];
  }

  lemma {:induction false} SameViewsConcat(a: seq<Message>, b: seq<Message>, c: seq<Message>, d: seq<Message>)
    requires SameViews(a, b) && SameViews(c, d)
    ensures SameViews(a + c, b + d)
  {
  }

  // ------------------------------------------------------------------ the alternation pass over a fork

  lemma {:induction false} AlternateAfterContents(w: Wording, prev: Message, ms: seq<Message>)
    ensures UserContents(AlternateAfter(w, prev, ms)) == UserContents(ms)
    decreases ms
  {
    if ms != [] {
      AlternateAfterContents(w, ms[0], ms[1..]);
      NoUserContents(Markers(w, prev, ms[0]));
      UserContentsConcat(Markers(w, prev, ms[0]) + [ms[0]], AlternateAfter(w, ms[0], ms[1..]));
      UserContentsConcat(Markers(w, prev, ms[0]), [ms[0]]);
      assert ms == [ms[0]] + ms[1..];
      UserContentsConcat([ms[0]], ms[1..]);
    }
  }

  lemma AlternateContents(w: Wording, ms: seq<Message>)
    ensures UserContents(Alternate(w, ms)) == UserContents(ms)
  {
    if ms != [] {
      AlternateAfterContents(w, ms[0], ms[1..]);
      assert ms == [ms[0]] + ms[1..];
      UserContentsConcat([ms[0]], ms[1..]);
      UserContentsConcat([ms[0]], AlternateAfter(w, ms[0], ms[1..]));
    }
  }

  /** The pass only ever adds messages. */
  lemma {:induction false} AlternateAfterAdds(w: Wording, prev: Message, ms: seq<Message>)
    ensures |AlternateAfter(w, prev, ms)| >= |ms|
    ensures |AlternateAfter(w, prev, ms)| == |ms| ==> AlternateAfter(w, prev, ms) == ms
    decreases ms
  {
    if ms != [] {
      AlternateAfterAdds(w, ms[0], ms[1..]);
    }
  }

  lemma AlternateAdds(w: Wording, ms: seq<Message>)
    ensures |Alternate(w, ms)| == |ms| <==> Alternate(w, ms) == ms
  {
    if ms != [] {
      AlternateAfterAdds(w, ms[0], ms[1..]);
    }
  }

  ghost predicate NoAdjacentUsers(ms: seq<Message>) {
    forall i :: 0 < i < |ms| ==> !(ms[i - 1].role == User && ms[i].role == User)
  }

  /** Without tool messages and overlays, the pass has nothing to do exactly when no two user messages meet. */
  lemma SpacedIffApart(w: Wording, ms: seq<Message>)
    requires AllCallFree(ms) && PlainUsers(ms)
    ensures Alternate(w, ms) == ms <==> NoAdjacentUsers(ms)
  {
    if NoAdjacentUsers(ms) {
      if ms != [] {
        forall i | 0 < i < |ms| ensures MarkerBetween(w, ms[i - 1], ms[i]).None? {
          assert CallFree(ms[i - 1]);
        }
        assert ms == [ms[0]] + ms[1..];
        SpacedIsFixed(w, ms[0], ms[1..]);
      }
    } else {
      var i :| 0 < i < |ms| && ms[i - 1].role == User && ms[i].role == User;
      assert MarkerBetween(w, ms[i - 1], ms[i]).Some?;
      AlternateSpaced(w, ms);
    }
  }

  // ------------------------------------------------------------------ what a fork preserves

  lemma {:induction false} AlternateAfterSettled(w: Wording, prev: Message, ms: seq<Message>)
    requires AllSettled(ms)
    ensures AllSettled(AlternateAfter(w, prev, ms))
    decreases ms
  {
    hide Settled;
    if ms != [] {
      AlternateAfterSettled(w, ms[0], ms[1..]);
      PlainTextSettled(w.abandonedRun);
      PlainTextSettled(w.endedOnToolResults);
    }
  }

  lemma HistoryIsSettled(w: Wording, log: seq<Event>, ignoreCompaction: bool)
    ensures AllSettled(Reconstruct(w, log, ignoreCompaction))
  {
    hide Settled, Replayed;
    var ms := Replayed(w, log, Honoured(log, ignoreCompaction));
    ReplayedIsPaired(w, log, Honoured(log, ignoreCompaction));
    assert forall i :: 0 <= i < |ms| ==> Genuine(ms[i]);
    if ms != [] {
      AlternateAfterSettled(w, ms[0], ms[1..]);
    }
  }

  /** What a reload of the forked log gives. */
  function Forked(w: Wording, ms: seq<Message>): seq<Message> {
    Reconstruct(w, ForkEvents(ms, 0), false)
  }

  lemma {:induction false} TailOfUncompacted(events: seq<Event>)
    requires NoCompaction(events)
    ensures Tail(events, None) == events && LastCompaction(events).None?
  {
    if events != [] {
      TailOfUncompacted(events[1..]);
      LastCompactionHead(events);
    }
  }

  lemma ForkedIs(w: Wording, ms: seq<Message>)
    ensures Forked(w, ms) == Alternate(w, Build(w, ForkEvents(ms, 0)))
  {
    hide Build, Alternate;
    ForkStartsTurns(ms, 0);
    TailOfUncompacted(ForkEvents(ms, 0));
    assert [] + Build(w, ForkEvents(ms, 0)) == Build(w, ForkEvents(ms, 0));
  }

  /** A fork at any message keeps what the user said, in order, whatever else the history holds. */
  lemma ForkKeepsUserTurns(w: Wording, log: seq<Event>, atMessage: nat)
    requires atMessage <= |Reconstruct(w, log, true)|
    ensures var copied := Reconstruct(w, log, true)[..atMessage];
            UserContents(Forked(w, copied)) == UserContents(copied)
  {
    hide Reconstruct, Build, Settled;
    HistoryIsSettled(w, log, true);
    var copied := Reconstruct(w, log, true)[..atMessage];
    ForkedIs(w, copied);
    ForkKeepsUserContents(w, copied, 0);
    AlternateContents(w, Build(w, ForkEvents(copied, 0)));
  }

  /**
   * Fork round trip. A fork at any message reloads to the copied messages, in role, content and
   * time, exactly when they hold no tool call and no tool result and no two user messages meet.
   */
  lemma ForkRoundTrip(w: Wording, log: seq<Event>, atMessage: nat)
    requires atMessage <= |Reconstruct(w, log, true)|
    ensures var copied := Reconstruct(w, log, true)[..atMessage];
            SameViews(Forked(w, copied), copied) <==> AllCallFree(copied) && NoAdjacentUsers(copied)
  {
    hide Reconstruct, Build, Settled, Alternate;
    HistoryIsSettled(w, log, true);
    var copied := Reconstruct(w, log, true)[..atMessage];
    var built := Build(w, ForkEvents(copied, 0));
    ForkedIs(w, copied);
    ForkIsCallFree(w, copied, 0);
    SpacedIffApart(w, built);
    AlternateAdds(w, built);
    AlternateCallFree(w, built);
    if AllCallFree(copied) {
      ForkKeepsViews(w, copied, 0);
      ApartByView(built, copied);
    } else if SameViews(Forked(w, copied), copied) {
      CallFreeByView(Forked(w, copied), copied);
    }
  }

  lemma ApartByView(a: seq<Message>, b: seq<Message>)
    requires SameViews(a, b)
    ensures NoAdjacentUsers(a) <==> NoAdjacentUsers(b)
  {
    assert forall i :: 0 <= i < |a| ==> a[i].role == b[i].role;
  }

  lemma CallFreeByView(a: seq<Message>, b: seq<Message>)
    requires SameViews(a, b) && AllCallFree(a)
    ensures AllCallFree(b)
  {
    forall i | 0 <= i < |b| ensures CallFree(b[i]) {
      assert CallFree(a[i]) && SameView(a[i], b[i]);
    }
  }

  lemma {:induction false} AlternateAfterCallFree(w: Wording, prev: Message, ms: seq<Message>)
    requires AllCallFree(ms)
    ensures AllCallFree(AlternateAfter(w, prev, ms))
    decreases ms
  {
    if ms != [] {
      assert CallFree(ms[0]);
      forall i | 0 <= i < |ms| - 1 ensures CallFree(ms[1..][i]) {
        assert CallFree(ms[i + 1]);
      }
      AlternateAfterCallFree(w, ms[0], ms[1..]);
      NoCallsInText(w.abandonedRun);
      NoCallsInText(w.endedOnToolResults);
    }
  }

  lemma AlternateCallFree(w: Wording, ms: seq<Message>)
    requires AllCallFree(ms)
    ensures AllCallFree(Alternate(w, ms))
  {
    if ms != [] {
      assert CallFree(ms[0]);
      forall i | 0 <= i < |ms| - 1 ensures CallFree(ms[1..][i]) {
        assert CallFree(ms[i + 1]);
      }
      AlternateAfterCallFree(w, ms[0], ms[1..]);
    }
  }
}
