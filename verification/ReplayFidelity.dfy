/**
 * What a replayed message says of the events it comes from: which parts of which event, with what time,
 * name and text. Positions stand for events, so that nothing is doubled, dropped or reordered unseen.
 */
module ReplayFidelity {
  import opened Prelude
  import opened Sifting
  import opened ConversationTypes
  import opened SkillDelivery
  import opened Replay
  import opened ReplayWellFormed
  import C = ContentHelpers

  // ------------------------------------------------------------------ user content

  predicate IsUserPart(p: Part) {
    p.Text? || p.ResourceLink?
  }

  /** A part of a user turn: the text alone of a text part, or a resource link as it is. */
  predicate UserPart(shown: Part, written: Part) {
    (written.Text? && shown == PlainText(written.text)) || (written.ResourceLink? && shown == written)
  }

  /** A user turn shows every text and every link that was written, in order, and nothing else. */
  lemma {:induction false} UserContentKept(content: seq<Part>) returns (from: seq<nat>)
    ensures Sifts(content, ToUserContent(content), IsUserPart, UserPart, from)
  {
    if content == [] {
      from := [];
    } else {
      from := UserContentKept(content[1..]);
      from := SiftHead(content, ToUserContent(content), ToUserContent(content[1..]), IsUserPart, UserPart, from);
    }
  }

  // ------------------------------------------------------------------ answer content

  /** A part of an answer as a prompt carries it: unchanged, but that its metadata are its options. */
  predicate PromptPart(shown: Part, streamed: Part) {
    match (shown, streamed)
    case (Text(t, m, o), Text(t', m', o')) => t == t' && Lifted(m, o, m', o')
    case (Reasoning(t, m, o), Reasoning(t', m', o')) => t == t' && Lifted(m, o, m', o')
    case (File(d, m, o), File(d', m', o')) => d == d' && Lifted(m, o, m', o')
    case (ToolCall(i, n, x, m, o), ToolCall(i', n', x', m', o')) =>
      i == i' && n == n' && x == x' && Lifted(m, o, m', o')
    case _ => false
  }

  predicate Lifted(meta: Option<string>, opts: Option<string>, meta': Option<string>, opts': Option<string>) {
    meta == meta' && (if meta'.Some? then opts == meta' else opts == opts')
  }

  /** A call that returned. */
  predicate IsExecuted(p: Part, run: Run) {
    p.ToolCall? && p.id in run.toolDones
  }

  function Executed(run: Run): Part -> bool {
    p => IsExecuted(p, run)
  }

  /** Content of its own, or a call that returned. */
  function Carried(run: Run): Part -> bool {
    (p: Part) => p.Text? || p.Reasoning? || p.File? || IsExecuted(p, run)
  }

  /** Replayed content is every part of the response but the calls that never returned, in order. */
  lemma {:induction false} AnswerContentKept(content: seq<Part>, run: Run) returns (from: seq<nat>)
    ensures Sifts(content, NormalizeForReplay(DropOrphans(content, run)), Carried(run), PromptPart, from)
  {
    if content == [] {
      from := [];
    } else {
      from := AnswerContentKept(content[1..], run);
      HeadShown(content, run);
      from := SiftHead(content, NormalizeForReplay(DropOrphans(content, run)),
                       NormalizeForReplay(DropOrphans(content[1..], run)), Carried(run), PromptPart, from);
    }
  }

  lemma {:induction false} HeadShown(content: seq<Part>, run: Run)
    requires content != []
    ensures var after := NormalizeForReplay(DropOrphans(content[1..], run));
            NormalizeForReplay(DropOrphans(content, run)) ==
              if Carried(run)(content[0]) then [NormalizePart(content[0])] + after else after
    ensures Carried(run)(content[0]) ==> PromptPart(NormalizePart(content[0]), content[0])
  {
    var kept := DropOrphans(content, run);
    if !content[0].ToolCall? || content[0].id in run.toolDones {
      assert kept[0] == content[0] && kept[1..] == DropOrphans(content[1..], run);
    }
  }

  predicate Same(shown: Part, p: Part) {
    shown == p
  }

  /** The calls of a response that returned, in order. */
  lemma {:induction false} ExecutedKept(content: seq<Part>, run: Run) returns (from: seq<nat>)
    ensures Sifts(content, ExecutedCalls(content, run), Executed(run), Same, from)
  {
    if content == [] {
      from := [];
    } else {
      from := ExecutedKept(content[1..], run);
      from := SiftHead(content, ExecutedCalls(content, run), ExecutedCalls(content[1..], run),
                       Executed(run), Same, from);
    }
  }

  /** What the record of an executed call says of it. */
  function Recorded(run: Run): (ToolCallMeta, Part) -> bool {
    (told: ToolCallMeta, p: Part) =>
      && IsExecuted(p, run)
      && (told.id, told.name) == (p.id, p.name)
      && told.input == (if p.id in run.toolInputs then run.toolInputs[p.id] else p.input)
      && told.output == run.toolDones[p.id].output
      && told.ok == run.toolDones[p.id].ok && told.ms == run.toolDones[p.id].ms
  }

  /** Each call that returned is recorded with the message, in order. */
  lemma {:induction false} CallsRecorded(content: seq<Part>, run: Run) returns (from: seq<nat>)
    ensures Sifts(content, ToolCallMetas(ExecutedCalls(content, run), run), Executed(run), Recorded(run), from)
  {
    if content == [] {
      from := [];
    } else {
      from := CallsRecorded(content[1..], run);
      var rest := ToolCallMetas(ExecutedCalls(content[1..], run), run);
      var calls := ExecutedCalls(content, run);
      if IsExecuted(content[0], run) {
        assert calls[1..] == ExecutedCalls(content[1..], run);
      }
      from := SiftHead(content, ToolCallMetas(calls, run), rest, Executed(run), Recorded(run), from);
    }
  }

  /** Reasoning that a provider takes back. */
  predicate IsSigned(p: Part) {
    p.Reasoning? && (p.meta.Some? || p.opts.Some?)
  }

  lemma {:induction false} SignedKept(content: seq<Part>, run: Run) returns (from: seq<nat>)
    ensures Sifts(content, ReasoningWithOptions(NormalizeForReplay(DropOrphans(content, run))),
                  IsSigned, PromptPart, from)
  {
    if content == [] {
      from := [];
    } else {
      from := SignedKept(content[1..], run);
      HeadShown(content, run);
      var all := NormalizeForReplay(DropOrphans(content, run));
      var after := NormalizeForReplay(DropOrphans(content[1..], run));
      if Carried(run)(content[0]) {
        assert all[0] == NormalizePart(content[0]) && all[1..] == after;
      }
      from := SiftHead(content, ReasoningWithOptions(all), ReasoningWithOptions(after), IsSigned, PromptPart, from);
    }
  }

  // ------------------------------------------------------------------ what a span gathers

  /** The position of the last event that passes. */
  function LastWhere(events: seq<Event>, passes: Event -> bool): (r: Option<nat>)
    ensures r.Some? ==> r.value < |events| && passes(events[r.value])
    ensures r.Some? ==> forall i :: r.value < i < |events| ==> !passes(events[i])
    ensures r.None? ==> forall i :: 0 <= i < |events| ==> !passes(events[i])
  {
    if events == [] then None
    else if passes(events[|events| - 1]) then Some(|events| - 1)
    else LastWhere(events[..|events| - 1], passes)
  }

  function Returns(runId: string, id: string): Event -> bool {
    (e: Event) => e.ToolDone? && e.runId == runId && e.id == id
  }

  function Feeds(runId: string, id: string): Event -> bool {
    (e: Event) => e.ToolStart? && e.runId == runId && e.id == id && e.input.Some?
  }

  function Activates(runId: string, id: string): Event -> bool {
    (e: Event) => e.SkillActivated? && e.runId == runId && e.toolCallId == id
  }

  function Responds(runId: string): Event -> bool {
    (e: Event) => e.LlmResponse? && e.runId == runId
  }

  predicate SameEvent(shown: LlmResponseEvent, e: Event) {
    shown == e
  }

  /** The events inside a span as a run: its responses in order, and of each call the last word on it. */
  ghost predicate Gathered(inner: seq<Event>, runId: string, run: Run) {
    && IsSift(inner, run.responses, Responds(runId), SameEvent)
    && (forall id :: id in run.toolDones <==> LastWhere(inner, Returns(runId, id)).Some?)
    && (forall id :: id in run.toolDones ==> run.toolDones[id] == inner[LastWhere(inner, Returns(runId, id)).value])
    && (forall id :: id in run.toolInputs <==> LastWhere(inner, Feeds(runId, id)).Some?)
    && (forall id :: id in run.toolInputs ==>
          run.toolInputs[id] == inner[LastWhere(inner, Feeds(runId, id)).value].input.value)
    && (forall id :: id in run.activations <==> LastWhere(inner, Activates(runId, id)).Some?)
    && (forall id :: id in run.activations ==>
          run.activations[id] == inner[LastWhere(inner, Activates(runId, id)).value])
  }

  lemma {:induction false} ResponsesGathered(inner: seq<Event>, runId: string) returns (from: seq<nat>)
    ensures Sifts(inner, Collect(inner, runId).responses, Responds(runId), SameEvent, from)
  {
    if inner == [] {
      from := [];
    } else {
      var n := |inner| - 1;
      from := ResponsesGathered(inner[..n], runId);
      var front, all := Collect(inner[..n], runId).responses, Collect(inner, runId).responses;
      assert all == if Responds(runId)(inner[n]) then front + [inner[n]] else front;
      assert Responds(runId)(inner[n]) ==> SameEvent(all[|front|], inner[n]);
      from := SiftLast(inner, all, front,
                       Responds(runId), SameEvent, from);
    }
  }

  lemma {:induction false} DonesGathered(inner: seq<Event>, runId: string, id: string)
    ensures var run, r := Collect(inner, runId), LastWhere(inner, Returns(runId, id));
            (id in run.toolDones <==> r.Some?) && (r.Some? ==> run.toolDones[id] == inner[r.value])
  {
    if inner != [] {
      DonesGathered(inner[..|inner| - 1], runId, id);
      var before, e := Collect(inner[..|inner| - 1], runId), inner[|inner| - 1];
      assert Collect(inner, runId) == Accumulate(before, e, runId);
    }
  }

  lemma {:induction false} InputsGathered(inner: seq<Event>, runId: string, id: string)
    ensures var run, r := Collect(inner, runId), LastWhere(inner, Feeds(runId, id));
            (id in run.toolInputs <==> r.Some?) && (r.Some? ==> run.toolInputs[id] == inner[r.value].input.value)
  {
    if inner != [] {
      InputsGathered(inner[..|inner| - 1], runId, id);
      var before, e := Collect(inner[..|inner| - 1], runId), inner[|inner| - 1];
      assert Collect(inner, runId) == Accumulate(before, e, runId);
    }
  }

  lemma {:induction false} ActivationsGathered(inner: seq<Event>, runId: string, id: string)
    ensures var run, r := Collect(inner, runId), LastWhere(inner, Activates(runId, id));
            (id in run.activations <==> r.Some?) && (r.Some? ==> run.activations[id] == inner[r.value])
  {
    if inner != [] {
      ActivationsGathered(inner[..|inner| - 1], runId, id);
      var before, e := Collect(inner[..|inner| - 1], runId), inner[|inner| - 1];
      assert Collect(inner, runId) == Accumulate(before, e, runId);
    }
  }

  lemma {:induction false} SpanGathers(inner: seq<Event>, runId: string)
    ensures Gathered(inner, runId, Collect(inner, runId))
  {
    hide Collect, LastWhere;
    var from := ResponsesGathered(inner, runId);
    var run := Collect(inner, runId);
    forall id
      ensures id in run.toolDones <==> LastWhere(inner, Returns(runId, id)).Some?
      ensures id in run.toolDones ==> run.toolDones[id] == inner[LastWhere(inner, Returns(runId, id)).value]
      ensures id in run.toolInputs <==> LastWhere(inner, Feeds(runId, id)).Some?
      ensures id in run.toolInputs ==>
                run.toolInputs[id] == inner[LastWhere(inner, Feeds(runId, id)).value].input.value
      ensures id in run.activations <==> LastWhere(inner, Activates(runId, id)).Some?
      ensures id in run.activations ==> run.activations[id] == inner[LastWhere(inner, Activates(runId, id)).value]
    {
      DonesGathered(inner, runId, id);
      InputsGathered(inner, runId, id);
      ActivationsGathered(inner, runId, id);
    }
  }

  // ------------------------------------------------------------------ one response

  function AssistantsOf(ms: seq<Message>): seq<Message> {
    if ms == [] then []
    else if ms[0].role == Assistant then [ms[0]] + AssistantsOf(ms[1..])
    else AssistantsOf(ms[1..])
  }

  lemma {:induction false} AssistantsConcat(a: seq<Message>, b: seq<Message>)
    ensures AssistantsOf(a + b) == AssistantsOf(a) + AssistantsOf(b)
  {
    if a == [] {
      assert a + b == b;
    } else {
      assert (a + b)[1..] == a[1..] + b;
      AssistantsConcat(a[1..], b);
    }
  }

  lemma {:induction false} NoAssistants(ms: seq<Message>)
    requires forall i :: 0 <= i < |ms| ==> ms[i].role != Assistant
    ensures AssistantsOf(ms) == []
  {
    if ms != [] {
      NoAssistants(ms[1..]);
    }
  }

  /** A response that ended cleanly with no text, no call and no reasoning: the one kind that leaves no message. */
  predicate IsSilent(e: Event) {
    e.LlmResponse? && e.finishReason == Stop &&
    forall i :: 0 <= i < |e.content| ==> !e.content[i].Text? && !e.content[i].ToolCall? && !e.content[i].Reasoning?
  }

  predicate Loud(e: LlmResponseEvent) {
    !IsSilent(e)
  }

  /** The response has text, or a call that returned. */
  ghost predicate IsReal(e: LlmResponseEvent, run: Run) {
    exists i :: 0 <= i < |e.content| && (e.content[i].Text? || IsExecuted(e.content[i], run))
  }

  /** What stands for a response without either: its signed reasoning if it made no call, or a marker that says why. */
  ghost predicate TellsGap(w: Wording, content: seq<Part>, e: LlmResponseEvent) {
    var called := exists i :: 0 <= i < |e.content| && e.content[i].ToolCall?;
    var signed := exists i :: 0 <= i < |e.content| && IsSigned(e.content[i]);
    if !called && signed then IsSift(e.content, content, IsSigned, PromptPart)
    else content == [PlainText(if called then w.orphanedToolCalls else w.truncated(e.finishReason))]
  }

  /** The message of a response: dated and described by it, with its parts and its executed calls. */
  ghost predicate AnswerTo(w: Wording, m: Message, e: Event, run: Run) {
    && e.LlmResponse?
    && m.role == Assistant && m.timestamp == e.ts && m.userId.None?
    && var told := NO_METADATA.(model := Some(e.model), usage := Some(e.usage), llmMs := Some(e.llmMs),
                                finishReason := Some(e.finishReason), iterations := Some(|run.responses|));
    && m.metadata == told.(toolCalls := m.metadata.toolCalls)
    && if IsReal(e, run) then
         IsSift(e.content, m.content, Carried(run), PromptPart) &&
         IsSift(e.content, m.metadata.toolCalls, Executed(run), Recorded(run))
       else TellsGap(w, m.content, e) && m.metadata.toolCalls == []
  }

  lemma {:induction false} TextAmong(content: seq<Part>, run: Run)
    ensures HasText(NormalizeForReplay(DropOrphans(content, run))) <==>
            exists i :: 0 <= i < |content| && content[i].Text?
    ensures HasReasoning(NormalizeForReplay(DropOrphans(content, run))) <==>
            exists i :: 0 <= i < |content| && content[i].Reasoning?
  {
    var shown := NormalizeForReplay(DropOrphans(content, run));
    var from := AnswerContentKept(content, run);
    hide NormalizeForReplay, DropOrphans;
    forall i | 0 <= i < |content| && (content[i].Text? || content[i].Reasoning?)
      ensures exists k :: 0 <= k < |shown| && PromptPart(shown[k], content[i])
    {
      var k := AscendingShows(content, shown, Carried(run), PromptPart, from, i);
    }
    forall k | 0 <= k < |shown| ensures PromptPart(shown[k], content[from[k]]) {
    }
  }

  lemma {:induction false} ExecutedAmong(content: seq<Part>, run: Run)
    ensures ExecutedCalls(content, run) != [] <==> exists i :: 0 <= i < |content| && IsExecuted(content[i], run)
  {
    var from := ExecutedKept(content, run);
    var calls := ExecutedCalls(content, run);
    if calls != [] {
      assert Executed(run)(content[from[0]]) by { assert from[0] in from; }
    }
    forall i | 0 <= i < |content| && IsExecuted(content[i], run) ensures calls != [] {
      var k := AscendingShows(content, calls, Executed(run), Same, from, i);
    }
  }

  lemma {:induction false} SignedAmong(content: seq<Part>, run: Run)
    ensures ReasoningWithOptions(NormalizeForReplay(DropOrphans(content, run))) != [] <==>
            exists i :: 0 <= i < |content| && IsSigned(content[i])
  {
    var from := SignedKept(content, run);
    var signed := ReasoningWithOptions(NormalizeForReplay(DropOrphans(content, run)));
    hide ReasoningWithOptions, NormalizeForReplay, DropOrphans;
    if signed != [] {
      assert IsSigned(content[from[0]]) by { assert from[0] in from; }
    }
    forall i | 0 <= i < |content| && IsSigned(content[i]) ensures signed != [] {
      var k := AscendingShows(content, signed, IsSigned, PromptPart, from, i);
    }
  }

  lemma {:induction false} RealShape(w: Wording, e: LlmResponseEvent, run: Run)
    requires IsReal(e, run)
    ensures var calls := ExecutedCalls(e.content, run);
            MessagesForResponse(w, e, run) ==
              [Message(Assistant, NormalizeForReplay(DropOrphans(e.content, run)), e.ts, None,
                       ResponseMetadata(e, |run.responses|).(toolCalls := ToolCallMetas(calls, run)))] +
              ToolResultMessages(w, calls, run)
  {
    TextAmong(e.content, run);
    ExecutedAmong(e.content, run);
    hide NormalizeForReplay, DropOrphans, ExecutedCalls, ToolCallMetas, ToolResultMessages, HasText;
    hide Placeholder, ResponseMetadata;
  }

  lemma {:induction false} GapShape(w: Wording, e: LlmResponseEvent, run: Run)
    requires !IsReal(e, run)
    ensures var called := exists i :: 0 <= i < |e.content| && e.content[i].ToolCall?;
            MessagesForResponse(w, e, run) ==
              Placeholder(w, e, NormalizeForReplay(DropOrphans(e.content, run)), called,
                          ResponseMetadata(e, |run.responses|))
  {
    TextAmong(e.content, run);
    ExecutedAmong(e.content, run);
    CallIdsEmpty(e.content);
    hide NormalizeForReplay, DropOrphans, ExecutedCalls, ToolCallMetas, ToolResultMessages, HasText;
    hide Placeholder, ResponseMetadata, CallIds;
  }

  /** A real response is replayed as one message with its parts, and then a result for each call that returned. */
  lemma {:induction false} RealAnswer(w: Wording, e: LlmResponseEvent, run: Run)
    requires IsReal(e, run)
    ensures var ms, calls := MessagesForResponse(w, e, run), ExecutedCalls(e.content, run);
            && |ms| == 1 + |calls| && AnswerTo(w, ms[0], e, run)
            && forall i :: 0 <= i < |calls| ==> ms[1 + i] == ToolResultMessage(w, calls[i], run)
  {
    RealShape(w, e, run);
    var parts := AnswerContentKept(e.content, run);
    var calls := CallsRecorded(e.content, run);
    hide MessagesForResponse, NormalizeForReplay, DropOrphans, ExecutedCalls, ToolCallMetas, ToolResultMessage;
    hide ToolResultMessages, IsReal, Sifts;
  }

  /** Any other response is replayed as one message that tells the gap, or as none when it is silent. */
  lemma {:induction false} GapAnswer(w: Wording, e: LlmResponseEvent, run: Run)
    requires !IsReal(e, run)
    ensures var ms := MessagesForResponse(w, e, run);
            if IsSilent(e) then ms == [] else |ms| == 1 && AnswerTo(w, ms[0], e, run)
  {
    GapShape(w, e, run);
    GapIsTold(w, e, run);
    NoTextInGap(e, run);
    hide MessagesForResponse, NormalizeForReplay, DropOrphans, Placeholder, TellsGap, IsReal;
  }

  lemma {:induction false} NoTextInGap(e: LlmResponseEvent, run: Run)
    requires !IsReal(e, run)
    ensures forall i :: 0 <= i < |e.content| ==> !e.content[i].Text?
  {
  }

  /** A response has its placeholder unless it ended cleanly with no call and no reasoning, and it tells the gap. */
  lemma {:induction false} GapIsTold(w: Wording, e: LlmResponseEvent, run: Run)
    ensures var called := exists i :: 0 <= i < |e.content| && e.content[i].ToolCall?;
            var reasoned := exists i :: 0 <= i < |e.content| && e.content[i].Reasoning?;
            var metadata := ResponseMetadata(e, |run.responses|);
            var ms := Placeholder(w, e, NormalizeForReplay(DropOrphans(e.content, run)), called, metadata);
            if !called && !reasoned && e.finishReason == Stop then ms == []
            else |ms| == 1 && TellsGap(w, ms[0].content, e)
                 && ms[0] == Message(Assistant, ms[0].content, e.ts, None, metadata)
  {
    TextAmong(e.content, run);
    SignedTells(w, e, run);
    var called := exists i :: 0 <= i < |e.content| && e.content[i].ToolCall?;
    PlaceholderIs(w, e, NormalizeForReplay(DropOrphans(e.content, run)), called, ResponseMetadata(e, |run.responses|));
    hide NormalizeForReplay, DropOrphans, HasReasoning, HasText, ReasoningWithOptions, ResponseMetadata;
    hide Placeholder, TellsGap;
  }

  lemma PlaceholderIs(w: Wording, e: LlmResponseEvent, shown: seq<Part>, called: bool, metadata: Metadata)
    ensures Placeholder(w, e, shown, called, metadata) ==
              if !called && !HasReasoning(shown) && e.finishReason == Stop then []
              else [Message(Assistant, GapContent(w, e, ReasoningWithOptions(shown), called), e.ts, None, metadata)]
  {
    hide HasReasoning, ReasoningWithOptions;
  }

  function GapContent(w: Wording, e: LlmResponseEvent, signed: seq<Part>, called: bool): seq<Part> {
    if !called && signed != [] then signed
    else [PlainText(if called then w.orphanedToolCalls else w.truncated(e.finishReason))]
  }

  lemma {:induction false} SignedTells(w: Wording, e: LlmResponseEvent, run: Run)
    ensures var called := exists i :: 0 <= i < |e.content| && e.content[i].ToolCall?;
            var signed := ReasoningWithOptions(NormalizeForReplay(DropOrphans(e.content, run)));
            TellsGap(w, GapContent(w, e, signed, called), e)
  {
    SignedAmong(e.content, run);
    var parts := SignedKept(e.content, run);
    hide NormalizeForReplay, DropOrphans, ReasoningWithOptions, Sifts;
  }

  // ------------------------------------------------------------------ a run's answers

  ghost function AnswerIn(w: Wording, run: Run): (Message, Event) -> bool {
    (m: Message, e: Event) => AnswerTo(w, m, e, run)
  }

  lemma {:induction false} ResponseAnswer(w: Wording, e: LlmResponseEvent, run: Run)
    ensures var shown := AssistantsOf(MessagesForResponse(w, e, run));
            if Loud(e) then |shown| == 1 && AnswerTo(w, shown[0], e, run) else shown == []
    ensures Loud(e) ==> AssistantsOf(MessagesForResponse(w, e, run)) == [MessagesForResponse(w, e, run)[0]]
  {
    hide MessagesForResponse;
    var ms := MessagesForResponse(w, e, run);
    if IsReal(e, run) {
      RealAnswer(w, e, run);
      forall i | 0 <= i < |ms[1..]| ensures ms[1..][i].role != Assistant {
        assert ms[1 + i] == ToolResultMessage(w, ExecutedCalls(e.content, run)[i], run);
      }
      NoAssistants(ms[1..]);
    } else {
      GapAnswer(w, e, run);
      assert Loud(e) ==> ms[1..] == [];
    }
  }

  lemma {:induction false} CarriedAssistants(w: Wording, ms: seq<Message>, guidance: Guidance)
    ensures AssistantsOf(CarryAll(w, ms, guidance)) == AssistantsOf(ms)
  {
    if ms != [] {
      CarriedAssistants(w, ms[1..], guidance);
      assert CarryAll(w, ms, guidance)[1..] == CarryAll(w, ms[1..], guidance);
    }
  }

  /** Overlays add no answer and change none. */
  lemma {:induction false} IterationAnswers(w: Wording, emitted: seq<Message>, delivered: seq<OverlayEvent>)
    ensures AssistantsOf(WithOverlays(w, emitted, delivered)) == AssistantsOf(emitted)
  {
    NoAssistants(OverlayMessages(w, delivered));
    AssistantsConcat(emitted, OverlayMessages(w, delivered));
    CarriedAssistants(w, emitted, GuidanceByToolCall(ResultIds(emitted), delivered));
  }

  /** What an iteration adds to the answers: that of its response, if it leaves one. */
  lemma {:induction false} AnswersStep(w: Wording, run: Run, k: nat)
    requires 0 < k <= |run.responses|
    ensures AssistantsOf(Iterations(w, run, k)) == AssistantsOf(Iterations(w, run, k - 1)) +
            AssistantsOf(MessagesForResponse(w, run.responses[k - 1], run))
  {
    hide MessagesForResponse, WithOverlays, DeliveredAfter, AssistantsOf;
    var e, before := run.responses[k - 1], Iterations(w, run, k - 1);
    IterationAnswers(w, MessagesForResponse(w, e, run), DeliveredAfter(run.overlays, k));
    AssistantsConcat(before, Iteration(w, run, k));
  }

  lemma {:induction false} IterationsAnswer(w: Wording, run: Run, k: nat) returns (from: seq<nat>)
    requires k <= |run.responses|
    ensures Sifts(run.responses[..k], AssistantsOf(Iterations(w, run, k)), Loud, AnswerIn(w, run), from)
  {
    hide MessagesForResponse, AnswerTo, AssistantsOf, Iterations, Loud, Sifts;
    if k == 0 {
      from := [];
      NoIterations(w, run);
    } else {
      from := IterationsAnswer(w, run, k - 1);
      var e, responses := run.responses[k - 1], run.responses[..k];
      ResponseAnswer(w, e, run);
      AnswersStep(w, run, k);
      assert responses[..k - 1] == run.responses[..k - 1] && responses[k - 1] == e;
      var front, all := AssistantsOf(Iterations(w, run, k - 1)), AssistantsOf(Iterations(w, run, k));
      assert front + [] == front;
      from := SiftLast(responses, all, front, Loud, AnswerIn(w, run), from);
    }
  }

  lemma NoIterations(w: Wording, run: Run)
    ensures Sifts(run.responses[..0], AssistantsOf(Iterations(w, run, 0)), Loud, AnswerIn(w, run), [])
  {
  }

  // ------------------------------------------------------------------ a span's answers

  lemma {:induction false} InnerOfInner(events: seq<Event>, runId: string)
    ensures var n := InnerLength(events, runId); InnerLength(events[..n], runId) == n
    ensures CancelledAt(events[..InnerLength(events, runId)], runId).None?
  {
    var n := InnerLength(events, runId);
    if n > 0 {
      InnerOfInner(events[1..], runId);
      assert events[..n][1..] == events[1..][..n - 1];
    }
  }

  /** Some response of the run that leaves a message. */
  function Speaks(runId: string): Event -> bool {
    (e: Event) => e.LlmResponse? && e.runId == runId && Loud(e)
  }

  /** The messages of the span up to its end, however it ends. */
  function OpenSpan(w: Wording, events: seq<Event>, runId: string): seq<Message> {
    SpanMessages(w, events[..InnerLength(events, runId)], runId)
  }

  /**
   * The answers of a run are its responses, in the order of the log: each of them but the silent ones has
   * one message, dated and described by it, with its parts and with the record of its calls that returned.
   */
  lemma {:induction false} SpanAnswers(w: Wording, events: seq<Event>, runId: string) returns (run: Run, from: seq<nat>)
    ensures var inner := events[..InnerLength(events, runId)];
            && Gathered(inner, runId, run)
            && Sifts(inner, AssistantsOf(OpenSpan(w, events, runId)), Speaks(runId), AnswerIn(w, run), from)
  {
    hide Iterations, AnswerTo, Gathered, Collect;
    var inner := events[..InnerLength(events, runId)];
    run := Collect(inner, runId);
    InnerOfInner(events, runId);
    SpanGathers(inner, runId);
    assert inner[..|inner|] == inner;
    var f := ResponsesGathered(inner, runId);
    var g := IterationsAnswer(w, run, |run.responses|);
    assert run.responses[..|run.responses|] == run.responses;
    var overlays := OverlayMessages(w, DeliveredAfter(run.overlays, 0));
    NoAssistants(overlays);
    var answers := AssistantsOf(Iterations(w, run, |run.responses|));
    AssistantsConcat(Iterations(w, run, |run.responses|), overlays);
    assert AssistantsOf(OpenSpan(w, events, runId)) == answers + [] == answers;
    forall i | 0 <= i < |run.responses| ensures Loud(run.responses[i]) <==> Speaks(runId)(inner[f[i]]) {
      assert f[i] in f && SameEvent(run.responses[i], inner[f[i]]);
    }
    from := SiftTwice(inner, run.responses, answers, Responds(runId), SameEvent, f,
                      Loud, AnswerIn(w, run), g, Speaks(runId), AnswerIn(w, run));
  }

  // ------------------------------------------------------------------ a span's results

  /** Some response of the run calls `name` under this id. */
  ghost predicate IsCalled(run: Run, id: string, name: string) {
    exists r, i :: 0 <= r < |run.responses| && 0 <= i < |run.responses[r].content| &&
      CallsAs(run.responses[r].content[i], id, name)
  }

  predicate CallsAs(p: Part, id: string, name: string) {
    p.ToolCall? && p.id == id && p.name == name
  }

  /** The text the model saw of a call: the record's own, or the output bounded as it would be now. */
  function SeenText(w: Wording, done: ToolDoneEvent): string {
    if done.modelOutput.Some? then done.modelOutput.value
    else w.toolResult.Bound(done.output, false, C.MAX_TOOL_RESULT_CHARS)
  }

  /**
   * The message of a call's result: named like the call, dated like its last record, with the text of that
   * record first and alone unless it carries guidance, and marked when the call activated a skill.
   */
  ghost predicate ResultIn(w: Wording, m: Message, run: Run) {
    && |m.content| == 1 && m.content[0].ToolResult? && m.content[0].id in run.toolDones
    && var id, done := m.content[0].id, run.toolDones[m.content[0].id];
    && IsCalled(run, id, m.content[0].name)
    && m.timestamp == done.ts
    && SeenText(w, done) <= m.content[0].output
    && (m.metadata.connectorSkills == [] ==> m.content[0].output == SeenText(w, done))
    && var marked := if id in run.activations
         then NO_METADATA.(synthetic := Some(SKILL_ACTIVATED_SYNTHETIC), skill := Some(run.activations[id].skillName))
         else NO_METADATA;
    && m.metadata == marked.(connectorSkills := m.metadata.connectorSkills)
  }

  ghost predicate ResultsIn(w: Wording, ms: seq<Message>, run: Run) {
    forall i :: 0 <= i < |ms| ==> ms[i].role == Tool ==> ResultIn(w, ms[i], run)
  }

  lemma {:induction false} CallResult(w: Wording, e: LlmResponseEvent, run: Run, i: nat)
    requires e in run.responses && i < |ExecutedCalls(e.content, run)|
    ensures ResultIn(w, ToolResultMessage(w, ExecutedCalls(e.content, run)[i], run), run)
  {
    var call := ExecutedCalls(e.content, run)[i];
    var from := ExecutedKept(e.content, run);
    assert Same(call, e.content[from[i]]);
    var r :| 0 <= r < |run.responses| && run.responses[r] == e;
    assert CallsAs(run.responses[r].content[from[i]], call.id, call.name);
  }

  lemma {:induction false} ResponseResults(w: Wording, e: LlmResponseEvent, run: Run)
    requires e in run.responses
    ensures ResultsIn(w, MessagesForResponse(w, e, run), run)
  {
    hide MessagesForResponse, ToolResultMessage, ExecutedCalls, ResultIn;
    var ms := MessagesForResponse(w, e, run);
    if IsReal(e, run) {
      RealAnswer(w, e, run);
      forall i | 0 < i < |ms| ensures ResultIn(w, ms[i], run) {
        CallResult(w, e, run, i - 1);
        assert ms[1 + (i - 1)] == ToolResultMessage(w, ExecutedCalls(e.content, run)[i - 1], run);
      }
    } else {
      GapAnswer(w, e, run);
    }
  }

  /** Guidance is added after a result's own text. */
  lemma {:induction false} GuidanceFollows(block: OverlayEvent -> string, part: Part, ds: seq<OverlayEvent>)
    requires part.ToolResult?
    ensures var g := WithGuidance(block, part, ds);
            && g.ToolResult? && (g.id, g.name) == (part.id, part.name)
            && part.output <= g.output && (ds == [] ==> g.output == part.output)
  {
    if ds != [] {
      var parts := [part.output] + Blocks(block, ds);
      assert parts[0] == part.output && |parts| > 1;
    }
  }

  lemma {:induction false} CarriedResult(w: Wording, m: Message, guidance: Guidance, run: Run)
    requires m.role == Tool && ResultIn(w, m, run) && m.metadata.connectorSkills == []
    ensures ResultIn(w, CarryGuidance(w, m, guidance), run)
  {
    hide WithGuidance;
    if m.content[0].id in guidance {
      GuidanceFollows(w.overlayBlock, m.content[0], guidance[m.content[0].id]);
    }
  }

  lemma {:induction false} IterationResults(w: Wording, e: LlmResponseEvent, run: Run, ds: seq<OverlayEvent>)
    requires e in run.responses
    ensures ResultsIn(w, WithOverlays(w, MessagesForResponse(w, e, run), ds), run)
  {
    hide MessagesForResponse, ResultIn, CarryGuidance, GuidanceByToolCall;
    var emitted := MessagesForResponse(w, e, run);
    ResponseResults(w, e, run);
    NoGuidanceYet(w, e, run);
    var guidance := GuidanceByToolCall(ResultIds(emitted), ds);
    forall i | 0 <= i < |emitted| ensures CarryGuidance(w, emitted[i], guidance).role == Tool ==>
        ResultIn(w, CarryGuidance(w, emitted[i], guidance), run)
    {
      CarriedRole(w, emitted[i], guidance);
      if emitted[i].role == Tool {
        CarriedResult(w, emitted[i], guidance, run);
      }
    }
  }

  lemma {:induction false} CarriedRole(w: Wording, m: Message, guidance: Guidance)
    ensures CarryGuidance(w, m, guidance).role == m.role
  {
  }

  lemma {:induction false} NoGuidanceYet(w: Wording, e: LlmResponseEvent, run: Run)
    ensures forall i :: 0 <= i < |MessagesForResponse(w, e, run)| ==>
              MessagesForResponse(w, e, run)[i].metadata.connectorSkills == []
  {
    if IsReal(e, run) {
      RealAnswer(w, e, run);
      var ms := MessagesForResponse(w, e, run);
      forall i | 0 < i < |ms| ensures ms[i].metadata.connectorSkills == [] {
        assert ms[1 + (i - 1)] == ToolResultMessage(w, ExecutedCalls(e.content, run)[i - 1], run);
      }
    } else {
      GapAnswer(w, e, run);
    }
  }

  lemma {:induction false} IterationsResults(w: Wording, run: Run, k: nat)
    requires k <= |run.responses|
    ensures ResultsIn(w, Iterations(w, run, k), run)
  {
    hide MessagesForResponse, WithOverlays, ResultIn;
    if k > 0 {
      IterationsResults(w, run, k - 1);
      IterationResults(w, run.responses[k - 1], run, DeliveredAfter(run.overlays, k));
    }
  }

  /** Every result in a run's messages says what the last record of its call says. */
  lemma {:induction false} SpanResults(w: Wording, events: seq<Event>, runId: string) returns (run: Run)
    ensures Gathered(events[..InnerLength(events, runId)], runId, run)
    ensures ResultsIn(w, OpenSpan(w, events, runId), run)
  {
    hide Iterations, ResultIn, Gathered, Collect;
    var inner := events[..InnerLength(events, runId)];
    run := Collect(inner, runId);
    InnerOfInner(events, runId);
    SpanGathers(inner, runId);
    assert inner[..|inner|] == inner;
    IterationsResults(w, run, |run.responses|);
  }

  // ------------------------------------------------------------------ how a run ends

  /** The span ends because the run was stopped. */
  predicate IsStopped(events: seq<Event>, runId: string) {
    var n := InnerLength(events, runId);
    n < |events| && events[n].RunDone? && events[n].runId == runId && events[n].stopReason == "cancelled"
  }

  /** A part that is not text. */
  predicate HasOther(content: seq<Part>) {
    exists i :: 0 <= i < |content| && !content[i].Text?
  }

  /**
   * What the end of a run adds: nothing, unless it was stopped. Then the model is told, at the end of the last
   * message if that is an answer in text alone, not at all if it is another answer, and else in a message of its own.
   */
  lemma {:induction false} StopIsTold(w: Wording, events: seq<Event>, runId: string)
    ensures var open, closed := OpenSpan(w, events, runId), SpanMessages(w, events, runId);
            var n := |open|;
            if !IsStopped(events, runId) then closed == open
            else if n == 0 || open[n - 1].role != Assistant then
              && |closed| == n + 1 && closed[..n] == open
              && closed[n].role == Assistant && closed[n].content == [PlainText(w.cancelledRun)]
              && closed[n].timestamp == events[InnerLength(events, runId)].ts
            else if HasOther(open[n - 1].content) then closed == open
            else
              && |closed| == n && closed[..n - 1] == open[..n - 1]
              && closed[n - 1] == open[n - 1].(content := open[n - 1].content + [PlainText(w.cancelledRun)])
  {
    hide OpenRunMessages, Collect, InnerLength, SpanLength;
    var inner := events[..InnerLength(events, runId)];
    InnerOfInner(events, runId);
    assert inner[..|inner|] == inner;
    var open := OpenRunMessages(w, Collect(inner, runId));
    assert OpenSpan(w, events, runId) == open;
    if IsStopped(events, runId) {
      ClosingTells(w, open, events[InnerLength(events, runId)].ts);
    }
  }

  lemma {:induction false} ClosingTells(w: Wording, open: seq<Message>, ts: int)
    ensures var closed, n := CloseCancelled(w, open, ts), |open|;
            if n == 0 || open[n - 1].role != Assistant then
              && |closed| == n + 1 && closed[..n] == open
              && closed[n].role == Assistant && closed[n].content == [PlainText(w.cancelledRun)]
              && closed[n].timestamp == ts
            else if HasOther(open[n - 1].content) then closed == open
            else
              && |closed| == n && closed[..n - 1] == open[..n - 1]
              && closed[n - 1] == open[n - 1].(content := open[n - 1].content + [PlainText(w.cancelledRun)])
  {
  }
}
