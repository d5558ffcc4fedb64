/**
 * What replay makes of an event log: the message list `reconstructMessages` derives
 * (src/conversation/event-reconstructor.ts), as functions of the log. `ReplayLoops` holds the
 * source's index-walking loops and proves that they compute these functions.
 */
module Replay {
  import opened Prelude
  import opened ConversationTypes
  import opened Compaction
  import opened SkillDelivery
  import C = ContentHelpers
  import T = Text

  // ------------------------------------------------------------------ fixed texts

  /** The fixed texts replay writes; what is proved about replay holds for any wording. */
  datatype Wording = Wording(
    truncated: FinishReason -> string,
    orphanedToolCalls: string,
    cancelledRun: string,
    abandonedRun: string,
    endedOnToolResults: string,
    overlayBlock: OverlayEvent -> string,
    toolResult: C.Wording,
    seed: SeedWording)

  function TruncationMarker(reason: FinishReason): string {
    match reason
    case Length => "[Previous turn was cut off at the output-token limit before producing visible content.]"
    case ContentFilter => "[Previous turn was blocked by content filtering.]"
    case Error => "[Previous turn ended with a model error.]"
    case ToolCalls => "[Previous turn declared tool calls but emitted none.]"
    case Stop => "[Previous turn ended without producing content.]"
    case Other => "[Previous turn ended without producing content.]"
  }

  const ENGLISH := Wording(
    TruncationMarker,
    "[Previous turn called tools but tool execution did not complete (the run was cut short before " +
    "any tool returned). The tool calls were dropped on reload.]",
    "[This turn was stopped before it finished.]",
    "[Previous turn ended without producing any response.]",
    "[Previous turn ended after its tool calls, without a final response.]",
    BlockOf,
    C.ENGLISH,
    SEED_WORDING)

  // ------------------------------------------------------------------ user turns

  function ToUserContent(content: seq<Part>): seq<Part> {
    if content == [] then []
    else match content[0]
      case Text(text, _, _) => [PlainText(text)] + ToUserContent(content[1..])
      case ResourceLink(_, _, _) => [content[0]] + ToUserContent(content[1..])
      case _ => ToUserContent(content[1..])
  }

  function NonEmpty(s: Option<string>): Option<string> {
    if s == Some("") then None else s
  }

  function BuildUserMessage(e: UserMessageEvent): Message {
    Message(User, ToUserContent(e.content), e.ts, NonEmpty(e.userId), NO_METADATA.(files := e.files))
  }

  function TextParts(content: seq<Part>): seq<string> {
    if content == [] then []
    else if content[0].Text? then [content[0].text] + TextParts(content[1..])
    else TextParts(content[1..])
  }

  function UserMessageText(e: UserMessageEvent): string {
    T.Trim(T.Join(TextParts(e.content), "\n"))
  }

  function ExtractOperatorTurns(events: seq<Event>): seq<RetainedTurn> {
    if events == [] then []
    else if events[0].UserMessage? && UserMessageText(events[0]) != [] then
      [RetainedTurn(UserMessageText(events[0]), events[0].ts)] + ExtractOperatorTurns(events[1..])
    else ExtractOperatorTurns(events[1..])
  }

  // ------------------------------------------------------------------ one run span

  datatype Overlay = Overlay(event: OverlayEvent, afterResponses: nat)

  datatype Run = Run(
    responses: seq<LlmResponseEvent>,
    toolDones: map<string, ToolDoneEvent>,
    toolInputs: map<string, string>,
    overlays: seq<Overlay>,
    activations: map<string, ActivationEvent>)

  const EMPTY_RUN := Run([], map[], map[], [], map[])

  predicate IsTurnStart(e: Event) {
    e.UserMessage? || e.RunStart?
  }

  predicate IsTerminator(e: Event, runId: string) {
    (e.RunDone? || e.RunError?) && e.runId == runId
  }

  function Accumulate(run: Run, e: Event, runId: string): Run {
    match e
    case LlmResponse(_, id, _, _, _, _, _) => if id == runId then run.(responses := run.responses + [e]) else run
    case ToolDone(_, id, call, _, _, _, _) => if id == runId then run.(toolDones := run.toolDones[call := e]) else run
    case ToolStart(_, id, call, input) =>
      if id == runId && input.Some? then run.(toolInputs := run.toolInputs[call := input.value]) else run
    case ConnectorSkillInjected(_, _, _, _, _) => run.(overlays := run.overlays + [Overlay(e, |run.responses|)])
    case SkillActivated(_, id, call, _) => if id == runId then run.(activations := run.activations[call := e]) else run
    case _ => run
  }

  /** Everything the events inside a span contribute, in order. */
  function Collect(inner: seq<Event>, runId: string): Run {
    if inner == [] then EMPTY_RUN
    else Accumulate(Collect(inner[..|inner| - 1], runId), inner[|inner| - 1], runId)
  }

  /** How many events at the head of `events` are inside the span of `runId`. */
  function InnerLength(events: seq<Event>, runId: string): (n: nat)
    ensures n <= |events|
    ensures n < |events| ==> IsTerminator(events[n], runId) || IsTurnStart(events[n])
    ensures forall i :: 0 <= i < n ==> !IsTerminator(events[i], runId) && !IsTurnStart(events[i])
  {
    if events == [] || IsTerminator(events[0], runId) || IsTurnStart(events[0]) then 0
    else 1 + InnerLength(events[1..], runId)
  }

  /** How many events the span takes, its own terminator included; an implicit end is left for what follows. */
  function SpanLength(events: seq<Event>, runId: string): (n: nat)
    ensures n <= |events|
  {
    var n := InnerLength(events, runId);
    if n < |events| && IsTerminator(events[n], runId) then n + 1 else n
  }

  function CancelledAt(events: seq<Event>, runId: string): Option<int> {
    var n := InnerLength(events, runId);
    if n < |events| && IsTerminator(events[n], runId) && events[n].RunDone? && events[n].stopReason == "cancelled"
    then Some(events[n].ts) else None
  }

  // ------------------------------------------------------------------ one model response

  function LiftedOptions(meta: Option<string>, opts: Option<string>): Option<string> {
    if meta.Some? then meta else opts
  }

  predicate Replayable(p: Part) {
    p.ToolCall? || p.Text? || p.Reasoning? || p.File?
  }

  function NormalizePart(p: Part): Part {
    match p
    case ToolCall(id, name, input, meta, opts) => ToolCall(id, name, input, meta, LiftedOptions(meta, opts))
    case Text(text, meta, opts) => Text(text, meta, LiftedOptions(meta, opts))
    case Reasoning(text, meta, opts) => Reasoning(text, meta, LiftedOptions(meta, opts))
    case File(data, meta, opts) => File(data, meta, LiftedOptions(meta, opts))
    case _ => p
  }

  /** Renames provider metadata to provider options and drops what a prompt cannot carry. */
  function NormalizeForReplay(content: seq<Part>): seq<Part> {
    if content == [] then []
    else if Replayable(content[0]) then [NormalizePart(content[0])] + NormalizeForReplay(content[1..])
    else NormalizeForReplay(content[1..])
  }

  /** The content without the calls that never returned. */
  function DropOrphans(content: seq<Part>, run: Run): seq<Part> {
    if content == [] then []
    else if !content[0].ToolCall? || content[0].id in run.toolDones then [content[0]] + DropOrphans(content[1..], run)
    else DropOrphans(content[1..], run)
  }

  function ExecutedCalls(content: seq<Part>, run: Run): (calls: seq<Part>)
    ensures forall i :: 0 <= i < |calls| ==> calls[i].ToolCall? && calls[i].id in run.toolDones
  {
    if content == [] then []
    else if content[0].ToolCall? && content[0].id in run.toolDones then [content[0]] + ExecutedCalls(content[1..], run)
    else ExecutedCalls(content[1..], run)
  }

  predicate HasText(content: seq<Part>) {
    exists i :: 0 <= i < |content| && content[i].Text?
  }

  predicate HasReasoning(content: seq<Part>) {
    exists i :: 0 <= i < |content| && content[i].Reasoning?
  }

  function ReasoningWithOptions(content: seq<Part>): seq<Part> {
    if content == [] then []
    else if content[0].Reasoning? && content[0].opts.Some? then [content[0]] + ReasoningWithOptions(content[1..])
    else ReasoningWithOptions(content[1..])
  }

  function ResponseMetadata(e: LlmResponseEvent, iterations: nat): Metadata {
    NO_METADATA.(usage := Some(e.usage), model := Some(e.model), llmMs := Some(e.llmMs),
                 iterations := Some(iterations), finishReason := Some(e.finishReason))
  }

  function Placeholder(
    w: Wording, e: LlmResponseEvent, replay: seq<Part>, orphaned: bool, metadata: Metadata): seq<Message> {
    if !(orphaned || HasReasoning(replay) || e.finishReason != Stop) then []
    else
      var signed := ReasoningWithOptions(replay);
      var content :=
        if !orphaned && signed != [] then signed
        else [PlainText(if orphaned then w.orphanedToolCalls else w.truncated(e.finishReason))];
      [Message(Assistant, content, e.ts, None, metadata)]
  }

  function ToolCallMetas(calls: seq<Part>, run: Run): seq<ToolCallMeta>
    requires forall i :: 0 <= i < |calls| ==> calls[i].ToolCall? && calls[i].id in run.toolDones
  {
    if calls == [] then []
    else
      var call, done := calls[0], run.toolDones[calls[0].id];
      [ToolCallMeta(call.id, call.name, if call.id in run.toolInputs then run.toolInputs[call.id] else call.input,
                    done.output, done.ok, done.ms)] +
      ToolCallMetas(calls[1..], run)
  }

  function ToolResultMessage(w: Wording, call: Part, run: Run): Message
    requires call.ToolCall? && call.id in run.toolDones
  {
    var done := run.toolDones[call.id];
    Message(Tool,
            [ToolResult(call.id, call.name, C.ReplayedOutput(w.toolResult, done.output, done.modelOutput))],
            done.ts, None,
            if call.id in run.activations
            then NO_METADATA.(synthetic := Some(SKILL_ACTIVATED_SYNTHETIC),
              skill := Some(run.activations[call.id].skillName))
            else NO_METADATA)
  }

  function ToolResultMessages(w: Wording, calls: seq<Part>, run: Run): (ms: seq<Message>)
    requires forall i :: 0 <= i < |calls| ==> calls[i].ToolCall? && calls[i].id in run.toolDones
    ensures |ms| == |calls| && forall i :: 0 <= i < |calls| ==> ms[i] == ToolResultMessage(w, calls[i], run)
  {
    if calls == [] then [] else [ToolResultMessage(w, calls[0], run)] + ToolResultMessages(w, calls[1..], run)
  }

  /** The messages of one model response: an assistant message and its tool results, or a placeholder, or nothing. */
  function MessagesForResponse(w: Wording, e: LlmResponseEvent, run: Run): seq<Message> {
    var calls := ExecutedCalls(e.content, run);
    var orphaned := |CallIds(e.content)| > |calls|;
    var replay := NormalizeForReplay(DropOrphans(e.content, run));
    var metadata := ResponseMetadata(e, |run.responses|);
    if !HasText(replay) && calls == [] then Placeholder(w, e, replay, orphaned, metadata)
    else
      [Message(Assistant, replay, e.ts, None, metadata.(toolCalls := ToolCallMetas(calls, run)))] +
      ToolResultMessages(w, calls, run)
  }

  // ------------------------------------------------------------------ overlays

  function OverlayMessage(w: Wording, e: OverlayEvent): Message {
    Message(User, [PlainText(w.overlayBlock(e))], e.ts, None,
            NO_METADATA.(synthetic := Some(CONNECTOR_SKILL_SYNTHETIC), skill := Some(e.skillName)))
  }

  function OverlayMessages(w: Wording, es: seq<OverlayEvent>): (ms: seq<Message>)
    ensures |ms| == |es| && forall i :: 0 <= i < |es| ==> ms[i] == OverlayMessage(w, es[i])
  {
    if es == [] then [] else [OverlayMessage(w, es[0])] + OverlayMessages(w, es[1..])
  }

  /** The overlays delivered after exactly `k` responses of the run. */
  function DeliveredAfter(overlays: seq<Overlay>, k: nat): seq<OverlayEvent> {
    if overlays == [] then []
    else if overlays[0].afterResponses == k then [overlays[0].event] + DeliveredAfter(overlays[1..], k)
    else DeliveredAfter(overlays[1..], k)
  }

  predicate IsToolResult(m: Message) {
    m.role == Tool && |m.content| == 1 && m.content[0].ToolResult?
  }

  /** The ids of the tool results among `ms`, in order. */
  function ResultIds(ms: seq<Message>): seq<string> {
    if ms == [] then []
    else if IsToolResult(ms[0]) then [ms[0].content[0].id] + ResultIds(ms[1..])
    else ResultIds(ms[1..])
  }

  function CarryGuidance(w: Wording, m: Message, guidance: Guidance): Message {
    if IsToolResult(m) && m.content[0].id in guidance then
      var ds := guidance[m.content[0].id];
      m.(content := [WithGuidance(w.overlayBlock, m.content[0], ds)],
        metadata := m.metadata.(connectorSkills := Skills(ds)))
    else m
  }

  function CarryAll(w: Wording, ms: seq<Message>, guidance: Guidance): (r: seq<Message>)
    ensures |r| == |ms| && forall i :: 0 <= i < |ms| ==> r[i] == CarryGuidance(w, ms[i], guidance)
  {
    if ms == [] then [] else [CarryGuidance(w, ms[0], guidance)] + CarryAll(w, ms[1..], guidance)
  }

  /** One iteration's messages with the overlays it delivered in its tool results, or after it when it has none. */
  function WithOverlays(w: Wording, emitted: seq<Message>, delivered: seq<OverlayEvent>): seq<Message> {
    var guidance := GuidanceByToolCall(ResultIds(emitted), delivered);
    if delivered == [] then emitted
    else if guidance == map[] then emitted + OverlayMessages(w, delivered)
    else CarryAll(w, emitted, guidance)
  }

  // ------------------------------------------------------------------ a run's messages

  /** The messages of the run's `k`-th iteration. */
  function Iteration(w: Wording, run: Run, k: nat): seq<Message>
    requires 0 < k <= |run.responses|
  {
    WithOverlays(w, MessagesForResponse(w, run.responses[k - 1], run), DeliveredAfter(run.overlays, k))
  }

  function Iterations(w: Wording, run: Run, k: nat): seq<Message>
    requires k <= |run.responses|
  {
    if k == 0 then [] else Iterations(w, run, k - 1) + Iteration(w, run, k)
  }

  predicate AllText(content: seq<Part>) {
    forall i :: 0 <= i < |content| ==> content[i].Text?
  }

  function CancelledMessage(w: Wording, ts: int): Message {
    Message(Assistant, [PlainText(w.cancelledRun)], ts, None,
            NO_METADATA.(usage := Some(NO_USAGE), llmMs := Some(0), iterations := Some(0)))
  }

  /** The run's messages closed by the marker of a stopped run. */
  function CloseCancelled(w: Wording, ms: seq<Message>, ts: int): seq<Message> {
    if ms != [] && ms[|ms| - 1].role == Assistant then
      var last := ms[|ms| - 1];
      if AllText(last.content) then ms[..|ms| - 1] + [last.(content := last.content + [PlainText(w.cancelledRun)])]
      else ms
    else ms + [CancelledMessage(w, ts)]
  }

  function OpenRunMessages(w: Wording, run: Run): seq<Message> {
    Iterations(w, run, |run.responses|) + OverlayMessages(w, DeliveredAfter(run.overlays, 0))
  }

  function RunMessages(w: Wording, run: Run, cancelledAt: Option<int>): seq<Message> {
    if cancelledAt.Some? then CloseCancelled(w, OpenRunMessages(w, run), cancelledAt.value) else OpenRunMessages(w, run)
  }

  /** The messages of the span of `runId` that `events` begins with. */
  function SpanMessages(w: Wording, events: seq<Event>, runId: string): seq<Message> {
    RunMessages(w, Collect(events[..InnerLength(events, runId)], runId), CancelledAt(events, runId))
  }

  // ------------------------------------------------------------------ the whole log

  /** How many events the leading step of a log takes: a whole run span, or one event. */
  function StepLength(events: seq<Event>): (n: nat)
    requires events != []
    ensures 1 <= n <= |events|
  {
    if events[0].RunStart? then 1 + SpanLength(events[1..], events[0].runId) else 1
  }

  /** The messages of the leading step; events outside a run carry none. */
  function StepMessages(w: Wording, events: seq<Event>): seq<Message>
    requires events != []
  {
    if events[0].UserMessage? then [BuildUserMessage(events[0])]
    else if events[0].RunStart? then SpanMessages(w, events[1..], events[0].runId)
    else []
  }

  /** The messages of a log, step by step. */
  function Build(w: Wording, events: seq<Event>): seq<Message> {
    if events == [] then [] else StepMessages(w, events) + Build(w, events[StepLength(events)..])
  }

  /** The marker that belongs between two adjacent messages, if any. */
  function MarkerBetween(w: Wording, prev: Message, msg: Message): Option<string> {
    if msg.role != User then None
    else if prev.role == Tool then Some(w.endedOnToolResults)
    else if prev.role == User && !(IsOverlay(prev) && IsOverlay(msg)) then Some(w.abandonedRun)
    else None
  }

  function MarkerMessage(text: string, prev: Message, msg: Message): Message {
    Message(Assistant, [PlainText(text)], Min(prev.timestamp + 1, msg.timestamp), None,
            NO_METADATA.(finishReason := Some(Other), usage := Some(NO_USAGE), llmMs := Some(0), iterations := Some(0)))
  }

  function Markers(w: Wording, prev: Message, msg: Message): seq<Message> {
    match MarkerBetween(w, prev, msg)
    case Some(text) => [MarkerMessage(text, prev, msg)]
    case None => []
  }

  function AlternateAfter(w: Wording, prev: Message, ms: seq<Message>): seq<Message>
    decreases ms
  {
    if ms == [] then [] else Markers(w, prev, ms[0]) + [ms[0]] + AlternateAfter(w, ms[0], ms[1..])
  }

  /** The history with every gap in its role alternation named by a marker. */
  function Alternate(w: Wording, ms: seq<Message>): seq<Message> {
    if ms == [] then [] else [ms[0]] + AlternateAfter(w, ms[0], ms[1..])
  }

  function LastCompaction(events: seq<Event>): (c: Option<CompactionEvent>)
    ensures c.Some? ==> c.value in events
  {
    if events == [] then None
    else if events[|events| - 1].HistoryCompacted? then Some(events[|events| - 1])
    else LastCompaction(events[..|events| - 1])
  }

  /** The events replayed verbatim: no compaction records, and nothing before the boundary. */
  function Tail(events: seq<Event>, boundary: Option<int>): seq<Event> {
    if events == [] then []
    else if !events[0].HistoryCompacted? && (boundary.Some? ==> events[0].ts >= boundary.value) then
      [events[0]] + Tail(events[1..], boundary)
    else Tail(events[1..], boundary)
  }

  /** The compaction a view honours: the latest, or none in the verbatim view. */
  function Honoured(events: seq<Event>, ignoreCompaction: bool): Option<CompactionEvent> {
    if ignoreCompaction then None else LastCompaction(events)
  }

  function BoundaryOf(c: Option<CompactionEvent>): Option<int> {
    if c.Some? then Some(c.value.compactedThroughTs) else None
  }

  function Seed(w: Wording, events: seq<Event>, c: Option<CompactionEvent>): seq<Message> {
    if c.None? then []
    else
      var boundary := c.value.compactedThroughTs;
      CompactionSummaryMessages(w.seed, c.value.summary, boundary, Select(ExtractOperatorTurns(events), boundary))
  }

  /** Summary seed and verbatim tail, before the alternation pass. */
  function Replayed(w: Wording, events: seq<Event>, c: Option<CompactionEvent>): seq<Message> {
    Seed(w, events, c) + Build(w, Tail(events, BoundaryOf(c)))
  }

  function Reconstruct(w: Wording, events: seq<Event>, ignoreCompaction: bool): seq<Message> {
    Alternate(w, Replayed(w, events, Honoured(events, ignoreCompaction)))
  }
}
