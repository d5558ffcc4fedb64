/**
 * A conversation file and what is derived from it: the listing summary (src/conversation/index-cache.ts)
 * and the loaded record (src/conversation/event-sourced-store.ts).
 */
module ConversationFiles {
  import opened Prelude
  import opened ConversationTypes

  /** Line 1 of a file. */
  datatype Header = Header(
    id: string, createdAt: int, updatedAt: Option<int>,
    ownerId: Option<string>, model: Option<string>, lastModel: Option<string>)

  /**
   * A line. `Malformed` does not parse. `Null` is the JSON text `null`, and `NoUsage` a model response
   * without its usage: each parses, and cannot be applied. `Bare` is any other value that is no event.
   */
  datatype Line =
    | HeaderLine(header: Header)
    | EventLine(event: Event)
    | Malformed
    | Null
    | NoUsage(ts: Option<int>)
    | Bare

  /** The non-blank lines of a file. */
  type File = seq<Line>

  /** The price of one model call. */
  type Pricing = (string, Usage) -> nat

  // ------------------------------------------------------------------ derived from events

  /** The events of a file, every other line skipped. */
  function EventsIn(lines: seq<Line>): seq<Event> {
    if lines == [] then []
    else if lines[0].EventLine? then [lines[0].event] + EventsIn(lines[1..])
    else EventsIn(lines[1..])
  }

  lemma {:induction false} EventsInConcat(a: seq<Line>, b: seq<Line>)
    ensures EventsIn(a + b) == EventsIn(a) + EventsIn(b)
  {
    if a == [] {
      assert a + b == b;
    } else {
      assert (a + b)[1..] == a[1..] + b;
      EventsInConcat(a[1..], b);
    }
  }

  datatype UsageMetrics = UsageMetrics(inputTokens: nat, outputTokens: nat, cost: nat, lastModel: Option<string>)

  const NO_METRICS := UsageMetrics(0, 0, 0, None)

  function InputTokens(events: seq<Event>): nat {
    if events == [] then 0
    else (if events[0].LlmResponse? then events[0].usage.inputTokens else 0) + InputTokens(events[1..])
  }

  function OutputTokens(events: seq<Event>): nat {
    if events == [] then 0
    else (if events[0].LlmResponse? then events[0].usage.outputTokens else 0) + OutputTokens(events[1..])
  }

  function Cost(price: Pricing, events: seq<Event>): nat {
    if events == [] then 0
    else (if events[0].LlmResponse? then price(events[0].model, events[0].usage) else 0) + Cost(price, events[1..])
  }

  function LastModel(events: seq<Event>): Option<string> {
    if events == [] then None
    else if events[|events| - 1].LlmResponse? then Some(events[|events| - 1].model)
    else LastModel(events[..|events| - 1])
  }

  /** The title the last title event set, if there is one; a title event can clear the title. */
  function LastTitle(events: seq<Event>): Option<Option<string>> {
    if events == [] then None
    else if events[|events| - 1].MetadataTitle? then Some(events[|events| - 1].title)
    else LastTitle(events[..|events| - 1])
  }

  function UsageOf(price: Pricing, events: seq<Event>): UsageMetrics {
    UsageMetrics(InputTokens(events), OutputTokens(events), Cost(price, events), LastModel(events))
  }

  /** Totals over a log are the sums of the totals over its parts. */
  lemma {:induction false} TotalsConcat(price: Pricing, a: seq<Event>, b: seq<Event>)
    ensures InputTokens(a + b) == InputTokens(a) + InputTokens(b)
    ensures OutputTokens(a + b) == OutputTokens(a) + OutputTokens(b)
    ensures Cost(price, a + b) == Cost(price, a) + Cost(price, b)
    ensures MessageCount(a + b) == MessageCount(a) + MessageCount(b)
  {
    if a == [] {
      assert a + b == b;
    } else {
      assert (a + b)[1..] == a[1..] + b;
      TotalsConcat(price, a[1..], b);
    }
  }

  lemma TotalsOfOne(price: Pricing, e: Event)
    ensures InputTokens([e]) == if e.LlmResponse? then e.usage.inputTokens else 0
    ensures OutputTokens([e]) == if e.LlmResponse? then e.usage.outputTokens else 0
    ensures Cost(price, [e]) == if e.LlmResponse? then price(e.model, e.usage) else 0
    ensures MessageCount([e]) == if e.UserMessage? || e.RunDone? then 1 else 0
  {
    assert [e][1..] == [];
  }

  /** The last model is that of the response after which there is no other. */
  lemma {:induction false} LastModelIs(before: seq<Event>, e: Event, after: seq<Event>)
    requires e.LlmResponse? && forall i :: 0 <= i < |after| ==> !after[i].LlmResponse?
    ensures LastModel(before + [e] + after) == Some(e.model)
    decreases |after|
  {
    var all := before + [e] + after;
    if after == [] {
      assert all[|all| - 1] == e;
    } else {
      assert all[..|all| - 1] == before + [e] + after[..|after| - 1];
      LastModelIs(before, e, after[..|after| - 1]);
    }
  }

  method DeriveUsageMetrics(price: Pricing, events: seq<Event>) returns (m: UsageMetrics)
    ensures m == UsageOf(price, events)
  {
    m := NO_METRICS;
    for i := 0 to |events|
      invariant m == UsageOf(price, events[..i])
    {
      var event := events[i];
      assert events[..i + 1] == events[..i] + [event];
      TotalsConcat(price, events[..i], [event]);
      TotalsOfOne(price, event);
      assert events[..i + 1][..i] == events[..i];
      if event.LlmResponse? {
        m := UsageMetrics(m.inputTokens + event.usage.inputTokens, m.outputTokens + event.usage.outputTokens,
                          m.cost + price(event.model, event.usage), Some(event.model));
      }
    }
    assert events[..|events|] == events;
  }

  method DeriveConversationMeta(events: seq<Event>, default: Option<string>) returns (title: Option<string>)
    ensures title == LastTitle(events).GetOr(default)
  {
    title := default;
    for i := 0 to |events|
      invariant title == LastTitle(events[..i]).GetOr(default)
    {
      assert events[..i + 1][..i] == events[..i];
      if events[i].MetadataTitle? {
        title := events[i].title;
      }
    }
    assert events[..|events|] == events;
  }

  // ------------------------------------------------------------------ the listing summary

  datatype Summary = Summary(
    id: string, createdAt: int, updatedAt: int, title: Option<string>, messageCount: nat, preview: string,
    inputTokens: nat, outputTokens: nat, cost: nat, ownerId: string)

  function MessageCount(events: seq<Event>): nat {
    if events == [] then 0
    else (if events[0].UserMessage? || events[0].RunDone? then 1 else 0) + MessageCount(events[1..])
  }

  /** The text of the first text part. */
  function PreviewText(content: seq<Part>): string {
    if content == [] then []
    else if content[0].Text? then content[0].text
    else PreviewText(content[1..])
  }

  /** A message previews as its first text, if it has one. */
  lemma {:induction false} PreviewTextIs(content: seq<Part>, i: nat)
    requires i < |content| && content[i].Text? && forall j :: 0 <= j < i ==> !content[j].Text?
    ensures PreviewText(content) == content[i].text
  {
    if i > 0 {
      PreviewTextIs(content[1..], i - 1);
    }
  }

  /** The preview of the first user message that has one. */
  function Preview(events: seq<Event>): string {
    if events == [] then []
    else
      var before := Preview(events[..|events| - 1]);
      var last := events[|events| - 1];
      if before == [] && last.UserMessage? then PreviewText(last.content) else before
  }

  /** The time the scan is left with: a response without usage has set it before the line is given up. */
  function LastTs(lines: seq<Line>): Option<int> {
    if lines == [] then None
    else
      var last := lines[|lines| - 1];
      if last.EventLine? then Some(last.event.ts)
      else if last.NoUsage? && last.ts.Some? then last.ts
      else LastTs(lines[..|lines| - 1])
  }

  /** The summary of a file, unless it has no id or no owner on line 1. */
  function SummaryOf(price: Pricing, file: File): Option<Summary> {
    if file == [] || !file[0].HeaderLine? then None
    else
      var h, events := file[0].header, EventsIn(file[1..]);
      if h.id == "" || h.ownerId.GetOr("") == "" then None
      else Some(Summary(
          h.id, h.createdAt, LastTs(file[1..]).GetOr(h.updatedAt.GetOr(h.createdAt)), LastTitle(events).GetOr(None),
          MessageCount(events), Preview(events),
          InputTokens(events), OutputTokens(events), Cost(price, events), h.ownerId.value))
  }

  /** The running metrics folded from a file's lines. */
  class DerivedMetrics {
    var preview: string
    var messageCount: nat
    var inputTokens: nat
    var outputTokens: nat
    var cost: nat
    var lastEventTs: Option<int>
    var title: Option<Option<string>>

    ghost predicate Folded(price: Pricing, lines: seq<Line>)
      reads this
    {
      var events := EventsIn(lines);
      && preview == Preview(events) && messageCount == MessageCount(events)
      && inputTokens == InputTokens(events) && outputTokens == OutputTokens(events) && cost == Cost(price, events)
      && lastEventTs == LastTs(lines) && title == LastTitle(events)
    }

    constructor (ghost price: Pricing)
      ensures Folded(price, [])
    {
      preview, messageCount, inputTokens, outputTokens, cost, lastEventTs, title := "", 0, 0, 0, 0, None, None;
    }

    method ApplyEvent(price: Pricing, event: Event)
      modifies this
      ensures inputTokens == old(inputTokens) + (if event.LlmResponse? then event.usage.inputTokens else 0)
      ensures outputTokens == old(outputTokens) + (if event.LlmResponse? then event.usage.outputTokens else 0)
      ensures cost == old(cost) + (if event.LlmResponse? then price(event.model, event.usage) else 0)
      ensures messageCount == old(messageCount) + (if event.UserMessage? || event.RunDone? then 1 else 0)
      ensures preview == if old(preview) == "" && event.UserMessage? then PreviewText(event.content) else old(preview)
      ensures lastEventTs == Some(event.ts)
      ensures title == if event.MetadataTitle? then Some(event.title) else old(title)
    {
      lastEventTs := Some(event.ts);
      if event.UserMessage? {
        messageCount := messageCount + 1;
        if preview == "" {
          preview := PreviewText(event.content);
        }
      } else if event.RunDone? {
        messageCount := messageCount + 1;
      } else if event.LlmResponse? {
        inputTokens := inputTokens + event.usage.inputTokens;
        outputTokens := outputTokens + event.usage.outputTokens;
        cost := cost + price(event.model, event.usage);
      } else if event.MetadataTitle? {
        title := Some(event.title);
      }
    }

    /** Folds one line; a line that fails to parse or to apply is given up where it fails. */
    method ApplyEventLine(price: Pricing, line: Line, ghost before: seq<Line>)
      requires Folded(price, before)
      modifies this
      ensures Folded(price, before + [line])
    {
      hide InputTokens, OutputTokens, Cost, MessageCount, Preview, LastTs, LastTitle, PreviewText, EventsIn;
      OneMoreLine(before, line);
      if line.EventLine? {
        OneMoreEvent(price, EventsIn(before), line.event);
        ApplyEvent(price, line.event);
      } else if line.NoUsage? && line.ts.Some? {
        lastEventTs := line.ts;
      }
    }
  }

  lemma {:induction false} OneMoreLine(before: seq<Line>, line: Line)
    ensures EventsIn(before + [line]) ==
              if line.EventLine? then EventsIn(before) + [line.event] else EventsIn(before)
    ensures LastTs(before + [line]) ==
              if line.EventLine? then Some(line.event.ts)
              else if line.NoUsage? && line.ts.Some? then line.ts
              else LastTs(before)
  {
    EventsInConcat(before, [line]);
    assert [line][1..] == [] && (before + [line])[..|before|] == before;
  }

  /** What one more event changes. */
  lemma OneMoreEvent(price: Pricing, before: seq<Event>, e: Event)
    ensures var after := before + [e];
            && InputTokens(after) == InputTokens(before) + (if e.LlmResponse? then e.usage.inputTokens else 0)
            && OutputTokens(after) == OutputTokens(before) + (if e.LlmResponse? then e.usage.outputTokens else 0)
            && Cost(price, after) == Cost(price, before) + (if e.LlmResponse? then price(e.model, e.usage) else 0)
            && MessageCount(after) == MessageCount(before) + (if e.UserMessage? || e.RunDone? then 1 else 0)
            && Preview(after) ==
                 (if Preview(before) == [] && e.UserMessage? then PreviewText(e.content) else Preview(before))
            && LastTitle(after) == (if e.MetadataTitle? then Some(e.title) else LastTitle(before))
  {
    TotalsConcat(price, before, [e]);
    TotalsOfOne(price, e);
    assert (before + [e])[..|before|] == before;
  }

  method ScanLines(price: Pricing, lines: seq<Line>) returns (metrics: DerivedMetrics)
    requires lines != []
    ensures fresh(metrics) && metrics.Folded(price, lines[1..])
  {
    metrics := new DerivedMetrics(price);
    assert lines[1..1] == [];
    for i := 1 to |lines|
      invariant fresh(metrics) && metrics.Folded(price, lines[1..i])
    {
      assert lines[1..i + 1] == lines[1..i] + [lines[i]];
      metrics.ApplyEventLine(price, lines[i], lines[1..i]);
    }
    assert lines[1..|lines|] == lines[1..];
  }

  method ParseFileHeader(price: Pricing, lines: File) returns (r: Option<Summary>)
    ensures r == SummaryOf(price, lines)
  {
    if |lines| == 0 || !lines[0].HeaderLine? {
      return None;
    }
    var meta := lines[0].header;
    if meta.id == "" {
      return None;
    }
    var metrics := ScanLines(price, lines);
    if meta.ownerId.GetOr("") == "" {
      return None;
    }
    return Some(Summary(meta.id, meta.createdAt,
                        metrics.lastEventTs.GetOr(meta.updatedAt.GetOr(meta.createdAt)), metrics.title.GetOr(None),
                        metrics.messageCount, metrics.preview,
                        metrics.inputTokens, metrics.outputTokens, metrics.cost, meta.ownerId.value));
  }

  // ------------------------------------------------------------------ the loaded record

  /** `updatedAt` is undefined after a last line that parses and has no time. */
  datatype Conversation = Conversation(
    id: string, createdAt: int, updatedAt: Option<int>, title: Option<string>, lastModel: Option<string>,
    ownerId: string, model: string)

  /** `Unreadable` is an error that no caller expects; `Corrupted` is the typed one. */
  datatype Loaded = Missing | Corrupted | Unreadable | Found(conversation: Conversation)

  /** Every line that parses can be applied. */
  predicate Applicable(lines: seq<Line>) {
    forall i :: 0 <= i < |lines| ==> !lines[i].Null? && !lines[i].NoUsage?
  }

  /** The last line that parses is no event, so it has no time. */
  predicate EndsUntimed(lines: seq<Line>) {
    lines != [] &&
    (lines[|lines| - 1].Bare? || lines[|lines| - 1].HeaderLine? ||
     (lines[|lines| - 1].Malformed? && EndsUntimed(lines[..|lines| - 1])))
  }

  /** The time of the last line that parses, undefined if it has none; `default` when no line parses. */
  function UpdatedAt(lines: seq<Line>, default: int): Option<int> {
    if lines == [] then Some(default)
    else match lines[|lines| - 1]
      case EventLine(event) => Some(event.ts)
      case Malformed => UpdatedAt(lines[..|lines| - 1], default)
      case _ => None
  }

  /** Loading a file: line 1, overlaid with what its events say last. */
  function Load(file: Option<File>): Loaded {
    if file.None? || file.value == [] then Missing
    else if file.value[0].Malformed? || file.value[0].Null? then Unreadable
    else if !file.value[0].HeaderLine? then Corrupted
    else
      var h, events := file.value[0].header, EventsIn(file.value[1..]);
      if h.ownerId.GetOr("") == "" || h.model.GetOr("") == "" then Corrupted
      else if !Applicable(file.value[1..]) then Unreadable
      else Found(Conversation(
          h.id, h.createdAt, UpdatedAt(file.value[1..], h.updatedAt.GetOr(h.createdAt)), LastTitle(events).GetOr(None),
          if LastModel(events).GetOr("") != "" then LastModel(events) else h.lastModel, h.ownerId.value, h.model.value))
  }

  /** Where every line applies, load and scan see the same time unless the last line has none. */
  lemma {:induction false} SameTime(lines: seq<Line>, default: int)
    requires Applicable(lines)
    ensures UpdatedAt(lines, default) == if EndsUntimed(lines) then None else Some(LastTs(lines).GetOr(default))
  {
    if lines != [] {
      assert lines[|lines| - 1] in lines;
      SameTime(lines[..|lines| - 1], default);
    }
  }

  /**
   * When a listed conversation can be loaded: exactly when its header names a model and every line that
   * parses can be applied. Then both tell the same story, but for the time after an untimed last line.
   */
  lemma {:induction false} ListedAsLoaded(price: Pricing, file: File)
    requires SummaryOf(price, file).Some?
    ensures var s, loaded, rest := SummaryOf(price, file).value, Load(Some(file)), file[1..];
            && (loaded.Corrupted? <==> file[0].header.model.GetOr("") == "")
            && (loaded.Found? <==> file[0].header.model.GetOr("") != "" && Applicable(rest))
            && !loaded.Missing?
            && (loaded.Found? ==>
                  var c, u := loaded.conversation, UsageOf(price, EventsIn(rest));
                  && (c.id, c.createdAt, c.title, c.ownerId) == (s.id, s.createdAt, s.title, s.ownerId)
                  && (u.inputTokens, u.outputTokens, u.cost) == (s.inputTokens, s.outputTokens, s.cost)
                  && c.updatedAt == if EndsUntimed(rest) then None else Some(s.updatedAt))
  {
    var h := file[0].header;
    if Applicable(file[1..]) {
      SameTime(file[1..], h.updatedAt.GetOr(h.createdAt));
    }
  }

  const WITH_MODEL := HeaderLine(Header("conv_1", 1, None, Some("owner"), Some("model"), None))
  const WITHOUT_MODEL := HeaderLine(Header("conv_1", 1, None, Some("owner"), None, None))

  /** Files that are listed and cannot be loaded: one without a model, and two with a line that parses in vain. */
  lemma {:induction false} ListedAndNotLoaded(price: Pricing, ts: int)
    ensures SummaryOf(price, [WITHOUT_MODEL]).Some? && Load(Some([WITHOUT_MODEL])) == Corrupted
    ensures SummaryOf(price, [WITH_MODEL, Null]).Some? && Load(Some([WITH_MODEL, Null])) == Unreadable
    ensures SummaryOf(price, [WITH_MODEL, NoUsage(Some(ts))]).Some?
         && SummaryOf(price, [WITH_MODEL, NoUsage(Some(ts))]).value.updatedAt == ts
         && Load(Some([WITH_MODEL, NoUsage(Some(ts))])) == Unreadable
  {
    assert [WITH_MODEL, Null][1..][0] == Null;
    var line := NoUsage(Some(ts));
    assert [WITH_MODEL, line][1..] == [line] && [line][0] == line;
    assert LastTs([line]) == Some(ts);
  }
}
