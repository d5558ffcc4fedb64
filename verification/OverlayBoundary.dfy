/**
 * Logs on which fold and reload disagree, because the plan snaps to a synthetic overlay message: at the
 * default options, for every token estimate that follows the length of a text and every budget it leaves
 * room in.
 */
module OverlayBoundary {
  import opened Prelude
  import opened ConversationTypes
  import opened Compaction
  import opened Containment
  import opened Replay
  import opened ReplayStability
  import opened CompactionReplay
  import S = SkillDelivery

  /** What differs between the logs: the text of two user turns, and the body of the overlay between them. */
  datatype Texts = Texts(again: string, body: string, next: string)

  const ASKED: UserMessageEvent := UserMessage(1, [PlainText("Hello?")], None, None)
  const SAID := PlainText("One moment.")
  const CALL := ToolCall("call_1", "tool", "{}", None, None)
  const FIRST: LlmResponseEvent := LlmResponse(5, "run", "model", [SAID, CALL], NO_USAGE, 0, ToolCalls)
  const STARTED := ToolStart(6, "run", "call_1", None)

  function Again(text: string): UserMessageEvent {
    UserMessage(3, [PlainText(text)], None, None)
  }

  function Surfaced(body: string): OverlayEvent {
    ConnectorSkillInjected(7, "skill", "scope", body, Some("call_1"))
  }

  function Next(text: string): UserMessageEvent {
    UserMessage(9, [PlainText(text)], None, None)
  }

  /** A run cut short: its one call brought in an overlay and never returned. */
  function CutShort(body: string): seq<Event> {
    [RunStart(4, "run", "model"), FIRST, STARTED, Surfaced(body)]
  }

  /** A message nobody answered, a second one, the run it began, and the message that opens the next turn. */
  function Log(t: Texts): seq<Event> {
    [ASKED] + ([Again(t.again)] + (CutShort(t.body) + [Next(t.next)]))
  }

  // ------------------------------------------------------------------ the run

  lemma {:induction false} Collected(body: string)
    ensures Collect(CutShort(body)[1..], "run") == Run([FIRST], map[], map[], [Overlay(Surfaced(body), 1)], map[])
  {
    var inner := CutShort(body)[1..];
    assert inner == [FIRST, STARTED, Surfaced(body)];
    assert inner[..2] == [FIRST, STARTED] && inner[..2][..1] == [FIRST] && [FIRST][..0] == [];
    assert Collect([FIRST][..0], "run") == EMPTY_RUN;
    assert Collect([FIRST], "run") == EMPTY_RUN.(responses := [FIRST]);
    assert Collect(inner[..2], "run") == Collect([FIRST], "run");
  }

  lemma {:induction false} SpanIsOpen(body: string)
    ensures InnerLength(CutShort(body)[1..], "run") == 3
  {
    var inner, last := CutShort(body)[1..], [Surfaced(body)];
    assert inner[1..][1..] == last && last[1..] == [];
    assert InnerLength(last, "run") == 1;
    assert InnerLength(inner[1..], "run") == 2;
  }

  const ANSWER := Message(Assistant, [SAID], 5, None, ResponseMetadata(FIRST, 1))

  /** The call that never returned is dropped, and what was said beside it is kept. */
  lemma {:induction false} AnswerOf(w: Wording, run: Run)
    requires |run.responses| == 1 && run.toolDones == map[]
    ensures MessagesForResponse(w, FIRST, run) == [ANSWER]
  {
    var content := FIRST.content;
    assert content[1..] == [CALL] && [CALL][1..] == [];
    assert ExecutedCalls([CALL], run) == [] && DropOrphans([CALL], run) == [];
    assert ExecutedCalls(content, run) == [] && DropOrphans(content, run) == [SAID];
    assert [SAID][1..] == [];
    assert NormalizeForReplay([SAID]) == [SAID];
    assert HasText([SAID]) by {
      assert [SAID][0].Text?;
    }
  }

  function RunTail(w: Wording, body: string): seq<Message> {
    [ANSWER, OverlayMessage(w, Surfaced(body))]
  }

  lemma {:induction false} OneIteration(w: Wording, run: Run, overlay: OverlayEvent)
    requires run == Run([FIRST], map[], map[], [Overlay(overlay, 1)], map[])
    ensures OpenRunMessages(w, run) == [ANSWER, OverlayMessage(w, overlay)]
  {
    AnswerOf(w, run);
    hide MessagesForResponse;
    assert run.overlays[1..] == [];
    assert forall k: nat :: DeliveredAfter(run.overlays[1..], k) == [];
    assert DeliveredAfter(run.overlays, 1) == [overlay] && DeliveredAfter(run.overlays, 0) == [];
    assert [ANSWER][1..] == [] && ResultIds([ANSWER]) == ResultIds([ANSWER][1..]) == [];
    assert [overlay][1..] == [];
    assert OverlayMessages(w, [overlay]) == [OverlayMessage(w, overlay)];
    assert Iteration(w, run, 1) == [ANSWER, OverlayMessage(w, overlay)];
    assert Iterations(w, run, 0) == [];
    assert Iterations(w, run, 1) == [ANSWER, OverlayMessage(w, overlay)];
  }

  lemma {:induction false} RunOf(w: Wording, body: string)
    ensures SpanMessages(w, CutShort(body)[1..], "run") == RunTail(w, body)
  {
    hide OpenRunMessages, Collect;
    Collected(body);
    SpanIsOpen(body);
    var events := CutShort(body)[1..];
    assert events[..3] == events;
    OneIteration(w, Collect(events, "run"), Surfaced(body));
    assert CancelledAt(events, "run") == None;
  }

  // ------------------------------------------------------------------ the history

  lemma {:induction false} CutShortIs(w: Wording, body: string)
    ensures Build(w, CutShort(body)) == RunTail(w, body)
  {
    hide SpanMessages, Build;
    RunOf(w, body);
    SpanIsOpen(body);
    BuildStep(w, CutShort(body));
    assert StepLength(CutShort(body)) == 4 && CutShort(body)[4..] == [];
    BuildNothing(w);
  }

  lemma {:induction false} TurnIs(w: Wording, e: UserMessageEvent)
    ensures Build(w, [e]) == [BuildUserMessage(e)]
  {
    hide Build;
    BuildStep(w, [e]);
    assert [e][1..] == [];
    BuildNothing(w);
  }

  function Built(w: Wording, t: Texts): seq<Message> {
    [BuildUserMessage(ASKED)] +
    ([BuildUserMessage(Again(t.again))] + (RunTail(w, t.body) + [BuildUserMessage(Next(t.next))]))
  }

  lemma {:induction false} LogIsBuilt(w: Wording, t: Texts)
    ensures Build(w, Log(t)) == Built(w, t)
  {
    hide Build, RunTail, BuildUserMessage;
    TurnIs(w, ASKED);
    TurnIs(w, Again(t.again));
    CutShortIs(w, t.body);
    TurnIs(w, Next(t.next));
    var rest := CutShort(t.body) + [Next(t.next)];
    BuildSplit(w, [ASKED], [Again(t.again)] + rest);
    BuildSplit(w, [Again(t.again)], rest);
    BuildSplit(w, CutShort(t.body), [Next(t.next)]);
  }

  /** The replayed history: the overlay is at index 4, between two markers of turns nobody answered. */
  function History(w: Wording, t: Texts): seq<Message> {
    var a, b, c := BuildUserMessage(ASKED), BuildUserMessage(Again(t.again)), BuildUserMessage(Next(t.next));
    var overlay := OverlayMessage(w, Surfaced(t.body));
    [a, MarkerMessage(w.abandonedRun, a, b), b, ANSWER, overlay, MarkerMessage(w.abandonedRun, overlay, c), c]
  }

  lemma {:induction false} AfterOne(w: Wording, prev: Message, m: Message, rest: seq<Message>)
    ensures AlternateAfter(w, prev, [m] + rest) == Markers(w, prev, m) + [m] + AlternateAfter(w, m, rest)
  {
    assert ([m] + rest)[1..] == rest;
  }

  lemma {:induction false} BuiltAlternates(w: Wording, t: Texts)
    ensures Alternate(w, Built(w, t)) == History(w, t)
  {
    var a, b, c := BuildUserMessage(ASKED), BuildUserMessage(Again(t.again)), BuildUserMessage(Next(t.next));
    var overlay := OverlayMessage(w, Surfaced(t.body));
    assert Markers(w, a, b) == [MarkerMessage(w.abandonedRun, a, b)];
    assert Markers(w, b, ANSWER) == [] && Markers(w, ANSWER, overlay) == [];
    assert Markers(w, overlay, c) == [MarkerMessage(w.abandonedRun, overlay, c)];
    assert Built(w, t) == [a] + ([b] + ([ANSWER] + ([overlay] + ([c] + []))));
    HeadAlternates(w, a, b, ANSWER, overlay, c);
  }

  lemma {:induction false} HeadAlternates(
    w: Wording, a: Message, b: Message, answer: Message, overlay: Message, c: Message)
    ensures Alternate(w, [a] + ([b] + ([answer] + ([overlay] + ([c] + []))))) ==
        [a] + Markers(w, a, b) + [b] + Markers(w, b, answer) + [answer] + Markers(w, answer, overlay) + [overlay] +
        Markers(w, overlay, c) + [c]
  {
    hide Markers, AlternateAfter;
    AfterOne(w, overlay, c, []);
    AfterOne(w, answer, overlay, [c] + []);
    AfterOne(w, b, answer, [overlay] + ([c] + []));
    AfterOne(w, a, b, [answer] + ([overlay] + ([c] + [])));
    NothingAfter(w, c);
    assert ([a] + ([b] + ([answer] + ([overlay] + ([c] + [])))))[1..] == [b] + ([answer] + ([overlay] + ([c] + [])));
  }

  lemma {:induction false} NothingAfter(w: Wording, prev: Message)
    ensures AlternateAfter(w, prev, []) == []
  {
  }

  lemma {:induction false} HistoryOf(w: Wording, t: Texts)
    ensures Reconstruct(w, Log(t), false) == History(w, t)
  {
    hide Build, Alternate, History, Built;
    LogIsBuilt(w, t);
    BuiltAlternates(w, t);
    NoCompaction(t);
    TailAll(Log(t), None);
    assert [] + Built(w, t) == Built(w, t);
  }

  lemma {:induction false} NoCompaction(t: Texts)
    ensures LastCompaction(Log(t)) == None
  {
    var last := LastCompaction(Log(t));
  }

  // ------------------------------------------------------------------ the plan

  /** The history is over the trigger, and what is to be kept starts behind the overlay's head and before its end. */
  ghost predicate Calls(w: Wording, tok: Message -> nat, t: Texts, budget: int) {
    var h := History(w, t);
    && Sum(tok, h) as real > DefaultOptions(budget).Trigger()
    && (Sum(tok, h[6..]) as real) < DefaultOptions(budget).KeepTarget()
    && Sum(tok, h[4..]) as real >= DefaultOptions(budget).KeepTarget()
  }

  /** With the default options the plan folds four messages and keeps a tail that starts with the overlay. */
  lemma {:induction false} PlanSnapsToOverlay(w: Wording, tok: Message -> nat, t: Texts, budget: int)
    requires Calls(w, tok, t, budget)
    ensures PlanOf(tok, Reconstruct(w, Log(t), false), DefaultOptions(budget)) == Compact(4, 7)
    ensures IsOverlay(Reconstruct(w, Log(t), false)[4])
  {
    hide Reconstruct, Sum;
    HistoryOf(w, t);
    var h, target := History(w, t), DefaultOptions(budget).KeepTarget();
    assert |h| == 7 && h[4] == OverlayMessage(w, Surfaced(t.body)) && h[5].role == Assistant;
    var cut := TokenCut(tok, h, 6, target);
    assert cut == 5 || cut == 4;
    assert SnapToUser(h, 4) == 4 && SnapToUser(h, 5) == 4;
  }

  /** On these logs the list the fold returns is not the one a reload rebuilds, whatever the summary says. */
  lemma {:induction false} FoldAndReloadDisagree(
    w: Wording, tok: Message -> nat, t: Texts, budget: int, now: int, summary: string)
    requires Calls(w, tok, t, budget)
    ensures var h, turns := Reconstruct(w, Log(t), false), ExtractOperatorTurns(Log(t));
            var out := CompactConversationMessages(w.seed, tok, h, DefaultOptions(budget), turns, now, Some(summary));
            out.event.Some? && Reconstruct(w, Log(t) + [out.event.value], false) != out.messages
  {
    hide CompactConversationMessages, Reconstruct, PlanOf, ExtractOperatorTurns, Calls;
    PlanSnapsToOverlay(w, tok, t, budget);
    assert StrictlyChronological(Log(t));
    FoldAgreesIffUserTurn(w, tok, Log(t), DefaultOptions(budget), now, summary);
  }

  // ------------------------------------------------------------------ every budget

  /**
   * An estimate of a token for four characters: no less than the text of a message, and for a text of plain
   * letters no more than `frame` characters above it.
   */
  ghost predicate CountsText(tok: Message -> nat, frame: nat) {
    && (forall m: Message :: |m.content| == 1 && m.content[0].Text? ==> 4 * tok(m) >= |m.content[0].text|)
    && (forall m: Message, n: nat :: m.content == [PlainText(Letters(n))] ==> 4 * tok(m) <= n + frame)
  }

  function Ceiling(x: real): (n: int)
    ensures (n - 1) as real < x <= n as real
  {
    -(-x).Floor
  }

  /** How long the next message is, to stay below the keep target by less than the overlay takes. */
  function NextLength(budget: int, frame: nat): int {
    Ceiling(4.0 * DefaultOptions(budget).KeepTarget()) - 1 - frame
  }

  /** A long message, an overlay a character longer than the frame, and a message just below the keep target. */
  function TextsFor(budget: int, frame: nat): Texts
    requires budget >= 0 && NextLength(budget, frame) >= 0
  {
    Texts(Letters(4 * budget), Letters(frame + 1), Letters(NextLength(budget, frame)))
  }

  lemma {:induction false} PlainStays(tag: string, n: nat)
    ensures EscapeTag(tag, Letters(n)) == Letters(n)
  {
    if n > 0 {
      PlainStays(tag, n - 1);
      assert Letters(n)[1..] == Letters(n - 1);
      assert CloseLength(tag, Letters(n)) == 0;
    }
  }

  lemma {:induction false} BlockHoldsBody(n: nat)
    ensures |S.BlockOf(Surfaced(Letters(n)))| >= n
  {
    PlainStays(CONNECTOR_SKILL, n);
    hide EscapeTag;
    assert |WrapContained(CONNECTOR_SKILL, Letters(n))| >= n;
  }

  lemma {:induction false} SumOfSeven(tok: Message -> nat, h: seq<Message>)
    requires |h| == 7
    ensures Sum(tok, h) >= tok(h[2])
    ensures Sum(tok, h[6..]) == tok(h[6]) && Sum(tok, h[4..]) >= tok(h[4]) + tok(h[6])
  {
    assert h[6..][1..] == [] && h[5..][1..] == h[6..] && h[4..][1..] == h[5..];
    assert h[2..][1..] == h[3..] && h[1..][1..] == h[2..];
    assert Sum(tok, h[6..]) == tok(h[6]) + Sum(tok, h[6..][1..]);
    assert Sum(tok, h[5..]) == tok(h[5]) + Sum(tok, h[6..]);
    assert Sum(tok, h[4..]) == tok(h[4]) + Sum(tok, h[5..]);
    assert Sum(tok, h[2..]) == tok(h[2]) + Sum(tok, h[3..]);
    assert Sum(tok, h[1..]) == tok(h[1]) + Sum(tok, h[2..]);
  }

  lemma {:induction false} ShownTexts(t: Texts)
    ensures var h := History(ENGLISH, t);
            |h| == 7 && h[2].content == [PlainText(t.again)] && h[6].content == [PlainText(t.next)]
            && h[4].content == [PlainText(S.BlockOf(Surfaced(t.body)))]
  {
    assert [PlainText(t.again)][1..] == [] && [PlainText(t.next)][1..] == [];
  }

  lemma {:induction false} RoomIsKept(tok: Message -> nat, h: seq<Message>, budget: int, frame: nat)
    requires |h| == 7 && 4.0 * DefaultOptions(budget).KeepTarget() > frame as real
    requires tok(h[2]) >= budget && 4 * tok(h[4]) >= frame + 1
    requires NextLength(budget, frame) <= 4 * tok(h[6]) <= NextLength(budget, frame) + frame
    ensures Sum(tok, h) as real > DefaultOptions(budget).Trigger()
    ensures (Sum(tok, h[6..]) as real) < DefaultOptions(budget).KeepTarget()
    ensures Sum(tok, h[4..]) as real >= DefaultOptions(budget).KeepTarget()
  {
    hide Sum;
    SumOfSeven(tok, h);
    var target := DefaultOptions(budget).KeepTarget();
    assert budget > 0;
    assert 4.0 * (tok(h[6]) as real) < 4.0 * target;
    assert 4.0 * ((tok(h[4]) + tok(h[6])) as real) >= 4.0 * target;
  }

  /**
   * For every such estimate and every budget whose keep target is above the frame of one message, there is
   * such a log in the source's own wording, with an overlay body one character longer than the frame.
   */
  lemma {:induction false} SuchLogsExist(tok: Message -> nat, budget: int, frame: nat)
    requires CountsText(tok, frame) && 4.0 * DefaultOptions(budget).KeepTarget() > frame as real
    ensures budget > 0 && NextLength(budget, frame) >= 0
    ensures Calls(ENGLISH, tok, TextsFor(budget, frame), budget)
  {
    hide History, Sum, S.BlockOf, NextLength, Ceiling;
    NextHasRoom(budget, frame);
    var t := TextsFor(budget, frame);
    var h := History(ENGLISH, t);
    ShownTexts(t);
    BlockHoldsBody(frame + 1);
    RoomIsKept(tok, h, budget, frame);
  }

  lemma {:induction false} NextHasRoom(budget: int, frame: nat)
    requires 4.0 * DefaultOptions(budget).KeepTarget() > frame as real
    ensures budget > 0 && NextLength(budget, frame) >= 0
  {
  }
}
