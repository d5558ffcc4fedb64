/** History compaction (src/conversation/compaction.ts): the plan, the operator turns a fold keeps, the replay seed. */
module Compaction {
  import opened Prelude
  import opened ConversationTypes
  import T = Text

  // ------------------------------------------------------------------ where to fold

  datatype Options = Options(budget: int, triggerRatio: real, keepRatio: real, minSummarizedMessages: nat) {
    function Trigger(): real {
      triggerRatio * budget as real
    }

    function KeepTarget(): real {
      keepRatio * budget as real
    }
  }

  function DefaultOptions(budget: int): Options {
    Options(budget, 0.7, 0.35, 4)
  }

  datatype Plan = Noop | Compact(boundaryIndex: nat, boundaryTs: int)

  /** The latest index from which at least `target` tokens are kept, or 0. */
  function TokenCut(tok: Message -> nat, ms: seq<Message>, i: nat, target: real): (cut: nat)
    requires i < |ms|
    ensures cut <= i
    ensures cut > 0 ==> Sum(tok, ms[cut..]) as real >= target
    ensures forall j :: cut < j <= i ==> (Sum(tok, ms[j..]) as real) < target
  {
    if i == 0 || Sum(tok, ms[i..]) as real >= target then i else TokenCut(tok, ms, i - 1, target)
  }

  /** The nearest user message at or before `i`, or 0. */
  function SnapToUser(ms: seq<Message>, i: nat): (b: nat)
    requires i < |ms|
    ensures b <= i
    ensures b > 0 ==> ms[b].role == User
    ensures forall j :: b < j <= i ==> ms[j].role != User
  {
    if i == 0 || ms[i].role == User then i else SnapToUser(ms, i - 1)
  }

  /** The plan for a history that is over `trigger` tokens and should keep about `keepTarget`. */
  function PlanWithin(
    tok: Message -> nat, ms: seq<Message>, trigger: real, keepTarget: real, minSummarized: nat): Plan {
    if ms == [] || Sum(tok, ms) as real <= trigger then Noop else
      var boundary := SnapToUser(ms, TokenCut(tok, ms, |ms| - 1, keepTarget));
      if boundary < minSummarized then Noop else Compact(boundary, ms[boundary].timestamp)
  }

  function PlanOf(tok: Message -> nat, ms: seq<Message>, opts: Options): Plan {
    PlanWithin(tok, ms, opts.Trigger(), opts.KeepTarget(), opts.minSummarizedMessages)
  }

  method PlanCompaction(tok: Message -> nat, messages: seq<Message>, opts: Options) returns (plan: Plan)
    ensures plan == PlanOf(tok, messages, opts)
  {
    plan := PlanThresholds(tok, messages, opts.Trigger(), opts.KeepTarget(), opts.minSummarizedMessages);
  }

  method PlanThresholds(
    tok: Message -> nat, messages: seq<Message>, trigger: real, keepTarget: real, minSummarized: nat)
    returns (plan: Plan)
    ensures plan == PlanWithin(tok, messages, trigger, keepTarget, minSummarized)
  {
    if |messages| == 0 {
      return Noop;
    }
    var total := EstimateMessagesTokens(tok, messages);
    if total as real <= trigger {
      return Noop;
    }
    var kept := 0;
    var cut := |messages|;
    while cut > 0
      invariant 0 <= cut <= |messages|
      invariant kept == Sum(tok, messages[cut..])
      invariant cut < |messages| ==>
                  TokenCut(tok, messages, |messages| - 1, keepTarget) == TokenCut(tok, messages, cut, keepTarget)
      invariant cut < |messages| ==> (kept as real) < keepTarget
    {
      cut := cut - 1;
      SumFrom(tok, messages, cut);
      kept := kept + tok(messages[cut]);
      if kept as real >= keepTarget {
        break;
      }
    }
    var boundaryIndex := cut;
    while boundaryIndex > 0 && messages[boundaryIndex].role != User
      invariant 0 <= boundaryIndex <= cut
      invariant SnapToUser(messages, cut) == SnapToUser(messages, boundaryIndex)
    {
      boundaryIndex := boundaryIndex - 1;
    }
    if boundaryIndex < minSummarized {
      return Noop;
    }
    return Compact(boundaryIndex, messages[boundaryIndex].timestamp);
  }

  lemma {:induction false} SumFrom(tok: Message -> nat, ms: seq<Message>, i: nat)
    requires i < |ms|
    ensures Sum(tok, ms[i..]) == tok(ms[i]) + Sum(tok, ms[i + 1..])
  {
    assert ms[i..][1..] == ms[i + 1..];
  }

  method EstimateMessagesTokens(tok: Message -> nat, messages: seq<Message>) returns (total: nat)
    ensures total == Sum(tok, messages)
  {
    total := 0;
    for i := 0 to |messages|
      invariant total == Sum(tok, messages[..i])
    {
      SumConcat(tok, messages[..i], [messages[i]]);
      assert Sum(tok, [messages[i]]) == tok(messages[i]) + Sum(tok, []);
      assert messages[..i + 1] == messages[..i] + [messages[i]];
      total := total + tok(messages[i]);
    }
    assert messages[..|messages|] == messages;
  }

  /**
   * A plan that folds something folds at least the minimum, starts its tail on the last user message at or
   * before the token cut, keeps at least the target, and splits no tool group.
   */
  lemma PlanIsSafe(tok: Message -> nat, ms: seq<Message>, trigger: real, keepTarget: real, minSummarized: nat)
    returns (cut: nat)
    requires PlanWithin(tok, ms, trigger, keepTarget, minSummarized).Compact?
    requires PlanWithin(tok, ms, trigger, keepTarget, minSummarized).boundaryIndex > 0
    ensures var k := PlanWithin(tok, ms, trigger, keepTarget, minSummarized).boundaryIndex;
            && minSummarized <= k <= cut < |ms|
            && ms[k].role == User
            && (forall j :: k < j <= cut ==> ms[j].role != User)
            && Sum(tok, ms[k..]) as real >= Sum(tok, ms[cut..]) as real >= keepTarget
            && (forall j :: cut < j < |ms| ==> (Sum(tok, ms[j..]) as real) < keepTarget)
            && Sum(tok, ms) as real > trigger
            && (Paired(ms) ==> Paired(ms[..k]) && Paired(ms[k..]))
  {
    cut := TokenCut(tok, ms, |ms| - 1, keepTarget);
    var k := SnapToUser(ms, cut);
    SumSuffix(tok, ms, k, cut);
    if Paired(ms) {
      PairedCut(ms, k);
    }
  }

  /** `cut` is the latest position from which at least `target` tokens are kept, or the first if none is. */
  ghost predicate IsTokenCut(tok: Message -> nat, ms: seq<Message>, target: real, cut: nat) {
    && cut < |ms|
    && (cut > 0 ==> Sum(tok, ms[cut..]) as real >= target)
    && forall i :: cut < i < |ms| ==> (Sum(tok, ms[i..]) as real) < target
  }

  /** `k` is the position of the latest user message at or before `cut`, or the first if none is there. */
  ghost predicate IsTurnAt(ms: seq<Message>, cut: nat, k: nat) {
    && k <= cut < |ms|
    && (k > 0 ==> ms[k].role == User)
    && forall i :: k < i <= cut ==> ms[i].role != User
  }

  lemma {:induction false} PlanFiresWithin(
    tok: Message -> nat, ms: seq<Message>, trigger: real, keepTarget: real, minSummarized: nat)
    returns (cut: nat, k: nat)
    ensures ms != [] ==> IsTokenCut(tok, ms, keepTarget, cut) && IsTurnAt(ms, cut, k)
    ensures PlanWithin(tok, ms, trigger, keepTarget, minSummarized) ==
              if ms != [] && Sum(tok, ms) as real > trigger && k >= minSummarized
              then Compact(k, ms[k].timestamp) else Noop
  {
    hide Sum;
    cut, k := 0, 0;
    if ms != [] {
      cut := TokenCut(tok, ms, |ms| - 1, keepTarget);
      k := SnapToUser(ms, cut);
    }
  }

  /**
   * When a plan fires: exactly when there are messages, they are over the trigger, and at least the minimum
   * stand before the latest user turn from which enough is kept. It then cuts there, and else does nothing.
   */
  lemma {:induction false} PlanFiresWhen(tok: Message -> nat, ms: seq<Message>, opts: Options)
    returns (cut: nat, k: nat)
    ensures ms != [] ==> IsTokenCut(tok, ms, opts.keepRatio * opts.budget as real, cut) && IsTurnAt(ms, cut, k)
    ensures PlanOf(tok, ms, opts) ==
              if && ms != []
                 && Sum(tok, ms) as real > opts.triggerRatio * opts.budget as real
                 && k >= opts.minSummarizedMessages
              then Compact(k, ms[k].timestamp) else Noop
  {
    hide Sum, PlanWithin, IsTokenCut, IsTurnAt;
    cut, k := PlanFiresWithin(tok, ms, opts.Trigger(), opts.KeepTarget(), opts.minSummarizedMessages);
  }

  // ------------------------------------------------------------------ operator turns a fold keeps

  datatype RetainedTurn = RetainedTurn(text: string, ts: int)

  datatype Selection = Selection(kept: seq<RetainedTurn>, elided: bool)

  const RETAINED_OPERATOR_MAX_TOKENS := 20000
  const OPERATOR_LINE_OVERHEAD := 4

  /** Characters a line `[ts] text` and its newline take, for text as it stands. */
  function LineChars(t: RetainedTurn): nat {
    |t.text| + T.ISO_LENGTH + OPERATOR_LINE_OVERHEAD
  }

  function Escaped(t: RetainedTurn): RetainedTurn {
    t.(text := T.EscapeClosingTags(t.text))
  }

  function LineCost(t: RetainedTurn): nat {
    LineChars(Escaped(t))
  }

  function EscapedAll(ts: seq<RetainedTurn>): (r: seq<RetainedTurn>)
    ensures |r| == |ts| && forall i :: 0 <= i < |ts| ==> r[i] == Escaped(ts[i])
  {
    if ts == [] then [] else [Escaped(ts[0])] + EscapedAll(ts[1..])
  }

  /** The turns a boundary folds away: strictly before it and not blank. */
  function Folded(turns: seq<RetainedTurn>, boundary: int): seq<RetainedTurn> {
    if turns == [] then []
    else if turns[0].ts < boundary && T.Trim(turns[0].text) != [] then [turns[0]] + Folded(turns[1..], boundary)
    else Folded(turns[1..], boundary)
  }

  lemma {:induction false} FoldedConcat(a: seq<RetainedTurn>, b: seq<RetainedTurn>, boundary: int)
    ensures Folded(a + b, boundary) == Folded(a, boundary) + Folded(b, boundary)
  {
    if a == [] {
      assert a + b == b;
    } else {
      assert (a + b)[1..] == a[1..] + b;
      FoldedConcat(a[1..], b, boundary);
    }
  }

  /** The first suffix, starting the search at `i`, whose rendered lines fit `budgetChars`. */
  function FirstFit(folded: seq<RetainedTurn>, i: nat, budgetChars: nat): (k: nat)
    requires i <= |folded|
    ensures i <= k <= |folded|
    ensures Sum(LineCost, folded[k..]) <= budgetChars
    ensures forall j :: i <= j < k ==> Sum(LineCost, folded[j..]) > budgetChars
    decreases |folded| - i
  {
    if Sum(LineCost, folded[i..]) <= budgetChars then i
    else assert folded[|folded|..] == []; FirstFit(folded, i + 1, budgetChars)
  }

  /** The newest turn cut to the room its line has, when it does not fit by itself. */
  function Oversized(t: RetainedTurn, budgetChars: nat): RetainedTurn {
    RetainedTurn(
      T.Truncate(T.EscapeClosingTags(t.text), Max(0, budgetChars - T.ISO_LENGTH - OPERATOR_LINE_OVERHEAD - 1)),
      t.ts)
  }

  /** The longest suffix of the folded turns that fits, or the newest turn cut to fit when none does. */
  function SelectFrom(folded: seq<RetainedTurn>, maxTokens: nat): Selection {
    var k := FirstFit(folded, 0, maxTokens * 4);
    if folded != [] && k == |folded| then
      Selection([Oversized(folded[|folded| - 1], maxTokens * 4)], |folded| > 1)
    else
      Selection(EscapedAll(folded[k..]), k > 0)
  }

  function Select(turns: seq<RetainedTurn>, boundary: int): Selection {
    SelectFrom(Folded(turns, boundary), RETAINED_OPERATOR_MAX_TOKENS)
  }

  lemma FirstFitIs(folded: seq<RetainedTurn>, i: nat, budgetChars: nat)
    requires i <= |folded|
    requires Sum(LineCost, folded[i..]) <= budgetChars
    requires i > 0 ==> Sum(LineCost, folded[i - 1..]) > budgetChars
    ensures FirstFit(folded, 0, budgetChars) == i
  {
    var k := FirstFit(folded, 0, budgetChars);
    if k < i {
      SumSuffix(LineCost, folded, k, i - 1);
    }
  }

  method SelectRetainedOperatorMessages(turns: seq<RetainedTurn>, boundaryTs: int, maxTokens: nat)
    returns (selection: Selection)
    ensures selection == SelectFrom(Folded(turns, boundaryTs), maxTokens)
  {
    var folded := Folded(turns, boundaryTs);
    var budgetChars := maxTokens * 4;
    var kept: seq<RetainedTurn> := [];
    var usedChars := 0;
    var elided := false;
    var i := |folded|;
    while i > 0
      invariant 0 <= i <= |folded|
      invariant !elided
      invariant kept == EscapedAll(folded[i..])
      invariant usedChars == Sum(LineCost, folded[i..]) <= budgetChars
    {
      var t := folded[i - 1];
      assert folded[i - 1..] == [t] + folded[i..];
      var escaped := T.EscapeClosingTags(t.text);
      var cost := |escaped| + T.ISO_LENGTH + OPERATOR_LINE_OVERHEAD;
      if |kept| > 0 && usedChars + cost > budgetChars {
        elided := true;
        FirstFitIs(folded, i, budgetChars);
        break;
      }
      if cost > budgetChars {
        var room := Max(0, budgetChars - T.ISO_LENGTH - OPERATOR_LINE_OVERHEAD - 1);
        kept := [RetainedTurn(T.Truncate(escaped, room), t.ts)] + kept;
        if i - 1 > 0 {
          elided := true;
        }
        FirstFitIs(folded, i, budgetChars);
        return Selection(kept, elided);
      }
      kept := [RetainedTurn(escaped, t.ts)] + kept;
      usedChars := usedChars + cost;
      i := i - 1;
    }
    if !elided {
      FirstFitIs(folded, 0, budgetChars);
    }
    return Selection(kept, elided);
  }

  /**
   * The retained lines, as rendered with a newline each, stay within the cap, except that nothing shorter than one
   * timestamped character can be shown: exactly when a turn is folded and the cap holds no line.
   */
  lemma {:induction false} RetentionIsBounded(folded: seq<RetainedTurn>, maxTokens: nat)
    requires forall i :: 0 <= i < |folded| ==> folded[i].text != []
    ensures T.PartChars(OperatorLines(SelectFrom(folded, maxTokens).kept)) <= maxTokens * 4
       <==> folded == [] || maxTokens * 4 > T.ISO_LENGTH + OPERATOR_LINE_OVERHEAD
  {
    hide SelectFrom;
    LinesCost(SelectFrom(folded, maxTokens).kept);
    CostIsBounded(folded, maxTokens);
  }

  lemma {:induction false} CostIsBounded(folded: seq<RetainedTurn>, maxTokens: nat)
    requires forall i :: 0 <= i < |folded| ==> folded[i].text != []
    ensures Sum(LineCost, SelectFrom(folded, maxTokens).kept) <= maxTokens * 4
       <==> folded == [] || maxTokens * 4 > T.ISO_LENGTH + OPERATOR_LINE_OVERHEAD
  {
    var k := FirstFit(folded, 0, maxTokens * 4);
    if folded != [] {
      var last := folded[|folded| - 1];
      T.EscapeGrowth(last.text);
      if k == |folded| {
        assert folded[|folded| - 1..] == [last];
        assert Sum(LineCost, [last]) == LineCost(last) + Sum(LineCost, []);
        RenderedCostOfOversized(last, maxTokens * 4);
      } else {
        RenderedCost(folded[k..]);
        SumSuffix(LineCost, folded, k, |folded| - 1);
        assert folded[|folded| - 1..] == [last];
        assert Sum(LineCost, [last]) == LineCost(last) + Sum(LineCost, []);
      }
    }
  }

  lemma {:induction false} RenderedCostOfOversized(t: RetainedTurn, budgetChars: nat)
    requires LineCost(t) > budgetChars && t.text != []
    ensures LineCost(Oversized(t, budgetChars)) == Max(budgetChars, T.ISO_LENGTH + OPERATOR_LINE_OVERHEAD + 1)
    ensures Sum(LineCost, [Oversized(t, budgetChars)]) == LineCost(Oversized(t, budgetChars))
  {
    var escaped := T.EscapeClosingTags(t.text);
    var room := Max(0, budgetChars - T.ISO_LENGTH - OPERATOR_LINE_OVERHEAD - 1);
    T.EscapeGrowth(t.text);
    T.EscapeRemovesClosingForms(t.text);
    T.TruncateKeepsEscaped(escaped, room);
    T.EscapeFixpoint(T.Truncate(escaped, room));
    assert Sum(LineCost, [Oversized(t, budgetChars)]) == LineCost(Oversized(t, budgetChars)) + Sum(LineCost, []);
  }

  /** The oversized turn's line, as rendered and with its newline, fills the cap, or shows one character. */
  lemma {:induction false} OversizedLineFills(t: RetainedTurn, budgetChars: nat)
    requires LineCost(t) > budgetChars && t.text != []
    ensures |OperatorLine(Oversized(t, budgetChars))| + 1 == Max(budgetChars, T.ISO_LENGTH + OPERATOR_LINE_OVERHEAD + 1)
  {
    RenderedCostOfOversized(t, budgetChars);
  }

  /** Escaping what is already escaped costs nothing more. */
  lemma {:induction false} RenderedCost(ts: seq<RetainedTurn>)
    ensures Sum(LineCost, EscapedAll(ts)) == Sum(LineCost, ts)
  {
    if ts != [] {
      T.EscapeIdempotent(ts[0].text);
      RenderedCost(ts[1..]);
      assert EscapedAll(ts)[1..] == EscapedAll(ts[1..]);
    }
  }

  /**
   * What becomes of the folded turn at position `i`: its line is kept verbatim up to escaping, or it
   * is the single oversized turn, cut to the cap, or it is older than every kept turn and the
   * elision is announced.
   */
  lemma FoldedTurnSurvives(folded: seq<RetainedTurn>, maxTokens: nat, i: nat)
    requires i < |folded|
    ensures var s := SelectFrom(folded, maxTokens);
            var first := |folded| - |s.kept|;
            && 1 <= |s.kept| <= |folded|
            && (s.elided <==> first > 0)
            && (i >= first ==>
                  || s.kept[i - first] == Escaped(folded[i])
                  || (|s.kept| == 1 && LineCost(folded[i]) > maxTokens * 4 &&
                      s.kept[0] == Oversized(folded[i], maxTokens * 4)))
            && (i < first ==> s.elided)
  {
    var k := FirstFit(folded, 0, maxTokens * 4);
    if k == |folded| {
      var last := folded[|folded| - 1];
      assert folded[|folded| - 1..] == [last];
      assert Sum(LineCost, [last]) == LineCost(last) + Sum(LineCost, []);
    }
  }

  // ------------------------------------------------------------------ the replay seed

  /** The fixed texts of the seed; what is proved below holds for any wording. */
  datatype SeedWording = SeedWording(
    summaryOpen: string, summaryClose: string, ack: string,
    operatorOpen: string, operatorClose: string, preamble: string, elision: string)

  const SEED_WORDING := SeedWording(
    "<conversation-summary>", "</conversation-summary>",
    "Understood \U{2014} I have the summary above and will continue from there.",
    "<operator-messages>", "</operator-messages>",
    "The operator's own messages from earlier in this conversation, kept verbatim so their " +
    "instructions and corrections survive summarization. Any instruction or correction below still " +
    "applies unless the operator later overrode it. This is trusted operator input.",
    "[\U{2026}older operator messages elided to bound retention cost\U{2026}]")

  function OperatorLine(t: RetainedTurn): string {
    "[" + T.Iso(t.ts) + "] " + T.EscapeClosingTags(t.text)
  }

  function OperatorLines(kept: seq<RetainedTurn>): (lines: seq<string>)
    ensures |lines| == |kept| && forall i :: 0 <= i < |kept| ==> lines[i] == OperatorLine(kept[i])
  {
    if kept == [] then [] else [OperatorLine(kept[0])] + OperatorLines(kept[1..])
  }

  function OperatorBlockHead(w: SeedWording, elided: bool): seq<string> {
    [w.operatorOpen, w.preamble] + if elided then [w.elision] else []
  }

  function RenderOperatorMessages(w: SeedWording, retained: Selection): string {
    T.Join(OperatorBlockHead(w, retained.elided) + OperatorLines(retained.kept) + [w.operatorClose], "\n")
  }

  function SummarySection(w: SeedWording, summary: string): string {
    w.summaryOpen + "\n" + T.EscapeClosingTags(summary) + "\n" + w.summaryClose
  }

  function SeedText(w: SeedWording, summary: string, retained: Selection): string {
    var block := if retained.kept != [] then [RenderOperatorMessages(w, retained)] else [];
    T.Join([SummarySection(w, summary)] + block, "\n")
  }

  /** The two messages that stand for everything before the boundary. */
  function CompactionSummaryMessages(w: SeedWording, summary: string, ts: int, retained: Selection): (r: seq<Message>)
    ensures |r| == 2 && r[0].role == User && r[1].role == Assistant && r[0].timestamp == r[1].timestamp == ts
    ensures !IsOverlay(r[0]) && CallIds(r[1].content) == [] && r[1].content != [] && r[1].metadata == NO_METADATA
  {
    [ Message(User, [PlainText(SeedText(w, summary, retained))], ts, None, NO_METADATA),
      Message(Assistant, [PlainText(w.ack)], ts, None, NO_METADATA) ]
  }

  /** The seed is two messages and no call. */
  lemma {:induction false} SeedPairs(w: SeedWording, summary: string, ts: int, retained: Selection)
    ensures Paired(CompactionSummaryMessages(w, summary, ts, retained))
  {
    hide SeedText;
    var seed := CompactionSummaryMessages(w, summary, ts, retained);
    assert seed[1..][1..] == [];
    PairedUnit(seed[1..], 1);
    PairedUnit(seed, 1);
  }

  lemma {:induction false} LinesCost(kept: seq<RetainedTurn>)
    ensures T.PartChars(OperatorLines(kept)) == Sum(LineCost, kept)
  {
    if kept != [] {
      LinesCost(kept[1..]);
      assert OperatorLines(kept)[1..] == OperatorLines(kept[1..]);
    }
  }

  /** The characters of the block around its lines: its tags, its preamble and the elision note. */
  function FrameChars(w: SeedWording, elided: bool): nat {
    T.PartChars(OperatorBlockHead(w, elided)) + |w.operatorClose|
  }

  /** The cost a line is selected by is what it takes in the rendered block, which is its frame and its lines. */
  lemma {:induction false} RenderedLength(w: SeedWording, retained: Selection)
    ensures |RenderOperatorMessages(w, retained)| == FrameChars(w, retained.elided) + Sum(LineCost, retained.kept)
  {
    var head, lines := OperatorBlockHead(w, retained.elided), OperatorLines(retained.kept);
    hide OperatorBlockHead, OperatorLines;
    T.JoinLength(head + lines + [w.operatorClose], "\n");
    T.PartCharsConcat(head + lines, [w.operatorClose]);
    T.PartCharsConcat(head, lines);
    LinesCost(retained.kept);
    assert [w.operatorClose][1..] == [];
    assert T.PartChars([w.operatorClose]) == |w.operatorClose| + 1;
  }

  lemma {:induction false} FrameIsPositive(w: SeedWording, elided: bool)
    ensures FrameChars(w, elided) > 0
  {
  }

  lemma {:induction false} LastCost(folded: seq<RetainedTurn>)
    requires folded != []
    ensures Sum(LineCost, folded[|folded| - 1..]) == LineCost(folded[|folded| - 1])
  {
    var last := [folded[|folded| - 1]];
    assert folded[|folded| - 1..] == last && last[1..] == [];
    assert Sum(LineCost, last) == LineCost(last[0]) + Sum(LineCost, last[1..]);
  }

  /** No turn is kept whole exactly when the newest line is over by itself. */
  lemma {:induction false} NoneFits(folded: seq<RetainedTurn>, budgetChars: nat)
    requires folded != []
    ensures FirstFit(folded, 0, budgetChars) == |folded| <==> LineCost(folded[|folded| - 1]) > budgetChars
  {
    var k := FirstFit(folded, 0, budgetChars);
    LastCost(folded);
    if k < |folded| {
      SumSuffix(LineCost, folded, k, |folded| - 1);
    }
  }

  /** What is kept costs what the turns kept whole cost, or fills the cap. */
  lemma {:induction false} KeptCost(folded: seq<RetainedTurn>, maxTokens: nat)
    requires folded != [] && folded[|folded| - 1].text != []
    ensures var k, kept := FirstFit(folded, 0, maxTokens * 4), SelectFrom(folded, maxTokens).kept;
            if k < |folded| then Sum(LineCost, kept) == Sum(LineCost, folded[k..])
            else Sum(LineCost, kept) >= maxTokens * 4
  {
    var k := FirstFit(folded, 0, maxTokens * 4);
    if k < |folded| {
      RenderedCost(folded[k..]);
    } else {
      NoneFits(folded, maxTokens * 4);
      RenderedCostOfOversized(folded[|folded| - 1], maxTokens * 4);
    }
  }

  /** The turns from `i` on are the longest suffix within the cap, and leave less of it than the frame needs. */
  ghost predicate Crowds(w: SeedWording, folded: seq<RetainedTurn>, i: nat, cap: int)
    requires i < |folded|
  {
    && (i > 0 ==> Sum(LineCost, folded[i - 1..]) > cap)
    && cap - FrameChars(w, i > 0) < Sum(LineCost, folded[i..]) <= cap
  }

  lemma {:induction false} PassesWhereKept(w: SeedWording, folded: seq<RetainedTurn>, maxTokens: nat)
    requires folded != [] && folded[|folded| - 1].text != []
    ensures var k := FirstFit(folded, 0, maxTokens * 4);
            |RenderOperatorMessages(w, SelectFrom(folded, maxTokens))| > maxTokens * 4 <==>
              k == |folded| || Crowds(w, folded, k, maxTokens * 4)
  {
    var s := SelectFrom(folded, maxTokens);
    RenderedLength(w, s);
    FrameIsPositive(w, s.elided);
    KeptCost(folded, maxTokens);
    hide RenderOperatorMessages, FrameChars, Sum, LineCost, EscapedAll;
  }

  /**
   * When the rendered block as a whole passes the cap, in terms of the folded turns and the cap alone:
   * when the newest turn's line is over by itself, or when the longest suffix that fits leaves less than
   * the tags and the preamble around it need, with the elision note if anything is left out.
   */
  lemma {:induction false} BlockPassesCap(w: SeedWording, folded: seq<RetainedTurn>, maxTokens: nat)
    requires folded != [] && forall i :: 0 <= i < |folded| ==> folded[i].text != []
    ensures var cap := maxTokens * 4;
            |RenderOperatorMessages(w, SelectFrom(folded, maxTokens))| > cap <==>
              || LineCost(folded[|folded| - 1]) > cap
              || exists i :: 0 <= i < |folded| && Crowds(w, folded, i, cap)
  {
    hide RenderOperatorMessages, SelectFrom, FrameChars, LineCost;
    var cap, k := maxTokens * 4, FirstFit(folded, 0, maxTokens * 4);
    PassesWhereKept(w, folded, maxTokens);
    NoneFits(folded, cap);
    forall i | 0 <= i < |folded| && Crowds(w, folded, i, cap) ensures i == k {
      FirstFitIs(folded, i, cap);
    }
  }

  /** And by how much: where the cap holds a line, by no more than the frame. */
  lemma {:induction false} BlockIsBounded(w: SeedWording, folded: seq<RetainedTurn>, maxTokens: nat)
    requires folded != [] && forall i :: 0 <= i < |folded| ==> folded[i].text != []
    ensures var s := SelectFrom(folded, maxTokens);
            |RenderOperatorMessages(w, s)| <= maxTokens * 4 + FrameChars(w, s.elided) <==>
              maxTokens * 4 > T.ISO_LENGTH + OPERATOR_LINE_OVERHEAD
  {
    CostIsBounded(folded, maxTokens);
    RenderedLength(w, SelectFrom(folded, maxTokens));
  }

  function Letters(n: nat): (s: string)
    ensures |s| == n && forall i :: 0 <= i < n ==> s[i] == 'a'
  {
    seq(n, _ => 'a')
  }

  lemma {:induction false} LettersStay(n: nat)
    ensures T.EscapeClosingTags(Letters(n)) == Letters(n)
  {
    T.EscapeWithoutForms(Letters(n));
  }

  /** One turn that fills the cap to the last character: its block is over the cap, in any wording. */
  lemma {:induction false} FullCapIsPassed(w: SeedWording, ts: int)
    ensures var cap := RETAINED_OPERATOR_MAX_TOKENS * 4;
            var turn := RetainedTurn(Letters(cap - T.ISO_LENGTH - OPERATOR_LINE_OVERHEAD), ts);
            var s := SelectFrom([turn], RETAINED_OPERATOR_MAX_TOKENS);
            && s == Selection([turn], false)
            && |RenderOperatorMessages(w, s)| > cap
  {
    var cap := RETAINED_OPERATOR_MAX_TOKENS * 4;
    var n := cap - T.ISO_LENGTH - OPERATOR_LINE_OVERHEAD;
    var turn := RetainedTurn(Letters(n), ts);
    LettersStay(n);
    hide T.EscapeClosingTags, RenderOperatorMessages;
    var folded := [turn];
    assert folded[1..] == [] && folded[0..] == folded;
    assert Sum(LineCost, folded) == LineCost(turn) + Sum(LineCost, folded[1..]) == cap;
    assert FirstFit(folded, 0, cap) == 0;
    assert EscapedAll(folded) == [Escaped(turn)] + EscapedAll(folded[1..]) == [turn];
    RenderedLength(w, Selection(folded, false));
  }

  /** A cap of seven tokens holds a time and its brackets and no text, and the line shown passes it by one. */
  lemma {:induction false} SmallCapIsPassed(ts: int)
    ensures Sum(LineCost, SelectFrom([RetainedTurn("a", ts)], 7).kept) == 29
  {
    var t := RetainedTurn("a", ts);
    assert Letters(1) == "a";
    LettersStay(1);
    hide T.EscapeClosingTags;
    var folded := [t];
    assert folded[1..] == [] && folded[0..] == folded;
    assert Sum(LineCost, folded) == LineCost(t) + Sum(LineCost, folded[1..]) == 29;
    assert FirstFit(folded, 0, 28) == 1;
    RenderedCostOfOversized(t, 28);
  }

  /** The seed's text carries the line of every retained turn. */
  lemma SeedCarriesLine(w: SeedWording, summary: string, retained: Selection, i: nat)
    requires i < |retained.kept|
    ensures T.Contains(SeedText(w, summary, retained), OperatorLine(retained.kept[i]))
  {
    hide OperatorLine, SummarySection, OperatorBlockHead, OperatorLines;
    var head := OperatorBlockHead(w, retained.elided);
    var lines := head + OperatorLines(retained.kept) + [w.operatorClose];
    assert lines[|head| + i] == OperatorLine(retained.kept[i]);
    var p, q := T.JoinContains(lines, "\n", |head| + i);
    var block := RenderOperatorMessages(w, retained);
    var sections := [SummarySection(w, summary)] + [block];
    var u, v := T.JoinContains(sections, "\n", 1);
    SplitText(SeedText(w, summary, retained), u, block, v, p, OperatorLine(retained.kept[i]), q);
  }

  /** Where turns were elided and any is shown, the seed's text says so. */
  lemma {:induction false} SeedTellsElision(w: SeedWording, summary: string, retained: Selection)
    requires retained.elided && retained.kept != []
    ensures T.Contains(SeedText(w, summary, retained), w.elision)
  {
    var head := OperatorBlockHead(w, true);
    assert head == [w.operatorOpen, w.preamble, w.elision];
    hide OperatorLine, SummarySection, OperatorBlockHead, OperatorLines;
    var lines := head + OperatorLines(retained.kept) + [w.operatorClose];
    assert lines[2] == w.elision;
    var p, q := T.JoinContains(lines, "\n", 2);
    var block := RenderOperatorMessages(w, retained);
    var u, v := T.JoinContains([SummarySection(w, summary)] + [block], "\n", 1);
    SplitText(SeedText(w, summary, retained), u, block, v, p, w.elision, q);
  }

  lemma SplitText(text: string, u: string, block: string, v: string, p: string, line: string, q: string)
    requires text == u + block + v && block == p + line + q
    ensures T.Contains(text, line)
  {
    assert text == (u + p) + line + (q + v);
    assert T.OccursAt(text, line, |u + p|);
  }

  /** A compacted history and the event that records the fold, if one was made. */
  datatype Compacted = Compacted(messages: seq<Message>, event: Option<CompactionEvent>)

  /** Plans, folds what is before the boundary into `summary`, and records it; no plan or no summary changes nothing. */
  function CompactConversationMessages(
    w: SeedWording, tok: Message -> nat, messages: seq<Message>, opts: Options,
    turns: seq<RetainedTurn>, now: int, summary: Option<string>): Compacted
  {
    match PlanOf(tok, messages, opts)
    case Compact(k, ts) =>
      if summary.None? then Compacted(messages, None)
      else Compacted(
          CompactionSummaryMessages(w, summary.value, ts, Select(turns, ts)) + messages[k..],
          Some(HistoryCompacted(now, summary.value, ts, k)))
    case Noop => Compacted(messages, None)
  }

  // ------------------------------------------------------------------ the transcript bound

  datatype TranscriptBlock = TranscriptBlock(role: string, body: string)

  const BLOCK_WRAP_CHARS := 8

  function BlockWrap(b: TranscriptBlock): nat {
    2 * |b.role| + BLOCK_WRAP_CHARS
  }

  function BlockChars(b: TranscriptBlock): nat {
    BlockWrap(b) + |b.body|
  }

  function CutBlock(b: TranscriptBlock, budgetChars: nat): TranscriptBlock {
    b.(body := T.Truncate(b.body, Max(0, budgetChars - BlockWrap(b))))
  }

  /** `kept` is the longest suffix of `blocks` that fits, or the newest block alone, cut, when it does not fit. */
  ghost predicate Bounded(blocks: seq<TranscriptBlock>, budgetChars: nat, kept: seq<TranscriptBlock>) {
    && |kept| <= |blocks|
    && (blocks != [] ==> kept != [])
    && var d := |blocks| - |kept|;
    && (d > 0 ==> Sum(BlockChars, blocks[d - 1..]) > budgetChars)
    && (|| (kept == blocks[d..] && Sum(BlockChars, kept) <= budgetChars)
        || (|kept| == 1 && BlockChars(blocks[d]) > budgetChars && kept[0] == CutBlock(blocks[d], budgetChars)))
  }

  lemma {:induction false} BlocksFrom(blocks: seq<TranscriptBlock>, i: nat)
    requires i < |blocks|
    ensures blocks[i..] == [blocks[i]] + blocks[i + 1..]
    ensures Sum(BlockChars, blocks[i..]) == BlockChars(blocks[i]) + Sum(BlockChars, blocks[i + 1..])
  {
    assert blocks[i..][1..] == blocks[i + 1..];
  }

  /** A suffix that fits, when what is one longer does not. */
  lemma {:induction false} SuffixIsBounded(blocks: seq<TranscriptBlock>, budgetChars: nat, i: nat)
    requires i <= |blocks| && (blocks != [] ==> i < |blocks|)
    requires Sum(BlockChars, blocks[i..]) <= budgetChars
    requires i > 0 ==> Sum(BlockChars, blocks[i - 1..]) > budgetChars
    ensures Bounded(blocks, budgetChars, blocks[i..])
  {
    hide Sum, T.Truncate;
  }

  lemma {:induction false} NewestIsOver(blocks: seq<TranscriptBlock>, budgetChars: nat)
    requires |blocks| > 1 && BlockChars(blocks[|blocks| - 1]) > budgetChars
    ensures Sum(BlockChars, blocks[|blocks| - 2..]) > budgetChars
  {
    hide BlockChars;
    BlocksFrom(blocks, |blocks| - 1);
    BlocksFrom(blocks, |blocks| - 2);
  }

  /** The newest block cut, when it does not fit by itself. */
  lemma {:induction false} CutIsBounded(blocks: seq<TranscriptBlock>, budgetChars: nat)
    requires blocks != [] && BlockChars(blocks[|blocks| - 1]) > budgetChars
    ensures Bounded(blocks, budgetChars, [CutBlock(blocks[|blocks| - 1], budgetChars)])
  {
    hide Sum, BlockChars, CutBlock;
    if |blocks| > 1 {
      NewestIsOver(blocks, budgetChars);
    }
  }

  method BoundBlocks(blocks: seq<TranscriptBlock>, budgetTokens: nat)
    returns (kept: seq<TranscriptBlock>, elided: bool)
    ensures Bounded(blocks, budgetTokens * 4, kept)
    ensures elided <==> |kept| < |blocks|
  {
    assert Sum(BlockChars, []) == 0;
    hide Sum, T.Truncate, Bounded;
    var budgetChars := budgetTokens * 4;
    kept := [];
    var usedChars := 0;
    elided := false;
    var i := |blocks|;
    while i > 0
      invariant 0 <= i <= |blocks|
      invariant !elided
      invariant kept == blocks[i..] && usedChars == Sum(BlockChars, kept)
      invariant usedChars <= budgetChars
    {
      var b := blocks[i - 1];
      BlocksFrom(blocks, i - 1);
      var blockChars := BlockChars(b);
      if |kept| > 0 && usedChars + blockChars > budgetChars {
        elided := true;
        SuffixIsBounded(blocks, budgetChars, i);
        return;
      }
      if blockChars > budgetChars {
        CutIsBounded(blocks, budgetChars);
        b := b.(body := T.Truncate(b.body, Max(0, budgetChars - BlockWrap(b))));
        blockChars := BlockChars(b);
        if i - 1 > 0 {
          elided := true;
        }
        kept := [b] + kept;
        assert kept == [b];
        return;
      }
      kept := [b] + kept;
      usedChars := usedChars + blockChars;
      i := i - 1;
      if usedChars >= budgetChars && i > 0 {
        elided := true;
        BlocksFrom(blocks, i - 1);
        SuffixIsBounded(blocks, budgetChars, i);
        return;
      }
    }
    assert blocks[0..] == blocks;
    SuffixIsBounded(blocks, budgetChars, 0);
  }

  /**
   * A bounded transcript meets its budget exactly when its newest block fits uncut: a cut block ends
   * in an ellipsis beyond the budget, by exactly one character when the budget covers its wrapper.
   */
  lemma BoundedCost(blocks: seq<TranscriptBlock>, budgetChars: nat, kept: seq<TranscriptBlock>)
    requires Bounded(blocks, budgetChars, kept)
    ensures Sum(BlockChars, kept) <= budgetChars <==> blocks == [] || BlockChars(blocks[|blocks| - 1]) <= budgetChars
    ensures Sum(BlockChars, kept) > budgetChars && BlockWrap(blocks[|blocks| - 1]) <= budgetChars
        ==> Sum(BlockChars, kept) == budgetChars + 1
  {
    if blocks != [] {
      var n := |blocks| - 1;
      var last := blocks[n];
      assert blocks[n..] == [last];
      assert Sum(BlockChars, [last]) == BlockChars(last) + Sum(BlockChars, []);
      if kept == blocks[|blocks| - |kept|..] {
        SumSuffix(BlockChars, blocks, |blocks| - |kept|, n);
      } else {
        var cut := CutBlock(last, budgetChars);
        assert kept == [cut];
        assert Sum(BlockChars, [cut]) == BlockChars(cut) + Sum(BlockChars, []);
      }
    }
  }

  /** A block of text over the budget: what is kept of it passes the budget by one. */
  lemma {:induction false} LongBlockIsOver(role: string, budgetTokens: nat, kept: seq<TranscriptBlock>)
    requires 2 * |role| + BLOCK_WRAP_CHARS <= budgetTokens * 4
    requires Bounded([TranscriptBlock(role, Letters(budgetTokens * 4))], budgetTokens * 4, kept)
    ensures Sum(BlockChars, kept) == budgetTokens * 4 + 1
  {
    BoundedCost([TranscriptBlock(role, Letters(budgetTokens * 4))], budgetTokens * 4, kept);
  }
}
