/**
 * What the message that stands for a folded conversation says: the summary, and after it what the
 * operator said, wherever a fold or a reload puts it.
 */
module SummarySeed {
  import opened Prelude
  import opened ConversationTypes
  import opened Compaction
  import opened Replay
  import opened ReplayStability
  import opened CompactionReplay
  import opened OperatorRetention
  import T = Text

  /** `head` is all of `text`, or what else it says comes in the operator block after it. */
  ghost predicate OpensWith(w: SeedWording, text: string, head: string) {
    && head <= text
    && (text == head ||
        exists block :: text == head + ("\n" + w.operatorOpen + "\n" + w.preamble + "\n" + block + w.operatorClose))
  }

  /** The two messages of a seed: a user turn whose text opens with `head`, and its acknowledgement. */
  ghost predicate SeedOpensWith(w: SeedWording, ms: seq<Message>, ts: int, head: string) {
    && |ms| >= 2
    && ms[0].role == User && ms[0].timestamp == ts && |ms[0].content| == 1 && ms[0].content[0].Text?
    && OpensWith(w, SeedTextOf(ms), head)
    && ms[1] == Message(Assistant, [PlainText(w.ack)], ts, None, NO_METADATA)
  }

  // ------------------------------------------------------------------ the seed's text

  lemma {:induction false} BlockIs(w: SeedWording, retained: Selection) returns (block: string)
    requires retained.kept != []
    ensures RenderOperatorMessages(w, retained) ==
            w.operatorOpen + "\n" + (w.preamble + "\n" + (block + w.operatorClose))
  {
    hide OperatorLines;
    var lines := OperatorBlockHead(w, retained.elided) + OperatorLines(retained.kept) + [w.operatorClose];
    var n := |lines| - 1;
    assert lines[0] == w.operatorOpen && lines[1..][0] == w.preamble;
    assert T.Join(lines, "\n") == lines[0] + "\n" + T.Join(lines[1..], "\n");
    assert T.Join(lines[1..], "\n") == lines[1..][0] + "\n" + T.Join(lines[1..][1..], "\n");
    block := LastOf(lines[1..][1..]);
    assert lines[1..][1..][|lines[1..][1..]| - 1] == lines[n];
  }

  /** A joined text ends in its last part. */
  lemma {:induction false} LastOf(parts: seq<string>) returns (pre: string)
    requires parts != []
    ensures T.Join(parts, "\n") == pre + parts[|parts| - 1]
  {
    if |parts| == 1 {
      pre := [];
    } else {
      pre := LastOf(parts[1..]);
      pre := parts[0] + "\n" + pre;
    }
  }

  lemma {:induction false} SeedTextOpens(w: SeedWording, summary: string, retained: Selection)
    ensures var head := w.summaryOpen + "\n" + T.EscapeClosingTags(summary) + "\n" + w.summaryClose;
            && OpensWith(w, SeedText(w, summary, retained), head)
            && (SeedText(w, summary, retained) == head <==> retained.kept == [])
  {
    hide RenderOperatorMessages, T.EscapeClosingTags;
    var head := w.summaryOpen + "\n" + T.EscapeClosingTags(summary) + "\n" + w.summaryClose;
    if retained.kept != [] {
      var block := BlockIs(w, retained);
      var sections := [head] + [RenderOperatorMessages(w, retained)];
      assert sections[1..] == [RenderOperatorMessages(w, retained)];
      assert T.Join(sections, "\n") == head + "\n" + RenderOperatorMessages(w, retained);
      assert SeedText(w, summary, retained) ==
             head + ("\n" + w.operatorOpen + "\n" + w.preamble + "\n" + block + w.operatorClose);
    }
  }

  /** Nothing is kept of the turns exactly when none of them is both before the boundary and more than blank. */
  lemma {:induction false} NothingKept(turns: seq<RetainedTurn>, boundary: int)
    ensures Select(turns, boundary).kept == [] <==> !SaidIn(turns, boundary)
  {
    hide SelectFrom;
    FoldedIffSaid(turns, boundary);
    var folded := Folded(turns, boundary);
    if folded != [] {
      FoldedTurnSurvives(folded, RETAINED_OPERATOR_MAX_TOKENS, 0);
    } else {
      assert SelectFrom(folded, RETAINED_OPERATOR_MAX_TOKENS).kept == [] by { NothingSelected(); }
    }
  }

  lemma NothingSelected()
    ensures SelectFrom([], RETAINED_OPERATOR_MAX_TOKENS).kept == []
  {
  }

  ghost predicate SaidIn(turns: seq<RetainedTurn>, boundary: int) {
    exists i :: 0 <= i < |turns| && turns[i].ts < boundary && !T.IsBlank(turns[i].text)
  }

  lemma {:induction false} SaidInHead(turns: seq<RetainedTurn>, boundary: int)
    requires turns != []
    ensures SaidIn(turns, boundary) <==>
            (turns[0].ts < boundary && !T.IsBlank(turns[0].text)) || SaidIn(turns[1..], boundary)
  {
    hide T.IsBlank;
    if SaidIn(turns[1..], boundary) {
      var i :| 0 <= i < |turns[1..]| && turns[1..][i].ts < boundary && !T.IsBlank(turns[1..][i].text);
      assert turns[i + 1] == turns[1..][i];
    }
    if SaidIn(turns, boundary) {
      var i :| 0 <= i < |turns| && turns[i].ts < boundary && !T.IsBlank(turns[i].text);
      assert i > 0 ==> turns[1..][i - 1] == turns[i];
    }
  }

  lemma {:induction false} FoldedIffSaid(turns: seq<RetainedTurn>, boundary: int)
    ensures Folded(turns, boundary) != [] <==> SaidIn(turns, boundary)
  {
    if turns != [] {
      FoldedIffSaid(turns[1..], boundary);
      SaidInHead(turns, boundary);
      T.TrimBlank(turns[0].text);
    }
  }

  // ------------------------------------------------------------------ a fold

  /**
   * What a fold that fires returns and records. Its history is the summary between its tags, closing forms
   * escaped, an acknowledgement, and the messages from the boundary on; the first message says no more
   * exactly when none of the operator turns is both before the boundary and more than blank.
   */
  lemma {:induction false} FoldOpensWithSummary(
    w: SeedWording, tok: Message -> nat, ms: seq<Message>, opts: Options, turns: seq<RetainedTurn>, now: int,
    summary: string)
    requires PlanOf(tok, ms, opts).Compact?
    ensures var out := CompactConversationMessages(w, tok, ms, opts, turns, now, Some(summary));
            var k := PlanOf(tok, ms, opts).boundaryIndex;
            var head := w.summaryOpen + "\n" + T.EscapeClosingTags(summary) + "\n" + w.summaryClose;
            && k < |ms|
            && SeedOpensWith(w, out.messages, ms[k].timestamp, head)
            && (SeedTextOf(out.messages) == head <==> !SaidIn(turns, ms[k].timestamp))
            && out.messages[2..] == ms[k..]
            && out.event == Some(HistoryCompacted(now, summary, ms[k].timestamp, k))
  {
    hide SeedText, SelectFrom, T.EscapeClosingTags, OpensWith, SaidIn;
    var ts := PlanOf(tok, ms, opts).boundaryTs;
    SeedTextOpens(w, summary, Select(turns, ts));
    NothingKept(turns, ts);
  }

  // ------------------------------------------------------------------ a reload

  /** Some user message of the log is dated before the boundary and says something. */
  ghost predicate SaidBefore(log: seq<Event>, boundary: int) {
    exists i, j: nat :: 0 <= i < |log| && log[i].ts < boundary && Says(log[i], j)
  }

  lemma {:induction false} TurnsSaidBefore(log: seq<Event>, boundary: int)
    ensures SaidIn(ExtractOperatorTurns(log), boundary) <==> SaidBefore(log, boundary)
  {
    hide UserMessageText;
    if log != [] {
      TurnsSaidBefore(log[1..], boundary);
      SaidHead(log, boundary);
      if log[0].UserMessage? {
        TurnIffSaid(log[0]);
        TextIsTrimmed(log[0]);
        T.TrimBlank(UserMessageText(log[0]));
        if UserMessageText(log[0]) != [] {
          SaidInHead(ExtractOperatorTurns(log), boundary);
        }
      }
    }
  }

  lemma {:induction false} SaidHead(log: seq<Event>, boundary: int)
    requires log != []
    ensures SaidBefore(log, boundary) <==> (log[0].ts < boundary && IsSaid(log[0])) || SaidBefore(log[1..], boundary)
  {
    hide Says;
    if SaidBefore(log[1..], boundary) {
      var i, j: nat :| 0 <= i < |log[1..]| && log[1..][i].ts < boundary && Says(log[1..][i], j);
      assert log[i + 1] == log[1..][i];
    }
    if SaidBefore(log, boundary) {
      var i, j: nat :| 0 <= i < |log| && log[i].ts < boundary && Says(log[i], j);
      assert i > 0 ==> log[1..][i - 1] == log[i];
    }
  }

  /**
   * What the model reads first in a conversation whose latest compaction record is event `i`: its summary
   * between its tags, closing forms escaped. The message says no more exactly when no user message dated
   * before the boundary says anything.
   */
  lemma {:induction false} ReloadOpensWithSummary(w: Wording, log: seq<Event>, i: nat)
    requires i < |log| && log[i].HistoryCompacted? && NoCompaction(log[i + 1..])
    ensures var h, c := Reconstruct(w, log, false), log[i];
            var head := w.seed.summaryOpen + "\n" + T.EscapeClosingTags(c.summary) + "\n" + w.seed.summaryClose;
            && SeedOpensWith(w.seed, h, c.compactedThroughTs, head)
            && (SeedTextOf(h) == head <==> !SaidBefore(log, c.compactedThroughTs))
  {
    hide SeedText, SelectFrom, Build, Alternate, ExtractOperatorTurns, T.EscapeClosingTags;
    hide OpensWith, SaidIn, SaidBefore;
    var c, b := log[i], log[i].compactedThroughTs;
    LatestIs(log, i);
    SeedStands(w, log, c, Build(w, Tail(log, Some(b))));
    SeedTextOpens(w.seed, c.summary, Select(ExtractOperatorTurns(log), b));
    NothingKept(ExtractOperatorTurns(log), b);
    TurnsSaidBefore(log, b);
  }

  lemma {:induction false} LatestIs(log: seq<Event>, i: nat)
    requires i < |log| && log[i].HistoryCompacted? && NoCompaction(log[i + 1..])
    ensures LastCompaction(log) == Some(log[i])
  {
    assert log == log[..i + 1] + log[i + 1..];
    LastCompactionConcat(log[..i + 1], log[i + 1..]);
  }

  // ------------------------------------------------------------------ the operator's lines

  /** The lines of the retained turns stand in the seed's text in the order of the turns. */
  lemma {:induction false} SeedKeepsOrder(w: SeedWording, summary: string, retained: Selection, i: nat, j: nat)
    returns (p: nat, q: nat)
    requires i < j < |retained.kept|
    ensures var text, a, b := SeedText(w, summary, retained), retained.kept[i], retained.kept[j];
            && T.OccursAt(text, OperatorLine(a), p) && T.OccursAt(text, OperatorLine(b), q)
            && p + |OperatorLine(a)| < q
  {
    hide OperatorLine, SummarySection, OperatorBlockHead, OperatorLines;
    var head := OperatorBlockHead(w, retained.elided);
    var lines := head + OperatorLines(retained.kept) + [w.operatorClose];
    var a, b := OperatorLine(retained.kept[i]), OperatorLine(retained.kept[j]);
    assert lines[|head| + i] == a && lines[|head| + j] == b;
    var pre, mid, post := T.JoinContainsBoth(lines, "\n", |head| + i, |head| + j);
    var block := RenderOperatorMessages(w, retained);
    var u, v := T.JoinContains([SummarySection(w, summary)] + [block], "\n", 1);
    p, q := |u + pre|, |u + pre + a + ("\n" + mid)|;
    PlacesIn(SeedText(w, summary, retained), u, pre, a, mid, b, post, v);
  }

  lemma PlacesIn(
    text: string, u: string, pre: string, a: string, mid: string, b: string, post: string, v: string)
    requires text == u + (pre + a + ("\n" + mid) + b + post) + v
    ensures T.OccursAt(text, a, |u + pre|) && T.OccursAt(text, b, |u + pre + a + ("\n" + mid)|)
  {
    assert text == (u + pre) + a + ("\n" + mid + b + post + v);
    assert text == (u + pre + a + ("\n" + mid)) + b + (post + v);
  }
}
