/** Folding makes progress: how far a history shrinks, and how often it can be folded again. */
module CompactionProgress {
  import opened Prelude
  import opened ConversationTypes
  import opened Compaction

  /** What one fold is given besides the history. */
  datatype Fold = Fold(turns: seq<RetainedTurn>, now: int, summary: string)

  function FoldOnce(w: SeedWording, tok: Message -> nat, opts: Options, ms: seq<Message>, f: Fold): Compacted {
    CompactConversationMessages(w, tok, ms, opts, f.turns, f.now, Some(f.summary))
  }

  /** The history after a run of folds, each of which fires; none when one does not. */
  function FoldAll(
    w: SeedWording, tok: Message -> nat, opts: Options, ms: seq<Message>, folds: seq<Fold>): Option<seq<Message>>
    decreases |folds|
  {
    if folds == [] then Some(ms)
    else
      var out := FoldOnce(w, tok, opts, ms, folds[0]);
      if out.event.None? then None else FoldAll(w, tok, opts, out.messages, folds[1..])
  }

  /**
   * A fold that fires replaces all but the kept tail by two messages: the history gets shorter exactly
   * when more than two were folded, its tool calls stay answered, and at least one message is kept.
   */
  lemma {:induction false} FoldShrinks(w: SeedWording, tok: Message -> nat, opts: Options, ms: seq<Message>, f: Fold)
    requires FoldOnce(w, tok, opts, ms, f).event.Some?
    ensures var out, k := FoldOnce(w, tok, opts, ms, f).messages, PlanOf(tok, ms, opts).boundaryIndex;
            && opts.minSummarizedMessages <= k < |ms|
            && |out| == 2 + |ms| - k >= 3
            && (|out| < |ms| <==> k > 2)
            && out[2..] == ms[k..]
            && (Paired(ms) ==> Paired(out))
  {
    hide CompactionSummaryMessages, SelectFrom;
    var plan := PlanOf(tok, ms, opts);
    var k := plan.boundaryIndex;
    var seed := CompactionSummaryMessages(w, f.summary, plan.boundaryTs, Select(f.turns, plan.boundaryTs));
    assert |seed| == 2;
    if Paired(ms) {
      SeedPairs(w, f.summary, plan.boundaryTs, Select(f.turns, plan.boundaryTs));
      if k > 0 {
        PairedCut(ms, k);
      } else {
        assert ms[0..] == ms;
      }
      PairedConcat(seed, ms[k..]);
    }
  }

  /**
   * Repeated folding ends: with a minimum of m > 2 folded messages every fold takes off at least m - 2,
   * so n folds in a row need a history of at least n * (m - 2) + 3 messages; the default m is 4.
   */
  lemma {:induction false} FoldingEnds(
    w: SeedWording, tok: Message -> nat, opts: Options, ms: seq<Message>, folds: seq<Fold>)
    requires opts.minSummarizedMessages > 2 && folds != []
    requires FoldAll(w, tok, opts, ms, folds).Some?
    ensures |folds| * (opts.minSummarizedMessages - 2) + 3 <= |ms|
    ensures Paired(ms) ==> Paired(FoldAll(w, tok, opts, ms, folds).value)
    decreases |folds|
  {
    hide CompactConversationMessages;
    FoldShrinks(w, tok, opts, ms, folds[0]);
    var out := FoldOnce(w, tok, opts, ms, folds[0]).messages;
    if |folds| > 1 {
      FoldingEnds(w, tok, opts, out, folds[1..]);
    }
    assert |folds| * (opts.minSummarizedMessages - 2) == (|folds| - 1) * (opts.minSummarizedMessages - 2) +
        (opts.minSummarizedMessages - 2);
  }
}
