/**
 * A log replays piece by piece: what a turn start opens never reaches back. The split law and what
 * it gives: histories only grow as a log is appended to, and the compacted view depends on the
 * latest compaction alone.
 */
module ReplayStability {
  import opened Prelude
  import opened ConversationTypes
  import opened Compaction
  import opened Replay

  // ------------------------------------------------------------------ the split law

  lemma {:induction false} InnerLengthSplit(a: seq<Event>, b: seq<Event>, runId: string)
    requires b != [] && IsTurnStart(b[0])
    ensures InnerLength(a + b, runId) == InnerLength(a, runId)
  {
    if a == [] {
      assert a + b == b;
    } else {
      assert (a + b)[1..] == a[1..] + b;
      InnerLengthSplit(a[1..], b, runId);
    }
  }

  lemma {:induction false} SpanSplit(w: Wording, a: seq<Event>, b: seq<Event>, runId: string)
    requires b != [] && IsTurnStart(b[0])
    ensures SpanLength(a + b, runId) == SpanLength(a, runId)
    ensures SpanMessages(w, a + b, runId) == SpanMessages(w, a, runId)
  {
    InnerLengthSplit(a, b, runId);
    var n := InnerLength(a, runId);
    assert (a + b)[..n] == a[..n];
    if n < |a| {
      assert (a + b)[n] == a[n];
    } else {
      assert (a + b)[n] == b[0];
    }
  }

  lemma {:induction false} StepSplit(w: Wording, a: seq<Event>, b: seq<Event>)
    requires a != [] && b != [] && IsTurnStart(b[0])
    ensures StepLength(a + b) == StepLength(a)
    ensures StepMessages(w, a + b) == StepMessages(w, a)
  {
    assert (a + b)[1..] == a[1..] + b;
    if a[0].RunStart? {
      SpanSplit(w, a[1..], b, a[0].runId);
    }
  }

  lemma {:induction false} OneEventStep(w: Wording, events: seq<Event>)
    requires events != [] && !events[0].RunStart?
    ensures StepLength(events) == 1
    ensures StepMessages(w, events) == if events[0].UserMessage? then [BuildUserMessage(events[0])] else []
  {
  }

  /** A user message or a run start ends whatever came before it, and is itself not consumed. */
  lemma {:induction false} BuildSplit(w: Wording, a: seq<Event>, b: seq<Event>)
    requires b != [] ==> IsTurnStart(b[0])
    ensures Build(w, a + b) == Build(w, a) + Build(w, b)
    decreases |a|
  {
    hide StepMessages, Build;
    BuildNothing(w);
    if a == [] || b == [] {
      assert a + b == if a == [] then b else a;
    } else {
      var n := StepLength(a);
      StepSplit(w, a, b);
      assert (a + b)[n..] == a[n..] + b;
      BuildSplit(w, a[n..], b);
      BuildStep(w, a);
      BuildStep(w, a + b);
      var s, x, y := StepMessages(w, a), Build(w, a[n..]), Build(w, b);
      assert s + (x + y) == (s + x) + y;
    }
  }

  lemma {:induction false} BuildNothing(w: Wording)
    ensures Build(w, []) == []
  {
  }

  lemma {:induction false} BuildStep(w: Wording, events: seq<Event>)
    requires events != []
    ensures Build(w, events) == StepMessages(w, events) + Build(w, events[StepLength(events)..])
  {
    hide StepMessages;
  }

  // ------------------------------------------------------------------ the alternation pass

  lemma {:induction false} AlternateAfterConcat(w: Wording, prev: Message, a: seq<Message>, b: seq<Message>)
    ensures AlternateAfter(w, prev, a + b)
         == AlternateAfter(w, prev, a) + AlternateAfter(w, if a == [] then prev else a[|a| - 1], b)
    decreases a
  {
    if a == [] {
      assert a + b == b;
    } else {
      assert (a + b)[1..] == a[1..] + b;
      AlternateAfterConcat(w, a[0], a[1..], b);
    }
  }

  /** The pass looks back one message only, so it works on a history part by part. */
  lemma AlternateConcat(w: Wording, a: seq<Message>, b: seq<Message>)
    requires a != []
    ensures Alternate(w, a + b) == Alternate(w, a) + AlternateAfter(w, a[|a| - 1], b)
  {
    assert (a + b)[1..] == a[1..] + b;
    AlternateAfterConcat(w, a[0], a[1..], b);
  }

  lemma AlternateGrows(w: Wording, a: seq<Message>, b: seq<Message>)
    ensures Alternate(w, a) <= Alternate(w, a + b)
  {
    if a != [] {
      AlternateConcat(w, a, b);
    }
  }

  // ------------------------------------------------------------------ appending to a log

  lemma {:induction false} TailConcat(a: seq<Event>, b: seq<Event>, boundary: Option<int>)
    ensures Tail(a + b, boundary) == Tail(a, boundary) + Tail(b, boundary)
  {
    if a == [] {
      assert a + b == b;
    } else {
      assert (a + b)[1..] == a[1..] + b;
      TailConcat(a[1..], b, boundary);
    }
  }

  lemma {:induction false} OperatorTurnsConcat(a: seq<Event>, b: seq<Event>)
    ensures ExtractOperatorTurns(a + b) == ExtractOperatorTurns(a) + ExtractOperatorTurns(b)
  {
    if a == [] {
      assert a + b == b;
    } else {
      assert (a + b)[1..] == a[1..] + b;
      OperatorTurnsConcat(a[1..], b);
    }
  }

  predicate NoCompaction(events: seq<Event>) {
    forall i :: 0 <= i < |events| ==> !events[i].HistoryCompacted?
  }

  lemma {:induction false} LastCompactionConcat(a: seq<Event>, b: seq<Event>)
    requires NoCompaction(b)
    ensures LastCompaction(a + b) == LastCompaction(a)
    decreases b
  {
    if b == [] {
      assert a + b == a;
    } else {
      assert (a + b)[..|a + b| - 1] == a + b[..|b| - 1];
      LastCompactionConcat(a, b[..|b| - 1]);
    }
  }

  /** Every turn of `events` starts at or after the boundary. */
  predicate TurnsFrom(events: seq<Event>, boundary: int) {
    forall i :: 0 <= i < |events| ==> IsTurnStart(events[i]) ==> events[i].ts >= boundary
  }

  lemma {:induction false} NothingFolded(events: seq<Event>, boundary: int)
    requires TurnsFrom(events, boundary)
    ensures Folded(ExtractOperatorTurns(events), boundary) == []
  {
    if events != [] {
      assert forall i :: 0 <= i < |events[1..]| ==> events[1..][i] == events[i + 1];
      assert TurnsFrom(events[1..], boundary);
      NothingFolded(events[1..], boundary);
      var text := if events[0].UserMessage? then UserMessageText(events[0]) else [];
      if events[0].UserMessage? && text != [] {
        FoldedConcat([RetainedTurn(text, events[0].ts)], ExtractOperatorTurns(events[1..]), boundary);
        assert Folded([RetainedTurn(text, events[0].ts)], boundary) == [] + Folded([], boundary);
      } else {
        assert ExtractOperatorTurns(events) == ExtractOperatorTurns(events[1..]);
      }
    }
  }

  /** Turns at or after the boundary leave the summary seed as it was. */
  lemma SeedUnchanged(w: Wording, log: seq<Event>, more: seq<Event>, c: Option<CompactionEvent>)
    requires c.Some? ==> TurnsFrom(more, c.value.compactedThroughTs)
    ensures Seed(w, log + more, c) == Seed(w, log, c)
  {
    hide CompactionSummaryMessages, SelectFrom;
    if c.Some? {
      var boundary := c.value.compactedThroughTs;
      OperatorTurnsConcat(log, more);
      FoldedConcat(ExtractOperatorTurns(log), ExtractOperatorTurns(more), boundary);
      NothingFolded(more, boundary);
      assert Folded(ExtractOperatorTurns(log + more), boundary) == Folded(ExtractOperatorTurns(log), boundary);
    }
  }

  lemma ReplayedGrows(w: Wording, log: seq<Event>, more: seq<Event>, c: Option<CompactionEvent>)
    requires more != [] ==> IsTurnStart(more[0])
    requires NoCompaction(more)
    requires c.Some? ==> TurnsFrom(more, c.value.compactedThroughTs)
    ensures Replayed(w, log + more, c) == Replayed(w, log, c) + Build(w, Tail(more, BoundaryOf(c)))
  {
    hide Seed, Build;
    SeedUnchanged(w, log, more, c);
    TailConcat(log, more, BoundaryOf(c));
    BuildSplit(w, Tail(log, BoundaryOf(c)), Tail(more, BoundaryOf(c)));
  }

  /**
   * Prefix stability: appending whole turns, in either view and whatever state the log ends in,
   * leaves every message already replayed where it was.
   */
  lemma ReconstructionGrows(w: Wording, log: seq<Event>, more: seq<Event>, ignoreCompaction: bool)
    requires more != [] ==> IsTurnStart(more[0])
    requires NoCompaction(more)
    requires Honoured(log, ignoreCompaction).Some? ==>
               TurnsFrom(more, Honoured(log, ignoreCompaction).value.compactedThroughTs)
    ensures Reconstruct(w, log, ignoreCompaction) <= Reconstruct(w, log + more, ignoreCompaction)
  {
    hide Replayed, Alternate;
    LastCompactionConcat(log, more);
    var c := Honoured(log, ignoreCompaction);
    ReplayedGrows(w, log, more, c);
    AlternateGrows(w, Replayed(w, log, c), Build(w, Tail(more, BoundaryOf(c))));
  }

  // ------------------------------------------------------------------ only the latest compaction counts

  /** The log without every compaction record but the last. */
  function DropEarlierCompactions(events: seq<Event>): seq<Event> {
    if events == [] then []
    else if events[0].HistoryCompacted? && LastCompaction(events[1..]).Some? then DropEarlierCompactions(events[1..])
    else [events[0]] + DropEarlierCompactions(events[1..])
  }

  lemma {:induction false} LastCompactionHead(events: seq<Event>)
    requires events != []
    ensures LastCompaction(events)
         == if LastCompaction(events[1..]).Some? then LastCompaction(events[1..])
            else if events[0].HistoryCompacted? then Some(events[0]) else None
  {
    var n := |events| - 1;
    if n > 0 && !events[n].HistoryCompacted? {
      assert events[..n][1..] == events[1..][..n - 1];
      LastCompactionHead(events[..n]);
    }
  }

  lemma {:induction false} DropKeepsLast(events: seq<Event>)
    ensures LastCompaction(DropEarlierCompactions(events)) == LastCompaction(events)
  {
    if events != [] {
      var rest := DropEarlierCompactions(events[1..]);
      LastCompactionHead(events);
      DropKeepsLast(events[1..]);
      if !(events[0].HistoryCompacted? && LastCompaction(events[1..]).Some?) {
        assert ([events[0]] + rest)[1..] == rest;
        LastCompactionHead([events[0]] + rest);
      }
    }
  }

  lemma {:induction false} DropKeepsTail(events: seq<Event>, boundary: Option<int>)
    ensures Tail(DropEarlierCompactions(events), boundary) == Tail(events, boundary)
  {
    if events != [] {
      DropKeepsTail(events[1..], boundary);
      if !(events[0].HistoryCompacted? && LastCompaction(events[1..]).Some?) {
        TailConcat([events[0]], DropEarlierCompactions(events[1..]), boundary);
        TailConcat([events[0]], events[1..], boundary);
        assert events == [events[0]] + events[1..];
      }
    }
  }

  lemma {:induction false} DropKeepsTurns(events: seq<Event>)
    ensures ExtractOperatorTurns(DropEarlierCompactions(events)) == ExtractOperatorTurns(events)
  {
    if events != [] {
      DropKeepsTurns(events[1..]);
      if !(events[0].HistoryCompacted? && LastCompaction(events[1..]).Some?) {
        OperatorTurnsConcat([events[0]], DropEarlierCompactions(events[1..]));
        OperatorTurnsConcat([events[0]], events[1..]);
        assert events == [events[0]] + events[1..];
      }
    }
  }

  /** Dropping every compaction but the last changes neither view. */
  lemma OnlyLatestCompactionCounts(w: Wording, log: seq<Event>, ignoreCompaction: bool)
    ensures Reconstruct(w, DropEarlierCompactions(log), ignoreCompaction) == Reconstruct(w, log, ignoreCompaction)
  {
    DropKeepsLast(log);
    DropKeepsTurns(log);
    DropKeepsTail(log, BoundaryOf(Honoured(log, ignoreCompaction)));
  }
}
