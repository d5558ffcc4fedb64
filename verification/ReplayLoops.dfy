/**
 * The loops of the event reconstructor (src/conversation/event-reconstructor.ts), in the source's
 * own form: an index that walks the log, records that are filled in place, a result that is pushed
 * to. Each is proved to compute the function of `Replay` that specifies it.
 */
module ReplayLoops {
  import opened Prelude
  import opened ConversationTypes
  import opened Compaction
  import opened Replay
  import opened ReplayStability
  import opened ReplayWellFormed

  // ------------------------------------------------------------------ collecting a run

  /** The events collected within a run span, before messages are shaped. */
  class RunCollections {
    var llmResponses: seq<LlmResponseEvent>
    var toolDones: map<string, ToolDoneEvent>
    var toolInputs: map<string, string>
    var connectorSkills: seq<Overlay>
    var skillActivations: map<string, ActivationEvent>

    function Collected(): Run
      reads this
    {
      Run(llmResponses, toolDones, toolInputs, connectorSkills, skillActivations)
    }

    constructor ()
      ensures Collected() == EMPTY_RUN
    {
      llmResponses, toolDones, toolInputs, connectorSkills, skillActivations := [], map[], map[], [], map[];
    }

    method AccumulateRunEvent(inner: Event, runId: string)
      modifies this
      ensures Collected() == Accumulate(old(Collected()), inner, runId)
    {
      if inner.LlmResponse? && inner.runId == runId {
        llmResponses := llmResponses + [inner];
      } else if inner.ToolDone? && inner.runId == runId {
        toolDones := toolDones[inner.id := inner];
      } else if inner.ToolStart? && inner.runId == runId {
        if inner.input.Some? {
          toolInputs := toolInputs[inner.id := inner.input.value];
        }
      } else if inner.ConnectorSkillInjected? {
        connectorSkills := connectorSkills + [Overlay(inner, |llmResponses|)];
      } else if inner.SkillActivated? && inner.runId == runId {
        skillActivations := skillActivations[inner.toolCallId := inner];
      }
    }
  }

  lemma {:induction false} InnerStep(events: seq<Event>, i: nat, runId: string)
    requires i < |events|
    ensures InnerLength(events[i..], runId) ==
            if IsTerminator(events[i], runId) || IsTurnStart(events[i]) then 0
            else 1 + InnerLength(events[i + 1..], runId)
  {
    assert events[i..][1..] == events[i + 1..];
  }

  lemma {:induction false} CollectStep(events: seq<Event>, start: nat, i: nat, runId: string)
    requires start <= i < |events|
    ensures events[start..][..i - start] == events[start..i]
    ensures Collect(events[start..i + 1], runId) == Accumulate(Collect(events[start..i], runId), events[i], runId)
  {
    assert events[start..i + 1][..i - start] == events[start..i];
  }

  method CollectRunEvents(events: seq<Event>, startIndex: nat, runId: string)
    returns (run: Run, nextIndex: nat, cancelledAt: Option<int>)
    requires startIndex <= |events|
    ensures var rest := events[startIndex..];
            && run == Collect(rest[..InnerLength(rest, runId)], runId)
            && nextIndex == startIndex + SpanLength(rest, runId)
            && cancelledAt == CancelledAt(rest, runId)
  {
    var acc := new RunCollections();
    cancelledAt := None;
    var i := startIndex;
    while i < |events|
      invariant startIndex <= i <= |events|
      invariant fresh(acc)
      invariant acc.Collected() == Collect(events[startIndex..i], runId)
      invariant cancelledAt.None?
      invariant InnerLength(events[startIndex..], runId) == i - startIndex + InnerLength(events[i..], runId)
    {
      var inner := events[i];
      InnerStep(events, i, runId);
      CollectStep(events, startIndex, i, runId);
      if IsTerminator(inner, runId) {
        i := i + 1;
        if inner.RunDone? && inner.stopReason == "cancelled" {
          cancelledAt := Some(inner.ts);
        }
        run, nextIndex := acc.Collected(), i;
        return;
      }
      if inner.UserMessage? || inner.RunStart? {
        break;
      }
      acc.AccumulateRunEvent(inner, runId);
      i := i + 1;
    }
    assert events[startIndex..][..i - startIndex] == events[startIndex..i];
    run, nextIndex := acc.Collected(), i;
  }

  // ------------------------------------------------------------------ emitting a run

  /** The message list a replay pushes to. */
  class MessageList {
    var messages: seq<Message>

    constructor ()
      ensures messages == []
    {
      messages := [];
    }

    /** Tells the model that the run whose messages start at `runFirstMessage` was stopped. */
    method AppendCancelledMarker(w: Wording, runFirstMessage: nat, ts: int)
      requires runFirstMessage <= |messages|
      modifies this
      ensures messages == old(messages)[..runFirstMessage] + CloseCancelled(w, old(messages)[runFirstMessage..], ts)
    {
      if |messages| > runFirstMessage && messages[|messages| - 1].role == Assistant {
        var last := messages[|messages| - 1];
        if AllText(last.content) {
          messages := messages[|messages| - 1 := last.(content := last.content + [PlainText(w.cancelledRun)])];
        }
      } else {
        messages := messages + [CancelledMessage(w, ts)];
      }
    }

    /** Emits the run that starts at `runStartIndex`; returns the index of the first event past it. */
    method AppendRunMessages(w: Wording, events: seq<Event>, runStartIndex: nat) returns (nextIndex: nat)
      requires runStartIndex < |events| && events[runStartIndex].RunStart?
      modifies this
      ensures messages == old(messages) + StepMessages(w, events[runStartIndex..])
      ensures nextIndex == runStartIndex + StepLength(events[runStartIndex..])
    {
      assert events[runStartIndex..][1..] == events[runStartIndex + 1..];
      var run, next, cancelledAt := CollectRunEvents(events, runStartIndex + 1, events[runStartIndex].runId);
      ghost var before := messages;
      var runFirstMessage := |messages|;
      EmitRun(w, run);
      if cancelledAt.Some? {
        AppendCancelledMarker(w, runFirstMessage, cancelledAt.value);
      }
      nextIndex := next;
    }

    /** Emits the collected run's iterations, then the overlays no iteration could carry. */
    method EmitRun(w: Wording, run: Run)
      modifies this
      ensures messages == old(messages) + OpenRunMessages(w, run)
    {
      hide Iterations, OverlayMessages;
      EmitIterations(w, run);
      EmitUnplaced(w, run);
    }

    method EmitIterations(w: Wording, run: Run)
      modifies this
      ensures messages == old(messages) + Iterations(w, run, |run.responses|)
    {
      hide Iteration;
      for responsesEmitted := 0 to |run.responses|
        invariant messages == old(messages) + Iterations(w, run, responsesEmitted)
      {
        EmitIteration(w, run, responsesEmitted + 1);
      }
    }

    method EmitUnplaced(w: Wording, run: Run)
      modifies this
      ensures messages == old(messages) + OverlayMessages(w, DeliveredAfter(run.overlays, 0))
    {
      for k := 0 to |run.overlays|
        invariant messages == old(messages) + OverlayMessages(w, DeliveredAfter(run.overlays[..k], 0))
      {
        DeliveredAfterSnoc(w, run.overlays, k);
        if run.overlays[k].afterResponses == 0 {
          messages := messages + [OverlayMessage(w, run.overlays[k].event)];
        }
      }
      assert run.overlays[..|run.overlays|] == run.overlays;
    }

    method EmitIteration(w: Wording, run: Run, responsesEmitted: nat)
      requires 0 < responsesEmitted <= |run.responses|
      modifies this
      ensures messages == old(messages) + Iteration(w, run, responsesEmitted)
    {
      var emitted := MessagesForResponse(w, run.responses[responsesEmitted - 1], run);
      var delivered := DeliveredAfter(run.overlays, responsesEmitted);
      messages := messages + WithOverlays(w, emitted, delivered);
    }
  }

  lemma {:induction false} DeliveredAfterConcat(a: seq<Overlay>, b: seq<Overlay>, k: nat)
    ensures DeliveredAfter(a + b, k) == DeliveredAfter(a, k) + DeliveredAfter(b, k)
  {
    if a == [] {
      assert a + b == b;
    } else {
      assert (a + b)[1..] == a[1..] + b;
      DeliveredAfterConcat(a[1..], b, k);
    }
  }

  lemma DeliveredAfterSnoc(w: Wording, overlays: seq<Overlay>, k: nat)
    requires k < |overlays|
    ensures OverlayMessages(w, DeliveredAfter(overlays[..k + 1], 0))
         == OverlayMessages(w, DeliveredAfter(overlays[..k], 0)) +
            if overlays[k].afterResponses == 0 then [OverlayMessage(w, overlays[k].event)] else []
  {
    assert overlays[..k + 1] == overlays[..k] + [overlays[k]];
    DeliveredAfterConcat(overlays[..k], [overlays[k]], 0);
    assert DeliveredAfter([overlays[k]], 0) == if overlays[k].afterResponses == 0 then [overlays[k].event] else [];
  }

  // ------------------------------------------------------------------ the whole log

  method BuildMessagesFromEvents(w: Wording, events: seq<Event>) returns (messages: seq<Message>)
    ensures messages == Build(w, events)
  {
    hide StepMessages, Build;
    var list := new MessageList();
    var i := 0;
    BuildEnds(w, events);
    while i < |events|
      invariant 0 <= i <= |events|
      invariant fresh(list)
      invariant Build(w, events) == list.messages + Build(w, events[i..])
    {
      ghost var at, shown := i, list.messages;
      if events[i].RunStart? {
        i := list.AppendRunMessages(w, events, i);
      } else {
        OneEventStep(w, events[i..]);
        if events[i].UserMessage? {
          list.messages := list.messages + [BuildUserMessage(events[i])];
        }
        i := i + 1;
      }
      BuildProgress(w, events, at, shown);
      assert list.messages == shown + StepMessages(w, events[at..]);
    }
    messages := list.messages;
  }

  lemma {:induction false} BuildEnds(w: Wording, events: seq<Event>)
    ensures events[0..] == events && Build(w, events[|events|..]) == []
  {
  }

  /** One step further into the log. */
  lemma {:induction false} BuildProgress(w: Wording, events: seq<Event>, i: nat, shown: seq<Message>)
    requires i < |events| && Build(w, events) == shown + Build(w, events[i..])
    ensures i + StepLength(events[i..]) <= |events|
    ensures Build(w, events) == shown + StepMessages(w, events[i..]) + Build(w, events[i + StepLength(events[i..])..])
  {
    hide StepMessages, Build;
    var rest := events[i..];
    BuildStep(w, rest);
    assert rest[StepLength(rest)..] == events[i + StepLength(rest)..];
  }

  method NormalizeContent(content: seq<Part>) returns (out: seq<Part>)
    ensures out == NormalizeForReplay(content)
  {
    out := [];
    for i := 0 to |content|
      invariant out == NormalizeForReplay(content[..i])
    {
      var part := content[i];
      assert content[..i + 1] == content[..i] + [part] && [part][1..] == [];
      NormalizeConcat(content[..i], [part]);
      if Replayable(part) {
        out := out + [NormalizePart(part)];
      }
    }
    assert content[..|content|] == content;
  }

  method EnsureRoleAlternation(w: Wording, messages: seq<Message>) returns (result: seq<Message>)
    ensures result == Alternate(w, messages)
  {
    if |messages| < 2 {
      return messages;
    }
    result := [];
    for i := 0 to |messages|
      invariant result == Alternate(w, messages[..i])
      invariant i > 0 ==> result != [] && result[|result| - 1] == messages[i - 1]
    {
      var msg := messages[i];
      assert messages[..i + 1] == messages[..i] + [msg];
      if i > 0 {
        AlternateConcat(w, messages[..i], [msg]);
        assert AlternateAfter(w, messages[i - 1], [msg]) == Markers(w, messages[i - 1], msg) + [msg];
      }
      if |result| > 0 {
        var prev := result[|result| - 1];
        var marker := MarkerBetween(w, prev, msg);
        if marker.Some? {
          result := result + [MarkerMessage(marker.value, prev, msg)];
        }
      }
      result := result + [msg];
    }
    assert messages[..|messages|] == messages;
  }

  method ReconstructMessages(w: Wording, events: seq<Event>, ignoreCompaction: bool) returns (messages: seq<Message>)
    ensures messages == Reconstruct(w, events, ignoreCompaction)
  {
    hide Build, Alternate, SelectFrom, CompactionSummaryMessages;
    if !ignoreCompaction {
      var lastCompaction: Option<CompactionEvent> := None;
      for i := 0 to |events|
        invariant lastCompaction == LastCompaction(events[..i])
      {
        assert events[..i + 1][..i] == events[..i];
        if events[i].HistoryCompacted? {
          lastCompaction := Some(events[i]);
        }
      }
      assert events[..|events|] == events;
      if lastCompaction.Some? {
        var boundary := lastCompaction.value.compactedThroughTs;
        var tail := Tail(events, Some(boundary));
        var turns := OperatorTurns(events);
        var retained := SelectRetainedOperatorMessages(turns, boundary, RETAINED_OPERATOR_MAX_TOKENS);
        var built := BuildMessagesFromEvents(w, tail);
        messages := EnsureRoleAlternation(w,
          CompactionSummaryMessages(w.seed, lastCompaction.value.summary, boundary, retained) + built);
        return;
      }
    }
    var built := BuildMessagesFromEvents(w, Tail(events, None));
    assert [] + built == built;
    messages := EnsureRoleAlternation(w, built);
  }

  method OperatorTurns(events: seq<Event>) returns (turns: seq<RetainedTurn>)
    ensures turns == ExtractOperatorTurns(events)
  {
    turns := [];
    for i := 0 to |events|
      invariant turns == ExtractOperatorTurns(events[..i])
    {
      assert events[..i + 1] == events[..i] + [events[i]];
      OperatorTurnsConcat(events[..i], [events[i]]);
      if events[i].UserMessage? {
        var text := UserMessageText(events[i]);
        if |text| > 0 {
          turns := turns + [RetainedTurn(text, events[i].ts)];
        }
      }
    }
    assert events[..|events|] == events;
  }
}
