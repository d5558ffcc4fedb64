/** Every history replay derives, from any log, is one a provider accepts and a reader can follow. */
module ReplayWellFormed {
  import opened Prelude
  import opened ConversationTypes
  import opened Compaction
  import opened Replay
  import opened ReplayStability
  import opened SkillDelivery

  // ------------------------------------------------------------------ messages of the same shape

  /** `b` plays the same part as `a` in the pairing of calls and results. */
  predicate SameShape(a: Message, b: Message) {
    && a.role == b.role
    && (a.role == Assistant ==> CallIds(a.content) == CallIds(b.content))
    && (IsToolResult(a) ==> IsToolResult(b) && a.content[0].id == b.content[0].id)
  }

  lemma {:induction false} PairedBySameShape(a: seq<Message>, b: seq<Message>)
    requires |a| == |b| && forall i :: 0 <= i < |a| ==> SameShape(a[i], b[i])
    requires Paired(a)
    ensures Paired(b)
  {
    if a != [] {
      var n := UnitLength(a);
      forall i | 0 <= i < |a| - n ensures SameShape(a[n..][i], b[n..][i]) {
        assert SameShape(a[i + n], b[i + n]);
      }
      PairedBySameShape(a[n..], b[n..]);
      assert SameShape(a[0], b[0]);
      if a[0].role == Assistant {
        forall i | 0 <= i < n - 1 ensures Answers(b[1..n][i], CallIds(b[0].content)[i]) {
          assert Answers(a[1..n][i], CallIds(a[0].content)[i]);
          assert SameShape(a[i + 1], b[i + 1]);
        }
      }
      PairedUnit(b, n);
    }
  }

  lemma {:induction false} UsersArePaired(ms: seq<Message>)
    requires forall i :: 0 <= i < |ms| ==> ms[i].role == User
    ensures Paired(ms)
  {
    if ms != [] {
      UsersArePaired(ms[1..]);
    }
  }

  // ------------------------------------------------------------------ one response

  lemma {:induction false} NormalizeKeepsCalls(content: seq<Part>)
    ensures CallIds(NormalizeForReplay(content)) == CallIds(content)
  {
    if content != [] {
      NormalizeKeepsCalls(content[1..]);
    }
  }

  lemma {:induction false} ExecutedAreKept(content: seq<Part>, run: Run)
    ensures CallIds(DropOrphans(content, run)) == CallIds(ExecutedCalls(content, run))
  {
    if content != [] {
      ExecutedAreKept(content[1..], run);
    }
  }

  lemma {:induction false} IdsOfCalls(calls: seq<Part>)
    requires forall i :: 0 <= i < |calls| ==> calls[i].ToolCall?
    ensures |CallIds(calls)| == |calls|
    ensures forall i :: 0 <= i < |calls| ==> CallIds(calls)[i] == calls[i].id
  {
    if calls != [] {
      IdsOfCalls(calls[1..]);
    }
  }

  lemma {:induction false} SignedReasoning(content: seq<Part>)
    ensures forall i :: 0 <= i < |ReasoningWithOptions(content)| ==> ReasoningWithOptions(content)[i].Reasoning?
    ensures CallIds(ReasoningWithOptions(content)) == []
  {
    if content != [] {
      SignedReasoning(content[1..]);
    }
  }

  // ------------------------------------------------------------------ settled content

  /** Answer content replay would give back as it is: in prompt form, with something a provider accepts. */
  predicate Settled(content: seq<Part>) {
    && content != []
    && NormalizeForReplay(content) == content
    && (HasText(content) || CallIds(content) != [] || ReasoningWithOptions(content) == content)
  }

  lemma {:induction false} NormalizeIdempotent(content: seq<Part>)
    ensures NormalizeForReplay(NormalizeForReplay(content)) == NormalizeForReplay(content)
  {
    if content != [] {
      NormalizeIdempotent(content[1..]);
    }
  }

  lemma {:induction false} NormalizeConcat(a: seq<Part>, b: seq<Part>)
    ensures NormalizeForReplay(a + b) == NormalizeForReplay(a) + NormalizeForReplay(b)
  {
    if a == [] {
      assert a + b == b;
    } else {
      assert (a + b)[1..] == a[1..] + b;
      NormalizeConcat(a[1..], b);
    }
  }

  lemma {:induction false} SignedReasoningSettled(content: seq<Part>)
    ensures ReasoningWithOptions(ReasoningWithOptions(content)) == ReasoningWithOptions(content)
    ensures NormalizeForReplay(content) == content ==>
              NormalizeForReplay(ReasoningWithOptions(content)) == ReasoningWithOptions(content)
  {
    if content != [] {
      SignedReasoningSettled(content[1..]);
      if NormalizeForReplay(content) == content {
        NormalizeLength(content[1..]);
        assert NormalizeForReplay(content)[0] == content[0] && NormalizeForReplay(content)[1..] == content[1..];
      }
    }
  }

  lemma {:induction false} NormalizeLength(content: seq<Part>)
    ensures |NormalizeForReplay(content)| <= |content|
  {
    if content != [] {
      NormalizeLength(content[1..]);
    }
  }

  lemma PlainTextSettled(text: string)
    ensures NormalizeForReplay([PlainText(text)]) == [PlainText(text)]
    ensures Settled([PlainText(text)])
    ensures ToUserContent([PlainText(text)]) == [PlainText(text)]
  {
    var c := [PlainText(text)];
    assert c[1..] == [] && c[0].Text?;
    assert NormalizeForReplay(c) == [NormalizePart(c[0])] + NormalizeForReplay(c[1..]);
  }

  lemma {:induction false} ToUserContentIdempotent(content: seq<Part>)
    ensures ToUserContent(ToUserContent(content)) == ToUserContent(content)
  {
    if content != [] {
      ToUserContentIdempotent(content[1..]);
    }
  }

  /** A message of the kind the alternation pass inserts. */
  predicate IsInserted(m: Message) {
    m.role == Assistant && m.metadata.iterations == Some(0) && m.metadata.finishReason.Some?
  }

  /** What holds of every message a run contributes. */
  predicate FromRun(m: Message) {
    && !IsInserted(m)
    && (m.role == Assistant ==> Settled(m.content))
    && (m.role == User ==> IsOverlay(m) && ToUserContent(m.content) == m.content)
  }

  ghost predicate AllFromRun(ms: seq<Message>) {
    forall i :: 0 <= i < |ms| ==> FromRun(ms[i])
  }

  lemma ResponseIsPaired(w: Wording, e: LlmResponseEvent, run: Run)
    requires run.responses != []
    ensures Paired(MessagesForResponse(w, e, run))
    ensures AllFromRun(MessagesForResponse(w, e, run))
    ensures forall i :: 0 <= i < |MessagesForResponse(w, e, run)| ==> MessagesForResponse(w, e, run)[i].role != User
  {
    var calls := ExecutedCalls(e.content, run);
    var replay := NormalizeForReplay(DropOrphans(e.content, run));
    NormalizeIdempotent(DropOrphans(e.content, run));
    NormalizeKeepsCalls(DropOrphans(e.content, run));
    ExecutedAreKept(e.content, run);
    if !HasText(replay) && calls == [] {
      PlaceholderIsPaired(w, e, replay, |CallIds(e.content)| > |calls|, ResponseMetadata(e, |run.responses|));
    } else {
      IdsOfCalls(calls);
      var ms := MessagesForResponse(w, e, run);
      assert Settled(replay);
      AnsweredUnit(w, ms[0], calls, run);
    }
  }

  lemma PlaceholderIsPaired(w: Wording, e: LlmResponseEvent, replay: seq<Part>, orphaned: bool, metadata: Metadata)
    requires NormalizeForReplay(replay) == replay
    requires metadata.iterations.Some? && metadata.iterations.value > 0
    ensures Paired(Placeholder(w, e, replay, orphaned, metadata))
    ensures AllFromRun(Placeholder(w, e, replay, orphaned, metadata))
    ensures forall i :: 0 <= i < |Placeholder(w, e, replay, orphaned, metadata)| ==>
              Placeholder(w, e, replay, orphaned, metadata)[i].role == Assistant
  {
    var ms := Placeholder(w, e, replay, orphaned, metadata);
    if ms != [] {
      SignedReasoning(replay);
      SignedReasoningSettled(replay);
      PlainTextSettled(w.orphanedToolCalls);
      PlainTextSettled(w.truncated(e.finishReason));
      CallIdsEmpty(ms[0].content);
      assert ms[1..] == [];
      PairedUnit(ms, 1);
    }
  }

  lemma AnsweredUnit(w: Wording, m: Message, calls: seq<Part>, run: Run)
    requires forall i :: 0 <= i < |calls| ==> calls[i].ToolCall? && calls[i].id in run.toolDones
    requires m.role == Assistant && CallIds(m.content) == CallIds(calls)
    ensures Paired([m] + ToolResultMessages(w, calls, run))
  {
    var ms := [m] + ToolResultMessages(w, calls, run);
    IdsOfCalls(calls);
    assert ms[1..] == ToolResultMessages(w, calls, run) && ms[|calls| + 1..] == [];
    PairedUnit(ms, |calls| + 1);
  }

  // ------------------------------------------------------------------ overlays

  lemma OverlaysAreFromRun(w: Wording, es: seq<OverlayEvent>)
    ensures AllFromRun(OverlayMessages(w, es))
  {
    forall i | 0 <= i < |es| ensures FromRun(OverlayMessages(w, es)[i]) {
      PlainTextSettled(w.overlayBlock(es[i]));
    }
  }

  lemma OverlaysStay(w: Wording, emitted: seq<Message>, delivered: seq<OverlayEvent>)
    requires Paired(emitted) && AllFromRun(emitted)
    ensures Paired(WithOverlays(w, emitted, delivered))
    ensures AllFromRun(WithOverlays(w, emitted, delivered))
  {
    var guidance := GuidanceByToolCall(ResultIds(emitted), delivered);
    if delivered == [] {
    } else if guidance == map[] {
      OverlaysAreFromRun(w, delivered);
      UsersArePaired(OverlayMessages(w, delivered));
      PairedConcat(emitted, OverlayMessages(w, delivered));
    } else {
      PairedBySameShape(emitted, CarryAll(w, emitted, guidance));
    }
  }

  // ------------------------------------------------------------------ a run

  lemma {:induction false} IterationIsPaired(w: Wording, run: Run, k: nat)
    requires 0 < k <= |run.responses|
    ensures Paired(Iteration(w, run, k))
    ensures AllFromRun(Iteration(w, run, k))
  {
    hide MessagesForResponse, WithOverlays;
    ResponseIsPaired(w, run.responses[k - 1], run);
    OverlaysStay(w, MessagesForResponse(w, run.responses[k - 1], run), DeliveredAfter(run.overlays, k));
  }

  lemma {:induction false} IterationsArePaired(w: Wording, run: Run, k: nat)
    requires k <= |run.responses|
    ensures Paired(Iterations(w, run, k))
    ensures AllFromRun(Iterations(w, run, k))
  {
    hide Iteration;
    if k > 0 {
      IterationsArePaired(w, run, k - 1);
      IterationIsPaired(w, run, k);
      PairedConcat(Iterations(w, run, k - 1), Iteration(w, run, k));
    }
  }

  lemma TextAddedSettled(content: seq<Part>, text: string)
    requires Settled(content)
    ensures Settled(content + [PlainText(text)])
    ensures CallIds(content + [PlainText(text)]) == CallIds(content)
  {
    PlainTextSettled(text);
    CallIdsConcat(content, [PlainText(text)]);
    NormalizeConcat(content, [PlainText(text)]);
    assert (content + [PlainText(text)])[|content|].Text?;
  }

  lemma ClosedRunIsPaired(w: Wording, ms: seq<Message>, ts: int)
    requires Paired(ms) && AllFromRun(ms)
    ensures Paired(CloseCancelled(w, ms, ts))
    ensures AllFromRun(CloseCancelled(w, ms, ts))
  {
    var closed := CloseCancelled(w, ms, ts);
    hide Settled;
    PlainTextSettled(w.cancelledRun);
    if ms != [] && ms[|ms| - 1].role == Assistant {
      assert FromRun(ms[|ms| - 1]);
      TextAddedSettled(ms[|ms| - 1].content, w.cancelledRun);
      PairedBySameShape(ms, closed);
    } else {
      PairedConcat(ms, [CancelledMessage(w, ts)]);
    }
  }

  lemma RunIsPaired(w: Wording, run: Run, cancelledAt: Option<int>)
    ensures Paired(RunMessages(w, run, cancelledAt))
    ensures AllFromRun(RunMessages(w, run, cancelledAt))
  {
    var overlays := OverlayMessages(w, DeliveredAfter(run.overlays, 0));
    OverlaysAreFromRun(w, DeliveredAfter(run.overlays, 0));
    IterationsArePaired(w, run, |run.responses|);
    UsersArePaired(overlays);
    PairedConcat(Iterations(w, run, |run.responses|), overlays);
    if cancelledAt.Some? {
      ClosedRunIsPaired(w, OpenRunMessages(w, run), cancelledAt.value);
    }
  }

  // ------------------------------------------------------------------ a log

  /** What holds of every replayed message: it is no marker of the alternation pass, and its content is settled. */
  predicate Genuine(m: Message) {
    && !IsInserted(m)
    && (m.role == Assistant ==> Settled(m.content))
    && (m.role == User ==> ToUserContent(m.content) == m.content)
  }

  ghost predicate AllGenuine(ms: seq<Message>) {
    forall i :: 0 <= i < |ms| ==> Genuine(ms[i])
  }

  lemma StepIsPaired(w: Wording, events: seq<Event>)
    requires events != []
    ensures Paired(StepMessages(w, events))
    ensures AllGenuine(StepMessages(w, events))
  {
    if events[0].RunStart? {
      var rest, runId := events[1..], events[0].runId;
      RunIsPaired(w, Collect(rest[..InnerLength(rest, runId)], runId), CancelledAt(rest, runId));
    } else {
      UsersArePaired(StepMessages(w, events));
      if events[0].UserMessage? {
        ToUserContentIdempotent(events[0].content);
      }
    }
  }

  lemma {:induction false} BuildIsPaired(w: Wording, events: seq<Event>)
    ensures Paired(Build(w, events))
    ensures AllGenuine(Build(w, events))
    decreases |events|
  {
    hide StepMessages;
    if events != [] {
      var n := StepLength(events);
      StepIsPaired(w, events);
      BuildIsPaired(w, events[n..]);
      PairedConcat(StepMessages(w, events), Build(w, events[n..]));
    }
  }

  lemma ReplayedIsPaired(w: Wording, events: seq<Event>, c: Option<CompactionEvent>)
    ensures Paired(Replayed(w, events, c))
    ensures AllGenuine(Replayed(w, events, c))
  {
    hide Build;
    var seed, rest := Seed(w, events, c), Build(w, Tail(events, BoundaryOf(c)));
    BuildIsPaired(w, Tail(events, BoundaryOf(c)));
    SeedIsPaired(w, events, c);
    PairedConcat(seed, rest);
  }

  lemma {:induction false} SeedIsGenuine(w: SeedWording, summary: string, ts: int, retained: Selection)
    ensures AllGenuine(CompactionSummaryMessages(w, summary, ts, retained))
  {
    hide SeedText;
    var seed := CompactionSummaryMessages(w, summary, ts, retained);
    PlainTextSettled(seed[0].content[0].text);
    PlainTextSettled(seed[1].content[0].text);
  }

  lemma {:induction false} SeedIsPaired(w: Wording, events: seq<Event>, c: Option<CompactionEvent>)
    ensures Paired(Seed(w, events, c))
    ensures AllGenuine(Seed(w, events, c))
  {
    hide CompactionSummaryMessages, SelectFrom;
    if c.Some? {
      var boundary := c.value.compactedThroughTs;
      var retained := Select(ExtractOperatorTurns(events), boundary);
      SeedPairs(w.seed, c.value.summary, boundary, retained);
      SeedIsGenuine(w.seed, c.value.summary, boundary, retained);
    }
  }

  // ------------------------------------------------------------------ the alternation pass

  /** No gap is left between adjacent messages. */
  ghost predicate Spaced(w: Wording, ms: seq<Message>) {
    forall i :: 0 < i < |ms| ==> MarkerBetween(w, ms[i - 1], ms[i]).None?
  }

  lemma {:induction false} AlternateAfterSpaced(w: Wording, prev: Message, ms: seq<Message>)
    ensures Spaced(w, [prev] + AlternateAfter(w, prev, ms))
    decreases ms
  {
    if ms != [] {
      AlternateAfterSpaced(w, ms[0], ms[1..]);
      var rest := [ms[0]] + AlternateAfter(w, ms[0], ms[1..]);
      var all := [prev] + AlternateAfter(w, prev, ms);
      var k := 1 + |Markers(w, prev, ms[0])|;
      assert all == [prev] + Markers(w, prev, ms[0]) + rest;
      forall i | 0 < i < |all| ensures MarkerBetween(w, all[i - 1], all[i]).None? {
        if i > k {
          assert all[i] == rest[i - k] && all[i - 1] == rest[i - 1 - k];
        }
      }
    }
  }

  lemma AlternateSpaced(w: Wording, ms: seq<Message>)
    ensures Spaced(w, Alternate(w, ms))
  {
    if ms != [] {
      AlternateAfterSpaced(w, ms[0], ms[1..]);
    }
  }

  lemma {:induction false} SpacedIsFixed(w: Wording, prev: Message, ms: seq<Message>)
    requires Spaced(w, [prev] + ms)
    ensures AlternateAfter(w, prev, ms) == ms
    decreases ms
  {
    if ms != [] {
      var all, rest := [prev] + ms, [ms[0]] + ms[1..];
      assert MarkerBetween(w, all[0], all[1]).None?;
      forall i | 0 < i < |rest| ensures MarkerBetween(w, rest[i - 1], rest[i]).None? {
        assert rest[i] == all[i + 1] && rest[i - 1] == all[i];
      }
      SpacedIsFixed(w, ms[0], ms[1..]);
    }
  }

  /** The pass changes nothing the second time. */
  lemma AlternateIdempotent(w: Wording, ms: seq<Message>)
    ensures Alternate(w, Alternate(w, ms)) == Alternate(w, ms)
  {
    if ms != [] {
      var once := Alternate(w, ms);
      AlternateSpaced(w, ms);
      assert once == [once[0]] + once[1..];
      SpacedIsFixed(w, once[0], once[1..]);
    }
  }

  /** The history without the messages the pass inserts. */
  function EraseInserted(ms: seq<Message>): seq<Message> {
    if ms == [] then []
    else if IsInserted(ms[0]) then EraseInserted(ms[1..])
    else [ms[0]] + EraseInserted(ms[1..])
  }

  lemma {:induction false} EraseAlternateAfter(w: Wording, prev: Message, ms: seq<Message>)
    requires AllGenuine(ms)
    ensures EraseInserted(AlternateAfter(w, prev, ms)) == ms
    decreases ms
  {
    if ms != [] {
      forall i | 0 <= i < |ms| - 1 ensures Genuine(ms[1..][i]) {
        assert Genuine(ms[i + 1]);
      }
      EraseAlternateAfter(w, ms[0], ms[1..]);
      assert Genuine(ms[0]);
      var rest := [ms[0]] + AlternateAfter(w, ms[0], ms[1..]);
      assert rest[1..] == AlternateAfter(w, ms[0], ms[1..]);
      var all := AlternateAfter(w, prev, ms);
      if Markers(w, prev, ms[0]) != [] {
        assert all[1..] == rest;
      } else {
        assert all == rest;
      }
    }
  }

  lemma {:induction false} NoUserNoMarker(w: Wording, prev: Message, ms: seq<Message>)
    requires forall i :: 0 <= i < |ms| ==> ms[i].role != User
    ensures AlternateAfter(w, prev, ms) == ms
    decreases ms
  {
    if ms != [] {
      NoUserNoMarker(w, ms[0], ms[1..]);
    }
  }

  lemma {:induction false} MarkersArePaired(w: Wording, prev: Message, msg: Message)
    ensures Paired(Markers(w, prev, msg))
    ensures forall i :: 0 <= i < |Markers(w, prev, msg)| ==> Markers(w, prev, msg)[i].content != []
  {
    if Markers(w, prev, msg) != [] {
      var markers := Markers(w, prev, msg);
      assert markers[1..] == [] && !markers[0].content[0].ToolCall?;
      CallIdsEmpty(markers[0].content);
      PairedUnit(markers, 1);
    }
  }

  ghost predicate NoEmptyAnswer(ms: seq<Message>) {
    forall i :: 0 <= i < |ms| ==> ms[i].role == Assistant ==> ms[i].content != []
  }

  /** Markers go between units, never inside one. */
  lemma {:induction false} AlternateAfterPaired(w: Wording, prev: Message, ms: seq<Message>)
    requires Paired(ms)
    ensures Paired(AlternateAfter(w, prev, ms))
    decreases ms
  {
    if ms != [] {
      var n := UnitLength(ms);
      var unit, rest := ms[..n], ms[n..];
      assert ms == unit + rest;
      AlternateAfterConcat(w, prev, unit, rest);
      AlternateAfterPaired(w, unit[n - 1], rest);
      UnitAlternates(w, prev, unit);
      PairedConcat(AlternateAfter(w, prev, unit), AlternateAfter(w, unit[n - 1], rest));
    }
  }

  lemma {:induction false} UnitAlternates(w: Wording, prev: Message, unit: seq<Message>)
    requires unit != [] && |unit| == UnitLength(unit)
    requires unit[0].role != Tool
    requires unit[0].role == Assistant ==> AnswersAll(unit[1..], CallIds(unit[0].content))
    ensures Paired(AlternateAfter(w, prev, unit))
  {
    assert unit[|unit|..] == [] && unit[1..|unit|] == unit[1..];
    PairedUnit(unit, |unit|);
    if unit[0].role == User {
      MarkersArePaired(w, prev, unit[0]);
      PairedConcat(Markers(w, prev, unit[0]), unit);
      assert unit == [unit[0]] && AlternateAfter(w, unit[0], unit[1..]) == [];
      assert AlternateAfter(w, prev, unit) == Markers(w, prev, unit[0]) + unit;
    } else {
      forall i | 0 <= i < |unit| ensures unit[i].role != User {
        if i > 0 {
          assert Answers(unit[1..][i - 1], CallIds(unit[0].content)[i - 1]);
        }
      }
      NoUserNoMarker(w, prev, unit);
    }
  }

  lemma {:induction false} AlternateAfterAnswers(w: Wording, prev: Message, ms: seq<Message>)
    requires NoEmptyAnswer(ms)
    ensures NoEmptyAnswer(AlternateAfter(w, prev, ms))
    decreases ms
  {
    if ms != [] {
      MarkersArePaired(w, prev, ms[0]);
      AlternateAfterAnswers(w, ms[0], ms[1..]);
    }
  }

  lemma AlternatePaired(w: Wording, ms: seq<Message>)
    requires Paired(ms) && AllGenuine(ms)
    ensures Paired(Alternate(w, ms))
    ensures NoEmptyAnswer(Alternate(w, ms))
    ensures EraseInserted(Alternate(w, ms)) == ms
  {
    if ms != [] {
      // A leading message draws no marker: run the pass behind an assistant message.
      var before := MarkerMessage("", ms[0], ms[0]);
      assert Markers(w, before, ms[0]) == [];
      assert AlternateAfter(w, before, ms) == [] + Alternate(w, ms) == Alternate(w, ms);
      AlternateAfterPaired(w, before, ms);
      AlternateAfterAnswers(w, before, ms);
      EraseAlternateAfter(w, before, ms);
    }
  }

  /**
   * Well-formed history, for any log and either view: every assistant message's tool calls are
   * answered, in order, by exactly the tool messages that directly follow it, and no tool message
   * stands anywhere else; no assistant message is empty; a user message follows an assistant
   * message, or an overlay when it is an overlay itself; the pass has nothing left to do, and
   * undoing it gives back exactly what the log replays.
   */
  lemma HistoryIsWellFormed(w: Wording, log: seq<Event>, ignoreCompaction: bool)
    ensures var h := Reconstruct(w, log, ignoreCompaction);
            && Paired(h)
            && NoEmptyAnswer(h)
            && (forall i :: 0 < i < |h| && h[i].role == User ==>
                  h[i - 1].role == Assistant || (h[i - 1].role == User && IsOverlay(h[i - 1]) && IsOverlay(h[i])))
            && Alternate(w, h) == h
            && EraseInserted(h) == Replayed(w, log, Honoured(log, ignoreCompaction))
  {
    hide Replayed;
    var ms := Replayed(w, log, Honoured(log, ignoreCompaction));
    ReplayedIsPaired(w, log, Honoured(log, ignoreCompaction));
    AlternatePaired(w, ms);
    AlternateSpaced(w, ms);
    AlternateIdempotent(w, ms);
    var h := Alternate(w, ms);
    forall i | 0 < i < |h| && h[i].role == User
      ensures h[i - 1].role == Assistant || (h[i - 1].role == User && IsOverlay(h[i - 1]) && IsOverlay(h[i]))
    {
      assert MarkerBetween(w, h[i - 1], h[i]).None?;
    }
  }
}
