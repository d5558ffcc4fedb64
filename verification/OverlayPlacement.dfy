/**
 * Where in a run an overlay stands: behind exactly the answers that were recorded before it, as the live run
 * had it, or at the run's end when there was none.
 */
module OverlayPlacement {
  import opened Prelude
  import opened ConversationTypes
  import opened SkillDelivery
  import opened Replay
  import opened ReplayWellFormed
  import opened ReplayFidelity
  import opened ReplayTimes
  import opened OverlayText
  import T = Text

  /** How many events pass. */
  function Count(events: seq<Event>, passes: Event -> bool): nat {
    if events == [] then 0
    else Count(events[..|events| - 1], passes) + if passes(events[|events| - 1]) then 1 else 0
  }

  function LoudCount(responses: seq<LlmResponseEvent>): nat {
    if responses == [] then 0
    else LoudCount(responses[..|responses| - 1]) + if Loud(responses[|responses| - 1]) then 1 else 0
  }

  lemma {:induction false} SpokenBefore(inner: seq<Event>, runId: string)
    ensures LoudCount(Collect(inner, runId).responses) == Count(inner, Speaks(runId))
  {
    if inner != [] {
      var n := |inner| - 1;
      SpokenBefore(inner[..n], runId);
      var before, after := Collect(inner[..n], runId).responses, Collect(inner, runId).responses;
      if Responds(runId)(inner[n]) {
        assert after == before + [inner[n]] && after[..|before|] == before;
      }
    }
  }

  /** What was gathered earlier in the span is the head of what is gathered in all. */
  lemma {:induction false} GatheredGrows(inner: seq<Event>, runId: string, i: nat)
    requires i <= |inner|
    ensures Collect(inner[..i], runId).responses <= Collect(inner, runId).responses
    decreases |inner|
  {
    if i == |inner| {
      assert inner[..i] == inner;
    } else {
      var n := |inner| - 1;
      assert inner[..n][..i] == inner[..i];
      GatheredGrows(inner[..n], runId, i);
    }
  }

  lemma {:induction false} AnswersCount(w: Wording, run: Run, k: nat)
    requires k <= |run.responses|
    ensures |AssistantsOf(Iterations(w, run, k))| == LoudCount(run.responses[..k])
  {
    hide MessagesForResponse, AnswerTo, Loud, Iterations;
    if k > 0 {
      AnswersCount(w, run, k - 1);
      ResponseAnswer(w, run.responses[k - 1], run);
      AnswersStep(w, run, k);
      assert run.responses[..k][..k - 1] == run.responses[..k - 1];
    } else {
      NoIterations(w, run);
    }
  }

  /** The overlay event at `i` is collected with the responses before it counted. */
  lemma {:induction false} OverlayCounted(inner: seq<Event>, runId: string, i: nat) returns (x: nat)
    requires i < |inner| && inner[i].ConnectorSkillInjected?
    ensures var run := Collect(inner, runId);
            && x < |run.overlays| && run.overlays[x].event == inner[i]
            && run.overlays[x].afterResponses == |Collect(inner[..i], runId).responses|
  {
    var n := |inner| - 1;
    var before := Collect(inner[..n], runId);
    if i == n {
      x := |before.overlays|;
    } else {
      x := OverlayCounted(inner[..n], runId, i);
      assert inner[..n][..i] == inner[..i];
      assert before.overlays <= Collect(inner, runId).overlays;
    }
  }

  /** In an iteration, what stands behind no answer stands behind its answer. */
  lemma {:induction false} BehindItsAnswer(w: Wording, run: Run, k: nat, m: nat)
    requires 0 < k <= |run.responses| && m < |Iteration(w, run, k)| && Iteration(w, run, k)[m].role != Assistant
    ensures AssistantsOf(Iteration(w, run, k)[..m]) == AssistantsOf(Iteration(w, run, k))
  {
    hide MessagesForResponse, Iteration;
    var ms := Iteration(w, run, k);
    assert forall i :: 0 < i < |ms| ==> ms[i].role != Assistant by { AnswerLeads(w, run, k); }
    assert ms == ms[..m] + ms[m..];
    NoAssistants(ms[m..]);
    AssistantsConcat(ms[..m], ms[m..]);
  }

  lemma {:induction false} AnswerLeads(w: Wording, run: Run, k: nat)
    requires 0 < k <= |run.responses|
    ensures forall i :: 0 < i < |Iteration(w, run, k)| ==> Iteration(w, run, k)[i].role != Assistant
  {
    hide MessagesForResponse;
    AnswerAtHead(w, run.responses[k - 1], run);
    ResponseIsPaired(w, run.responses[k - 1], run);
  }

  /** The messages of `at` iterations lead those of more. */
  lemma {:induction false} IterationsLead(w: Wording, run: Run, at: nat, k: nat)
    requires at <= k <= |run.responses|
    ensures Iterations(w, run, at) <= Iterations(w, run, k)
  {
    hide Iteration;
    if at < k {
      IterationsLead(w, run, at, k - 1);
    }
  }

  /** Message `m` of `ms` holds the block, behind `n` answers. */
  ghost predicate HeldBehind(ms: seq<Message>, m: nat, block: string, n: nat) {
    m < |ms| && Holds(ms[m], block) && |AssistantsOf(ms[..m])| == n
  }

  lemma {:induction false} DeliveredInPlace(w: Wording, run: Run, x: nat) returns (m: nat)
    requires x < |run.overlays| && 0 < run.overlays[x].afterResponses <= |run.responses|
    ensures var at := run.overlays[x].afterResponses;
            HeldBehind(OpenRunMessages(w, run), m, w.overlayBlock(run.overlays[x].event),
                       LoudCount(run.responses[..at]))
  {
    hide MessagesForResponse, WithOverlays, Iterations, Holds, LoudCount;
    var at, block := run.overlays[x].afterResponses, w.overlayBlock(run.overlays[x].event);
    var j := DeliveredThere(run.overlays, x);
    DeliveryHeld(w, MessagesForResponse(w, run.responses[at - 1], run), DeliveredAfter(run.overlays, at), j);
    var before, ms := Iterations(w, run, at - 1), Iteration(w, run, at);
    var q: nat :| q < |ms| && Holds(ms[q], block);
    NotAnAnswer(ms[q], block);
    BehindItsAnswer(w, run, at, q);
    AnswersCount(w, run, at);
    IterationsLead(w, run, at, |run.responses|);
    IterationsStep(w, run, at);
    AssistantsConcat(before, ms);
    AssistantsConcat(before, ms[..q]);
    var open := OpenRunMessages(w, run);
    m := |before| + q;
    assert open[..|before| + |ms|] == before + ms;
    assert open[..m] == before + ms[..q];
  }

  lemma NotAnAnswer(m: Message, block: string)
    requires Holds(m, block)
    ensures m.role != Assistant
  {
  }

  lemma IterationsStep(w: Wording, run: Run, k: nat)
    requires 0 < k <= |run.responses|
    ensures Iterations(w, run, k) == Iterations(w, run, k - 1) + Iteration(w, run, k)
  {
  }

  lemma {:induction false} UnplacedAtEnd(w: Wording, run: Run, x: nat) returns (m: nat)
    requires x < |run.overlays| && run.overlays[x].afterResponses == 0
    ensures HeldBehind(OpenRunMessages(w, run), m, w.overlayBlock(run.overlays[x].event),
                       |AssistantsOf(OpenRunMessages(w, run))|)
  {
    hide Iterations, Holds;
    var j := DeliveredThere(run.overlays, x);
    var ds := DeliveredAfter(run.overlays, 0);
    var before, ms := Iterations(w, run, |run.responses|), OverlayMessages(w, ds);
    UnplacedHeld(w, ds, j);
    m := |before| + j;
    var open := OpenRunMessages(w, run);
    assert open == before + ms && open[..m] == before + ms[..j];
    NoAssistants(ms);
    NoAssistants(ms[..j]);
    AssistantsConcat(before, ms);
    AssistantsConcat(before, ms[..j]);
  }

  lemma {:induction false} UnplacedHeld(w: Wording, ds: seq<OverlayEvent>, j: nat)
    requires j < |ds|
    ensures Holds(OverlayMessages(w, ds)[j], w.overlayBlock(ds[j]))
  {
    var m, block := OverlayMessages(w, ds)[j], w.overlayBlock(ds[j]);
    assert T.OccursAt(TextOf(m.content[0]), block, 0);
  }

  /**
   * An overlay stands where the live run had it: some message of the span holds its block behind exactly the
   * answers recorded before it, or behind all when no response was.
   */
  lemma {:induction false} OverlayStandsInPlace(w: Wording, events: seq<Event>, runId: string, i: nat) returns (m: nat)
    requires i < InnerLength(events, runId) && events[i].ConnectorSkillInjected?
    ensures var open := OpenSpan(w, events, runId);
            HeldBehind(open, m, w.overlayBlock(events[i]),
                       if Count(events[..i], Responds(runId)) > 0 then Count(events[..i], Speaks(runId))
                       else |AssistantsOf(open)|)
  {
    hide OpenRunMessages, Collect, InnerLength, HeldBehind, LoudCount;
    var inner := events[..InnerLength(events, runId)];
    InnerOfInner(events, runId);
    assert inner[..|inner|] == inner && inner[..i] == events[..i];
    var run := Collect(inner, runId);
    assert OpenSpan(w, events, runId) == OpenRunMessages(w, run);
    var x := OverlayCounted(inner, runId, i);
    var before := Collect(inner[..i], runId).responses;
    ResponsesCounted(inner[..i], runId);
    if run.overlays[x].afterResponses == 0 {
      m := UnplacedAtEnd(w, run, x);
    } else {
      GatheredGrows(inner, runId, i);
      assert run.responses[..|before|] == before;
      SpokenBefore(inner[..i], runId);
      m := DeliveredInPlace(w, run, x);
    }
  }

  lemma {:induction false} ResponsesCounted(inner: seq<Event>, runId: string)
    ensures |Collect(inner, runId).responses| == Count(inner, Responds(runId))
  {
    if inner != [] {
      ResponsesCounted(inner[..|inner| - 1], runId);
    }
  }
}
