/**
 * The text of what a run carries: every overlay its span delivered stands in a message, and a message
 * that names skills holds the blocks of exactly those deliveries.
 */
module OverlayText {
  import opened Prelude
  import opened ConversationTypes
  import opened SkillDelivery
  import opened Replay
  import opened OverlayConservation
  import opened CompactionReplay
  import T = Text

  function TextOf(p: Part): string {
    match p
    case Text(text, _, _) => text
    case ToolResult(_, _, output) => output
    case _ => []
  }

  /** The message's one part holds `block` in its text. */
  ghost predicate Holds(m: Message, block: string) {
    m.role != Assistant && |m.content| == 1 && T.Contains(TextOf(m.content[0]), block)
  }

  ghost predicate Held(ms: seq<Message>, block: string) {
    exists i :: 0 <= i < |ms| && Holds(ms[i], block)
  }

  lemma {:induction false} HeldIn(a: seq<Message>, b: seq<Message>, block: string)
    requires Held(a, block) || Held(b, block)
    ensures Held(a + b, block)
  {
    if Held(a, block) {
      var i :| 0 <= i < |a| && Holds(a[i], block);
      assert (a + b)[i] == a[i];
    } else {
      var i :| 0 <= i < |b| && Holds(b[i], block);
      assert (a + b)[|a| + i] == b[i];
    }
  }

  // ------------------------------------------------------------------ every overlay is shown

  lemma {:induction false} ListedOverlayHeld(w: Wording, es: seq<OverlayEvent>, j: nat)
    requires j < |es|
    ensures Held(OverlayMessages(w, es), w.overlayBlock(es[j]))
  {
    var m, block := OverlayMessages(w, es)[j], w.overlayBlock(es[j]);
    assert m == OverlayMessage(w, es[j]);
    assert T.OccursAt(TextOf(m.content[0]), block, 0);
    assert Holds(m, block);
  }

  lemma {:induction false} BlockAt(block: OverlayEvent -> string, ds: seq<OverlayEvent>, j: nat)
    requires j < |ds|
    ensures |Blocks(block, ds)| == |ds| && Blocks(block, ds)[j] == block(ds[j])
  {
    if j > 0 {
      BlockAt(block, ds[1..], j - 1);
    } else if |ds| > 1 {
      BlockAt(block, ds[1..], 0);
    }
  }

  /** A result with guidance holds the block of each delivery it carries. */
  lemma {:induction false} GuidedHolds(block: OverlayEvent -> string, part: Part, ds: seq<OverlayEvent>, j: nat)
    requires part.ToolResult? && j < |ds|
    ensures T.Contains(WithGuidance(block, part, ds).output, block(ds[j]))
  {
    BlockAt(block, ds, j);
    var parts := [part.output] + Blocks(block, ds);
    var pre, post := T.JoinContains(parts, "\n\n", j + 1);
    assert T.OccursAt(WithGuidance(block, part, ds).output, block(ds[j]), |pre|);
  }

  lemma {:induction false} ResultWithId(ms: seq<Message>, id: string) returns (i: nat)
    requires id in ResultIds(ms)
    ensures i < |ms| && IsToolResult(ms[i]) && ms[i].content[0].id == id
  {
    if IsToolResult(ms[0]) && ms[0].content[0].id == id {
      i := 0;
    } else {
      i := ResultWithId(ms[1..], id);
      i := i + 1;
    }
  }

  lemma {:induction false} CarriedByTarget(ids: seq<string>, ds: seq<OverlayEvent>, j: nat) returns (k: nat)
    requires ids != [] && j < |ds|
    ensures k < |CarriedBy(ids, ds, Target(ids, ds[j]))| && CarriedBy(ids, ds, Target(ids, ds[j]))[k] == ds[j]
  {
    if j == 0 {
      k := 0;
    } else {
      k := CarriedByTarget(ids, ds[1..], j - 1);
      if Target(ids, ds[0]) == Target(ids, ds[j]) {
        k := k + 1;
      }
    }
  }

  lemma {:induction false} DeliveryHeld(w: Wording, emitted: seq<Message>, ds: seq<OverlayEvent>, j: nat)
    requires j < |ds|
    ensures Held(WithOverlays(w, emitted, ds), w.overlayBlock(ds[j]))
  {
    var ids, block := ResultIds(emitted), w.overlayBlock(ds[j]);
    var g := GuidanceByToolCall(ids, ds);
    if ids == [] {
      ListedOverlayHeld(w, ds, j);
      HeldIn(emitted, OverlayMessages(w, ds), block);
    } else {
      GuidedDeliveryHeld(w, emitted, ds, j);
      assert Target(ids, ds[|ds| - 1]) in g;
    }
  }

  lemma {:induction false} GuidedDeliveryHeld(w: Wording, emitted: seq<Message>, ds: seq<OverlayEvent>, j: nat)
    requires j < |ds| && ResultIds(emitted) != []
    ensures Held(CarryAll(w, emitted, GuidanceByToolCall(ResultIds(emitted), ds)), w.overlayBlock(ds[j]))
  {
    hide WithGuidance, GuidanceByToolCall, CarriedBy, ResultIds, T.Contains;
    var ids := ResultIds(emitted);
    var g, target := GuidanceByToolCall(ids, ds), Target(ids, ds[j]);
    var k := CarriedByTarget(ids, ds, j);
    GuidanceIsCarried(ids, ds, target);
    var i := ResultWithId(emitted, target);
    GuidedIsResult(w, emitted[i].content[0], g[target]);
    GuidedHolds(w.overlayBlock, emitted[i].content[0], g[target], k);
    var m := CarryAll(w, emitted, g)[i];
    assert m == CarryGuidance(w, emitted[i], g);
    assert Holds(m, w.overlayBlock(ds[j]));
  }

  lemma {:induction false} GuidedIsResult(w: Wording, part: Part, ds: seq<OverlayEvent>)
    requires part.ToolResult?
    ensures WithGuidance(w.overlayBlock, part, ds).ToolResult?
  {
  }

  /** The overlays delivered after `k` responses include each that was. */
  lemma {:induction false} DeliveredThere(overlays: seq<Overlay>, x: nat) returns (j: nat)
    requires x < |overlays|
    ensures var ds := DeliveredAfter(overlays, overlays[x].afterResponses); j < |ds| && ds[j] == overlays[x].event
  {
    if x == 0 {
      j := 0;
    } else {
      j := DeliveredThere(overlays[1..], x - 1);
      if overlays[0].afterResponses == overlays[x].afterResponses {
        j := j + 1;
      }
    }
  }

  lemma {:induction false} IterationsHold(w: Wording, run: Run, k: nat, at: nat, block: string)
    requires 0 < at <= k <= |run.responses| && Held(Iteration(w, run, at), block)
    ensures Held(Iterations(w, run, k), block)
  {
    hide Iteration, Held;
    if at < k {
      IterationsHold(w, run, k - 1, at, block);
    }
    HeldIn(Iterations(w, run, k - 1), Iteration(w, run, k), block);
  }

  lemma {:induction false} ClosedHolds(w: Wording, ms: seq<Message>, ts: int, block: string)
    requires Held(ms, block)
    ensures Held(CloseCancelled(w, ms, ts), block)
  {
    var i :| 0 <= i < |ms| && Holds(ms[i], block);
    assert CloseCancelled(w, ms, ts)[i] == ms[i];
  }

  lemma {:induction false} RunHolds(w: Wording, run: Run, cancelledAt: Option<int>, x: nat)
    requires x < |run.overlays| && Placed(run)
    ensures Held(RunMessages(w, run, cancelledAt), w.overlayBlock(run.overlays[x].event))
  {
    hide Held, MessagesForResponse, WithOverlays, CloseCancelled;
    var at, n := run.overlays[x].afterResponses, |run.responses|;
    var block := w.overlayBlock(run.overlays[x].event);
    var j := DeliveredThere(run.overlays, x);
    if at == 0 {
      ListedOverlayHeld(w, DeliveredAfter(run.overlays, 0), j);
    } else {
      DeliveryHeld(w, MessagesForResponse(w, run.responses[at - 1], run), DeliveredAfter(run.overlays, at), j);
      IterationsHold(w, run, n, at, block);
    }
    HeldIn(Iterations(w, run, n), OverlayMessages(w, DeliveredAfter(run.overlays, 0)), block);
    if cancelledAt.Some? {
      ClosedHolds(w, OpenRunMessages(w, run), cancelledAt.value, block);
    }
  }

  lemma {:induction false} CollectedThere(inner: seq<Event>, runId: string, i: nat) returns (x: nat)
    requires i < |inner| && inner[i].ConnectorSkillInjected?
    ensures x < |Collect(inner, runId).overlays| && Collect(inner, runId).overlays[x].event == inner[i]
  {
    var n := |inner| - 1;
    var before := Collect(inner[..n], runId);
    if i == n {
      x := |before.overlays|;
    } else {
      x := CollectedThere(inner[..n], runId, i);
      assert before.overlays <= Collect(inner, runId).overlays;
    }
  }

  /** Whatever the span and wherever in it an overlay was delivered, its block stands in one of the run's messages. */
  lemma {:induction false} OverlayIsShown(w: Wording, events: seq<Event>, runId: string, i: nat)
    requires i < InnerLength(events, runId) && events[i].ConnectorSkillInjected?
    ensures Held(SpanMessages(w, events, runId), w.overlayBlock(events[i]))
  {
    hide RunMessages, Held;
    var inner := events[..InnerLength(events, runId)];
    var x := CollectedThere(inner, runId, i);
    CollectedPlaces(inner, runId);
    RunHolds(w, Collect(inner, runId), CancelledAt(events, runId), x);
  }

  // ------------------------------------------------------------------ what is named is shown

  /** A result that carries deliveries of `inner` and no others, in order, after its own text. */
  ghost predicate Carries(w: Wording, m: Message, inner: seq<Event>, ds: seq<OverlayEvent>, part: Part) {
    && part.ToolResult? && (forall d :: d in ds ==> d in inner)
    && m.metadata.connectorSkills == Skills(ds) && m.content == [WithGuidance(w.overlayBlock, part, ds)]
  }

  /** What the message names it shows: an overlay message its block, a result the blocks of its skills. */
  ghost predicate Truthful(w: Wording, m: Message, inner: seq<Event>) {
    && (m.role == Assistant ==> Plain(m))
    && (IsOverlay(m) ==> exists e: Event :: e in inner && e.ConnectorSkillInjected? && m == OverlayMessage(w, e))
    && (!IsOverlay(m) && m.metadata.connectorSkills != [] ==> exists ds, part :: Carries(w, m, inner, ds, part))
  }

  ghost predicate AllTruthful(w: Wording, ms: seq<Message>, inner: seq<Event>) {
    forall i :: 0 <= i < |ms| ==> Truthful(w, ms[i], inner)
  }

  predicate Plain(m: Message) {
    !IsOverlay(m) && m.metadata.connectorSkills == []
  }

  lemma {:induction false} EmittedPlain(w: Wording, e: LlmResponseEvent, run: Run)
    ensures forall i :: 0 <= i < |MessagesForResponse(w, e, run)| ==> Plain(MessagesForResponse(w, e, run)[i])
  {
    var calls := ExecutedCalls(e.content, run);
    var replay := NormalizeForReplay(DropOrphans(e.content, run));
    var ms := MessagesForResponse(w, e, run);
    if HasText(replay) || calls != [] {
      assert ms[1..] == ToolResultMessages(w, calls, run);
      forall i | 0 < i < |ms| ensures Plain(ms[i]) {
        assert ms[i] == ms[1..][i - 1] == ToolResultMessage(w, calls[i - 1], run);
      }
    }
  }

  lemma {:induction false} CarriedAreOf(ids: seq<string>, ds: seq<OverlayEvent>, id: string)
    requires ids != []
    ensures forall d :: d in CarriedBy(ids, ds, id) ==> d in ds
  {
    if ds != [] {
      CarriedAreOf(ids, ds[1..], id);
    }
  }

  lemma {:induction false} GuidedIsTruthful(
    w: Wording, m: Message, ids: seq<string>, ds: seq<OverlayEvent>, inner: seq<Event>)
    requires Plain(m) && ids != [] && forall d :: d in ds ==> d in inner
    ensures Truthful(w, CarryGuidance(w, m, GuidanceByToolCall(ids, ds)), inner)
  {
    if IsToolResult(m) {
      var id := m.content[0].id;
      GuidanceIsCarried(ids, ds, id);
      CarriedAreOf(ids, ds, id);
      if id in GuidanceByToolCall(ids, ds) {
        var carried := GuidanceByToolCall(ids, ds)[id];
        assert Carries(w, CarryGuidance(w, m, GuidanceByToolCall(ids, ds)), inner, carried, m.content[0]);
      }
    }
  }

  lemma {:induction false} OverlaysTruthful(w: Wording, es: seq<OverlayEvent>, inner: seq<Event>)
    requires forall d :: d in es ==> d in inner
    ensures AllTruthful(w, OverlayMessages(w, es), inner)
  {
    forall i | 0 <= i < |es| ensures Truthful(w, OverlayMessages(w, es)[i], inner) {
      assert es[i] in inner && OverlayMessages(w, es)[i] == OverlayMessage(w, es[i]);
    }
  }

  lemma {:induction false} IterationTruthful(
    w: Wording, emitted: seq<Message>, ds: seq<OverlayEvent>, inner: seq<Event>)
    requires forall i :: 0 <= i < |emitted| ==> Plain(emitted[i])
    requires forall d :: d in ds ==> d in inner
    ensures AllTruthful(w, WithOverlays(w, emitted, ds), inner)
  {
    var ids := ResultIds(emitted);
    if ids == [] {
      OverlaysTruthful(w, ds, inner);
    } else {
      forall i | 0 <= i < |emitted|
        ensures Truthful(w, CarryGuidance(w, emitted[i], GuidanceByToolCall(ids, ds)), inner)
      {
        GuidedIsTruthful(w, emitted[i], ids, ds, inner);
      }
    }
  }

  lemma {:induction false} DeliveredAreOf(overlays: seq<Overlay>, k: nat, inner: seq<Event>)
    requires forall i :: 0 <= i < |overlays| ==> overlays[i].event in inner
    ensures forall d :: d in DeliveredAfter(overlays, k) ==> d in inner
  {
    if overlays != [] {
      DeliveredAreOf(overlays[1..], k, inner);
    }
  }

  lemma {:induction false} IterationsTruthful(w: Wording, run: Run, k: nat, inner: seq<Event>)
    requires k <= |run.responses| && forall i :: 0 <= i < |run.overlays| ==> run.overlays[i].event in inner
    ensures AllTruthful(w, Iterations(w, run, k), inner)
  {
    hide MessagesForResponse, WithOverlays, Truthful;
    if k > 0 {
      IterationsTruthful(w, run, k - 1, inner);
      EmittedPlain(w, run.responses[k - 1], run);
      DeliveredAreOf(run.overlays, k, inner);
      IterationTruthful(w, MessagesForResponse(w, run.responses[k - 1], run), DeliveredAfter(run.overlays, k), inner);
      assert Iterations(w, run, k) == Iterations(w, run, k - 1) + Iteration(w, run, k);
    }
  }

  lemma {:induction false} ClosedTruthful(w: Wording, ms: seq<Message>, ts: int, inner: seq<Event>)
    requires AllTruthful(w, ms, inner)
    ensures AllTruthful(w, CloseCancelled(w, ms, ts), inner)
  {
    var closed := CloseCancelled(w, ms, ts);
    forall i | 0 <= i < |closed| ensures Truthful(w, closed[i], inner) {
      if i < |ms| && closed[i] == ms[i] {
        assert Truthful(w, ms[i], inner);
      } else {
        assert Plain(closed[i]);
      }
    }
  }

  /**
   * A run's messages name no overlay they do not show: each overlay message is one the span delivered,
   * and each result holds, after its own text, the blocks of exactly the deliveries whose skills it names.
   */
  lemma {:induction false} SpanIsTruthful(w: Wording, events: seq<Event>, runId: string)
    ensures AllTruthful(w, SpanMessages(w, events, runId), events[..InnerLength(events, runId)])
  {
    hide Truthful, Iterations;
    var inner := events[..InnerLength(events, runId)];
    var run, cancelledAt := Collect(inner, runId), CancelledAt(events, runId);
    CollectedOverlays(inner, runId);
    IterationsTruthful(w, run, |run.responses|, inner);
    DeliveredAreOf(run.overlays, 0, inner);
    OverlaysTruthful(w, DeliveredAfter(run.overlays, 0), inner);
    if cancelledAt.Some? {
      ClosedTruthful(w, OpenRunMessages(w, run), cancelledAt.value, inner);
    }
  }
}
