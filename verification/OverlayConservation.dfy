/**
 * What a run's messages carry of the overlays its span delivered: none is lost, and one is doubled exactly
 * when the call that carries it has several results.
 */
module OverlayConservation {
  import opened Prelude
  import opened ConversationTypes
  import opened SkillDelivery
  import opened Replay
  import opened ReplayWellFormed

  function One(name: string, n: string): nat {
    if name == n then 1 else 0
  }

  function Occurrences(names: seq<string>, n: string): nat {
    if names == [] then 0 else One(names[0], n) + Occurrences(names[1..], n)
  }

  /** How many of the deliveries are of skill `n`. */
  function Names(n: string, es: seq<OverlayEvent>): nat {
    if es == [] then 0 else One(es[0].skillName, n) + Names(n, es[1..])
  }

  /** How often a message carries skill `n`. */
  function CarriedIn(n: string, m: Message): nat {
    if IsOverlay(m) && m.metadata.skill.Some? then One(m.metadata.skill.value, n)
    else Occurrences(m.metadata.connectorSkills, n)
  }

  function Carried(n: string, ms: seq<Message>): nat {
    if ms == [] then 0 else CarriedIn(n, ms[0]) + Carried(n, ms[1..])
  }

  lemma {:induction false} CarriedConcat(n: string, a: seq<Message>, b: seq<Message>)
    ensures Carried(n, a + b) == Carried(n, a) + Carried(n, b)
  {
    if a == [] {
      assert a + b == b;
    } else {
      assert (a + b)[1..] == a[1..] + b;
      CarriedConcat(n, a[1..], b);
    }
  }

  lemma {:induction false} CarriesNothing(n: string, ms: seq<Message>)
    requires forall i :: 0 <= i < |ms| ==> CarriedIn(n, ms[i]) == 0
    ensures Carried(n, ms) == 0
  {
    if ms != [] {
      CarriesNothing(n, ms[1..]);
    }
  }

  lemma {:induction false} SkillsAreNames(n: string, es: seq<OverlayEvent>)
    ensures Occurrences(Skills(es), n) == Names(n, es)
  {
    if es != [] {
      SkillsAreNames(n, es[1..]);
      assert Skills(es) == [es[0].skillName] + Skills(es[1..]);
    }
  }

  lemma {:induction false} OverlayMessagesCarry(n: string, w: Wording, es: seq<OverlayEvent>)
    ensures Carried(n, OverlayMessages(w, es)) == Names(n, es)
  {
    if es != [] {
      OverlayMessagesCarry(n, w, es[1..]);
      var ms := OverlayMessages(w, es);
      assert ms[1..] == OverlayMessages(w, es[1..]);
      assert CarriedIn(n, ms[0]) == One(es[0].skillName, n);
    }
  }

  // ------------------------------------------------------------------ one iteration

  /** How many of the results of the calls `ids` carry `d`: each one of its target; or its own message does. */
  function Bearers(ids: seq<string>, d: OverlayEvent): nat {
    if ids == [] then 1 else Occurrences(ids, Target(ids, d))
  }

  lemma {:induction false} OccursIfIn(ids: seq<string>, id: string)
    ensures Occurrences(ids, id) > 0 <==> id in ids
  {
    if ids != [] {
      OccursIfIn(ids[1..], id);
      assert ids == [ids[0]] + ids[1..];
    }
  }

  /** How often the calls `ids` carry skill `n` of the deliveries `ds`. */
  function Borne(n: string, ids: seq<string>, ds: seq<OverlayEvent>): nat {
    if ds == [] then 0 else One(ds[0].skillName, n) * Bearers(ids, ds[0]) + Borne(n, ids, ds[1..])
  }

  lemma {:induction false} BorneByThemselves(n: string, ds: seq<OverlayEvent>)
    ensures Borne(n, [], ds) == Names(n, ds)
  {
    if ds != [] {
      BorneByThemselves(n, ds[1..]);
    }
  }

  /** How often the calls `sub` carry skill `n` of the deliveries `ds` to the calls `ids`. */
  function CarriedBySome(n: string, ids: seq<string>, ds: seq<OverlayEvent>, sub: seq<string>): nat
    requires ids != []
  {
    if sub == [] then 0 else Names(n, CarriedBy(ids, ds, sub[0])) + CarriedBySome(n, ids, ds, sub[1..])
  }

  lemma {:induction false} OneMore(n: string, ids: seq<string>, ds: seq<OverlayEvent>, sub: seq<string>)
    requires ids != [] && ds != []
    ensures CarriedBySome(n, ids, ds, sub) ==
        CarriedBySome(n, ids, ds[1..], sub) + One(ds[0].skillName, n) * Occurrences(sub, Target(ids, ds[0]))
  {
    if sub != [] {
      OneMore(n, ids, ds, sub[1..]);
    }
  }

  lemma {:induction false} CallsCarryAll(n: string, ids: seq<string>, ds: seq<OverlayEvent>)
    requires ids != []
    ensures CarriedBySome(n, ids, ds, ids) == Borne(n, ids, ds)
  {
    if ds == [] {
      NothingCarried(n, ids, ids);
    } else {
      CallsCarryAll(n, ids, ds[1..]);
      OneMore(n, ids, ds, ids);
    }
  }

  lemma {:induction false} NothingCarried(n: string, ids: seq<string>, sub: seq<string>)
    requires ids != []
    ensures CarriedBySome(n, ids, [], sub) == 0
  {
    if sub != [] {
      NothingCarried(n, ids, sub[1..]);
    }
  }

  lemma CarriedInResult(n: string, w: Wording, m: Message, ids: seq<string>, ds: seq<OverlayEvent>)
    requires ids != [] && CarriedIn(n, m) == 0 && !IsOverlay(m)
    ensures CarriedIn(n, CarryGuidance(w, m, GuidanceByToolCall(ids, ds)))
         == if IsToolResult(m) then Names(n, CarriedBy(ids, ds, m.content[0].id)) else 0
  {
    if IsToolResult(m) {
      GuidanceIsCarried(ids, ds, m.content[0].id);
      SkillsAreNames(n, CarriedBy(ids, ds, m.content[0].id));
    }
  }

  lemma {:induction false} CarriedInAll(
    n: string, w: Wording, ms: seq<Message>, ids: seq<string>, ds: seq<OverlayEvent>)
    requires ids != []
    requires forall i :: 0 <= i < |ms| ==> CarriedIn(n, ms[i]) == 0 && !IsOverlay(ms[i])
    ensures Carried(n, CarryAll(w, ms, GuidanceByToolCall(ids, ds))) == CarriedBySome(n, ids, ds, ResultIds(ms))
  {
    if ms != [] {
      CarriedInAll(n, w, ms[1..], ids, ds);
      CarriedInResult(n, w, ms[0], ids, ds);
      var g := GuidanceByToolCall(ids, ds);
      assert CarryAll(w, ms, g)[1..] == CarryAll(w, ms[1..], g);
    }
  }

  lemma IterationCarries(n: string, w: Wording, emitted: seq<Message>, ds: seq<OverlayEvent>)
    requires forall i :: 0 <= i < |emitted| ==> CarriedIn(n, emitted[i]) == 0 && !IsOverlay(emitted[i])
    ensures Carried(n, WithOverlays(w, emitted, ds)) == Borne(n, ResultIds(emitted), ds)
  {
    var ids := ResultIds(emitted);
    CarriesNothing(n, emitted);
    if ds != [] {
      if ids == [] {
        CarriedConcat(n, emitted, OverlayMessages(w, ds));
        OverlayMessagesCarry(n, w, ds);
        BorneByThemselves(n, ds);
      } else {
        assert GuidanceByToolCall(ids, ds) != map[] by {
          var last := ds[|ds| - 1];
          assert Target(ids, last) in GuidanceByToolCall(ids, ds);
        }
        CarriedInAll(n, w, emitted, ids, ds);
        CallsCarryAll(n, ids, ds);
      }
    }
  }

  // ------------------------------------------------------------------ the emitted messages

  lemma {:induction false} ResultIdsAre(w: Wording, calls: seq<Part>, run: Run)
    requires forall i :: 0 <= i < |calls| ==> calls[i].ToolCall? && calls[i].id in run.toolDones
    ensures ResultIds(ToolResultMessages(w, calls, run)) == CallIds(calls)
  {
    if calls != [] {
      ResultIdsAre(w, calls[1..], run);
      var ms := ToolResultMessages(w, calls, run);
      assert ms[1..] == ToolResultMessages(w, calls[1..], run);
    }
  }

  /** The ids of the response's calls that returned: the ids of the results its messages hold. */
  function ReturnedIds(e: LlmResponseEvent, run: Run): seq<string> {
    CallIds(ExecutedCalls(e.content, run))
  }

  lemma PlainlyEmitted(n: string, w: Wording, e: LlmResponseEvent, run: Run)
    ensures var ms := MessagesForResponse(w, e, run);
            && ResultIds(ms) == ReturnedIds(e, run)
            && forall i :: 0 <= i < |ms| ==> CarriedIn(n, ms[i]) == 0 && !IsOverlay(ms[i])
  {
    var calls := ExecutedCalls(e.content, run);
    var replay := NormalizeForReplay(DropOrphans(e.content, run));
    var ms := MessagesForResponse(w, e, run);
    if HasText(replay) || calls != [] {
      ResultIdsAre(w, calls, run);
      assert ms[1..] == ToolResultMessages(w, calls, run);
    } else if ms != [] {
      assert ms[1..] == [];
    }
  }

  // ------------------------------------------------------------------ a run

  /** The results an overlay delivered after `k` responses can ride. */
  function IdsAt(run: Run, k: nat): seq<string> {
    if 0 < k <= |run.responses| then ReturnedIds(run.responses[k - 1], run) else []
  }

  /** How often skill `n` is carried of what is delivered after at most `k` responses. */
  function BorneUpTo(n: string, run: Run, overlays: seq<Overlay>, k: nat): nat {
    Borne(n, IdsAt(run, k), DeliveredAfter(overlays, k)) + if k == 0 then 0 else BorneUpTo(n, run, overlays, k - 1)
  }

  /** How many messages of the run carry an overlay of it. */
  function BearersIn(run: Run, o: Overlay): nat {
    Bearers(IdsAt(run, o.afterResponses), o.event)
  }

  /** How often the run's messages carry skill `n` of the overlays. */
  function BorneInAll(n: string, run: Run, overlays: seq<Overlay>): nat {
    if overlays == [] then 0
    else One(overlays[0].event.skillName, n) * BearersIn(run, overlays[0]) + BorneInAll(n, run, overlays[1..])
  }

  function OverlayNames(n: string, overlays: seq<Overlay>): nat {
    if overlays == [] then 0 else One(overlays[0].event.skillName, n) + OverlayNames(n, overlays[1..])
  }

  lemma {:induction false} OneMoreOverlay(n: string, run: Run, overlays: seq<Overlay>, k: nat)
    requires overlays != []
    ensures BorneUpTo(n, run, overlays, k) == BorneUpTo(n, run, overlays[1..], k) +
        if overlays[0].afterResponses <= k then One(overlays[0].event.skillName, n) * BearersIn(run, overlays[0]) else 0
  {
    hide IdsAt, Bearers, One;
    if k > 0 {
      OneMoreOverlay(n, run, overlays, k - 1);
    }
    if overlays[0].afterResponses == k {
      assert DeliveredAfter(overlays, k)[1..] == DeliveredAfter(overlays[1..], k);
    }
  }

  lemma {:induction false} AllDelivered(n: string, run: Run, overlays: seq<Overlay>, k: nat)
    requires forall i :: 0 <= i < |overlays| ==> overlays[i].afterResponses <= k
    ensures BorneUpTo(n, run, overlays, k) == BorneInAll(n, run, overlays)
  {
    if overlays == [] {
      NoneDelivered(n, run, k);
    } else {
      OneMoreOverlay(n, run, overlays, k);
      AllDelivered(n, run, overlays[1..], k);
    }
  }

  lemma {:induction false} NoneDelivered(n: string, run: Run, k: nat)
    ensures BorneUpTo(n, run, [], k) == 0
  {
    if k > 0 {
      NoneDelivered(n, run, k - 1);
    }
  }

  lemma {:induction false} IterationsCarry(n: string, w: Wording, run: Run, k: nat)
    requires k <= |run.responses|
    ensures Carried(n, Iterations(w, run, k)) + Names(n, DeliveredAfter(run.overlays, 0)) ==
        BorneUpTo(n, run, run.overlays, k)
  {
    hide Iteration, IdsAt;
    if k > 0 {
      IterationsCarry(n, w, run, k - 1);
      ResponseCarries(n, w, run, k);
      CarriedConcat(n, Iterations(w, run, k - 1), Iteration(w, run, k));
    } else {
      NothingToRide(run);
      BorneByThemselves(n, DeliveredAfter(run.overlays, 0));
    }
  }

  lemma {:induction false} NothingToRide(run: Run)
    ensures IdsAt(run, 0) == []
  {
  }

  lemma ResponseCarries(n: string, w: Wording, run: Run, k: nat)
    requires 0 < k <= |run.responses|
    ensures Carried(n, Iteration(w, run, k)) == Borne(n, IdsAt(run, k), DeliveredAfter(run.overlays, k))
  {
    hide MessagesForResponse, WithOverlays;
    PlainlyEmitted(n, w, run.responses[k - 1], run);
    IterationCarries(n, w, MessagesForResponse(w, run.responses[k - 1], run), DeliveredAfter(run.overlays, k));
  }

  lemma ClosedCarries(n: string, w: Wording, ms: seq<Message>, ts: int)
    ensures Carried(n, CloseCancelled(w, ms, ts)) == Carried(n, ms)
  {
    var closed := CloseCancelled(w, ms, ts);
    if ms != [] && ms[|ms| - 1].role == Assistant {
      var k := |ms| - 1;
      assert ms == ms[..k] + [ms[k]] && closed == ms[..k] + [closed[k]];
      CarriedConcat(n, ms[..k], [ms[k]]);
      CarriedConcat(n, ms[..k], [closed[k]]);
      assert CarriedIn(n, ms[k]) == CarriedIn(n, closed[k]);
    } else {
      CarriedConcat(n, ms, [CancelledMessage(w, ts)]);
    }
  }

  lemma {:induction false} OneEventNames(n: string, run: Run, e: Event, runId: string)
    ensures OverlayNames(n, Accumulate(run, e, runId).overlays) == OverlayNames(n, run.overlays) + Injected(n, [e])
  {
    assert [e][1..] == [];
    if e.ConnectorSkillInjected? {
      var one := [Overlay(e, |run.responses|)];
      assert one[1..] == [];
      OverlayNamesConcat(n, run.overlays, one);
    }
  }

  lemma {:induction false} CollectedNames(n: string, inner: seq<Event>, runId: string)
    ensures OverlayNames(n, Collect(inner, runId).overlays) == Injected(n, inner)
  {
    if inner != [] {
      var k := |inner| - 1;
      var before := Collect(inner[..k], runId);
      CollectedNames(n, inner[..k], runId);
      assert inner == inner[..k] + [inner[k]];
      InjectedConcat(n, inner[..k], [inner[k]]);
      OneEventNames(n, before, inner[k], runId);
    }
  }

  /** Every overlay was delivered after some number of the run's own responses. */
  predicate Placed(run: Run) {
    forall i :: 0 <= i < |run.overlays| ==> run.overlays[i].afterResponses <= |run.responses|
  }

  lemma PlacesGrow(run: Run, e: Event, runId: string)
    requires Placed(run)
    ensures Placed(Accumulate(run, e, runId))
  {
    var next := Accumulate(run, e, runId);
    if e.ConnectorSkillInjected? {
      assert next.overlays == run.overlays + [Overlay(e, |run.responses|)] && next.responses == run.responses;
    } else {
      assert next.overlays == run.overlays && |run.responses| <= |next.responses|;
    }
  }

  lemma {:induction false} CollectedPlaces(inner: seq<Event>, runId: string)
    ensures Placed(Collect(inner, runId))
  {
    if inner != [] {
      CollectedPlaces(inner[..|inner| - 1], runId);
      PlacesGrow(Collect(inner[..|inner| - 1], runId), inner[|inner| - 1], runId);
    }
  }

  lemma {:induction false} OverlayNamesConcat(n: string, a: seq<Overlay>, b: seq<Overlay>)
    ensures OverlayNames(n, a + b) == OverlayNames(n, a) + OverlayNames(n, b)
  {
    if a == [] {
      assert a + b == b;
    } else {
      assert (a + b)[1..] == a[1..] + b;
      OverlayNamesConcat(n, a[1..], b);
    }
  }

  /** How often a stretch of log delivers skill `n`. */
  function Injected(n: string, events: seq<Event>): nat {
    if events == [] then 0
    else if events[0].ConnectorSkillInjected? then One(events[0].skillName, n) + Injected(n, events[1..])
    else Injected(n, events[1..])
  }

  lemma {:induction false} InjectedConcat(n: string, a: seq<Event>, b: seq<Event>)
    ensures Injected(n, a + b) == Injected(n, a) + Injected(n, b)
  {
    if a == [] {
      assert a + b == b;
    } else {
      assert (a + b)[1..] == a[1..] + b;
      InjectedConcat(n, a[1..], b);
    }
  }

  lemma RunCarries(n: string, w: Wording, run: Run, cancelledAt: Option<int>)
    requires Placed(run)
    ensures Carried(n, RunMessages(w, run, cancelledAt)) == BorneInAll(n, run, run.overlays)
  {
    hide Iterations;
    var k := |run.responses|;
    IterationsCarry(n, w, run, k);
    AllDelivered(n, run, run.overlays, k);
    CarriedConcat(n, Iterations(w, run, k), OverlayMessages(w, DeliveredAfter(run.overlays, 0)));
    OverlayMessagesCarry(n, w, DeliveredAfter(run.overlays, 0));
    if cancelledAt.Some? {
      ClosedCarries(n, w, OpenRunMessages(w, run), cancelledAt.value);
    }
  }

  /** Every overlay of skill `n` has one message that carries it. */
  predicate OnceEach(n: string, run: Run, overlays: seq<Overlay>) {
    forall i :: 0 <= i < |overlays| && overlays[i].event.skillName == n ==> BearersIn(run, overlays[i]) == 1
  }

  lemma {:induction false} BorneOnceOrMore(run: Run, o: Overlay)
    ensures BearersIn(run, o) > 0
  {
    var ids := IdsAt(run, o.afterResponses);
    if ids != [] {
      OccursIfIn(ids, Target(ids, o.event));
    }
  }

  /** Every overlay is carried, so the counts agree exactly when each is carried once. */
  lemma {:induction false} BorneAtLeastOnce(n: string, run: Run, overlays: seq<Overlay>)
    ensures BorneInAll(n, run, overlays) >= OverlayNames(n, overlays)
    ensures BorneInAll(n, run, overlays) == OverlayNames(n, overlays) <==> OnceEach(n, run, overlays)
  {
    hide BearersIn;
    if overlays != [] {
      var o, rest := overlays[0], overlays[1..];
      BorneAtLeastOnce(n, run, rest);
      BorneOnceOrMore(run, o);
      assert forall i :: 0 < i < |overlays| ==> overlays[i] == rest[i - 1];
      assert OnceEach(n, run, overlays) <==>
             (o.event.skillName == n ==> BearersIn(run, o) == 1) && OnceEach(n, run, rest);
    }
  }

  /**
   * Conservation: whatever the span (finished, cancelled, cut short) and wherever in it they were
   * delivered, the messages of a run carry each overlay of its span as often as its target has results,
   * which is never less than once; so they carry exactly what was delivered if and only if every overlay
   * that rides a result has a target with one result.
   */
  lemma SpanCarriesItsOverlays(n: string, w: Wording, events: seq<Event>, runId: string)
    ensures var inner := events[..InnerLength(events, runId)];
            var run, carried := Collect(inner, runId), Carried(n, SpanMessages(w, events, runId));
            && carried == BorneInAll(n, run, run.overlays)
            && carried >= Injected(n, inner)
            && (carried == Injected(n, inner) <==> OnceEach(n, run, run.overlays))
  {
    hide RunMessages, OnceEach;
    var inner := events[..InnerLength(events, runId)];
    CollectedNames(n, inner, runId);
    CollectedPlaces(inner, runId);
    RunCarries(n, w, Collect(inner, runId), CancelledAt(events, runId));
    BorneAtLeastOnce(n, Collect(inner, runId), Collect(inner, runId).overlays);
  }

  // ------------------------------------------------------------------ distinct calls

  predicate Distinct(ids: seq<string>) {
    forall i, j :: 0 <= i < j < |ids| ==> ids[i] != ids[j]
  }

  lemma {:induction false} DistinctTail(ids: seq<string>)
    requires ids != [] && Distinct(ids)
    ensures Distinct(ids[1..]) && ids[0] !in ids[1..]
  {
    assert forall i :: 0 <= i < |ids[1..]| ==> ids[1..][i] == ids[i + 1];
  }

  lemma {:induction false} DistinctOccurOnce(ids: seq<string>, id: string)
    requires Distinct(ids) && id in ids
    ensures Occurrences(ids, id) == 1
  {
    DistinctTail(ids);
    OccursIfIn(ids[1..], id);
    if id in ids[1..] {
      DistinctOccurOnce(ids[1..], id);
    }
  }

  lemma {:induction false} ExecutedIds(content: seq<Part>, run: Run)
    ensures forall id :: id in CallIds(ExecutedCalls(content, run)) ==> id in CallIds(content)
    ensures Distinct(CallIds(content)) ==> Distinct(CallIds(ExecutedCalls(content, run)))
  {
    if content != [] {
      ExecutedIds(content[1..], run);
      if content[0].ToolCall? && Distinct(CallIds(content)) {
        DistinctTail(CallIds(content));
        assert CallIds(content)[1..] == CallIds(content[1..]);
      }
    }
  }

  /** Where no response names one call id twice, every overlay is carried exactly once. */
  lemma DistinctCallsCarryOnce(n: string, w: Wording, events: seq<Event>, runId: string)
    requires forall i :: 0 <= i < InnerLength(events, runId) && events[i].LlmResponse? ==>
        Distinct(CallIds(events[i].content))
    ensures Carried(n, SpanMessages(w, events, runId)) == Injected(n, events[..InnerLength(events, runId)])
  {
    hide Carried, Injected, BorneInAll, SpanMessages, Collect;
    SpanCarriesItsOverlays(n, w, events, runId);
    var inner := events[..InnerLength(events, runId)];
    var run := Collect(inner, runId);
    CollectedResponses(inner, runId);
    forall i | 0 <= i < |run.overlays| ensures BearersIn(run, run.overlays[i]) == 1 {
      var k, o := run.overlays[i].afterResponses, run.overlays[i].event;
      var ids := IdsAt(run, k);
      if ids != [] {
        assert run.responses[k - 1] in inner;
        ExecutedIds(run.responses[k - 1].content, run);
        DistinctOccurOnce(ids, Target(ids, o));
      }
    }
  }

  lemma {:induction false} CollectedResponses(inner: seq<Event>, runId: string)
    ensures forall i :: 0 <= i < |Collect(inner, runId).responses| ==> Collect(inner, runId).responses[i] in inner
  {
    if inner != [] {
      CollectedResponses(inner[..|inner| - 1], runId);
      assert inner == inner[..|inner| - 1] + [inner[|inner| - 1]];
    }
  }
}
