/**
 * Compaction and replay agree: the list a fold returns in memory is the list a reload rebuilds from
 * the log with the fold's event appended.
 */
module CompactionReplay {
  import opened Prelude
  import opened ConversationTypes
  import opened Compaction
  import opened Replay
  import opened ReplayStability
  import opened ReplayWellFormed

  // ------------------------------------------------------------------ time order

  /** Timestamps never run backwards. */
  predicate Chronological(events: seq<Event>) {
    forall i, j :: 0 <= i < j < |events| ==> events[i].ts <= events[j].ts
  }

  /** Nothing before a user message at `b` shares its timestamp. */
  predicate SharpAt(events: seq<Event>, b: int) {
    forall i, j :: 0 <= i < j < |events| && events[j].UserMessage? && events[j].ts == b ==> events[i].ts < b
  }

  predicate StrictlyChronological(events: seq<Event>) {
    forall i, j :: 0 <= i < j < |events| ==> events[i].ts < events[j].ts
  }

  predicate Survives(e: Event, boundary: Option<int>) {
    !e.HistoryCompacted? && (boundary.Some? ==> e.ts >= boundary.value)
  }

  lemma {:induction false} TailMembers(events: seq<Event>, boundary: Option<int>)
    ensures forall e :: e in Tail(events, boundary) <==> e in events && Survives(e, boundary)
  {
    if events != [] {
      TailMembers(events[1..], boundary);
      assert events == [events[0]] + events[1..];
    }
  }

  /** Two events of the tail stand in the log in the same order. */
  lemma {:induction false} TailOrigins(events: seq<Event>, boundary: Option<int>, i: nat, j: nat)
    returns (x: nat, y: nat)
    requires i < j < |Tail(events, boundary)|
    ensures x < y < |events|
    ensures events[x] == Tail(events, boundary)[i] && events[y] == Tail(events, boundary)[j]
  {
    if !Survives(events[0], boundary) {
      x, y := TailOrigins(events[1..], boundary, i, j);
      x, y := x + 1, y + 1;
    } else if i == 0 {
      TailMembers(events[1..], boundary);
      assert Tail(events[1..], boundary)[j - 1] in events[1..];
      y :| y < |events| - 1 && events[1..][y] == Tail(events[1..], boundary)[j - 1];
      x, y := 0, y + 1;
    } else {
      x, y := TailOrigins(events[1..], boundary, i - 1, j - 1);
      x, y := x + 1, y + 1;
    }
  }

  /** Where a tail event at `b` is a user message of a sharp log, the tail splits by time as by position. */
  lemma TailSplitsAt(events: seq<Event>, first: Option<int>, p: nat)
    requires p < |Tail(events, first)| && Tail(events, first)[p].UserMessage?
    requires Chronological(events) && SharpAt(events, Tail(events, first)[p].ts)
    ensures forall i :: 0 <= i < p ==> Tail(events, first)[i].ts < Tail(events, first)[p].ts
    ensures forall i :: p <= i < |Tail(events, first)| ==>
        Survives(Tail(events, first)[i], Some(Tail(events, first)[p].ts))
  {
    var tail := Tail(events, first);
    forall i | 0 <= i < p ensures tail[i].ts < tail[p].ts {
      var x, y := TailOrigins(events, first, i, p);
    }
    TailMembers(events, first);
    forall i | p <= i < |tail| ensures Survives(tail[i], Some(tail[p].ts)) {
      assert tail[i] in tail;
      if p < i {
        var x, y := TailOrigins(events, first, p, i);
      }
    }
  }

  lemma {:induction false} TailOfTail(events: seq<Event>, first: Option<int>, b: int)
    requires first.Some? ==> first.value <= b
    ensures Tail(Tail(events, first), Some(b)) == Tail(events, Some(b))
  {
    if events != [] {
      TailOfTail(events[1..], first, b);
    }
  }

  lemma {:induction false} TailNone(events: seq<Event>, b: int)
    requires forall i :: 0 <= i < |events| ==> events[i].ts < b
    ensures Tail(events, Some(b)) == []
  {
    if events != [] {
      TailNone(events[1..], b);
    }
  }

  lemma {:induction false} TailAll(events: seq<Event>, boundary: Option<int>)
    requires forall i :: 0 <= i < |events| ==> Survives(events[i], boundary)
    ensures Tail(events, boundary) == events
  {
    if events != [] {
      TailAll(events[1..], boundary);
    }
  }

  lemma TailCut(tail: seq<Event>, p: nat, b: int)
    requires p <= |tail|
    requires forall i :: 0 <= i < p ==> tail[i].ts < b
    requires forall i :: p <= i < |tail| ==> Survives(tail[i], Some(b))
    ensures Tail(tail, Some(b)) == tail[p..]
  {
    assert tail == tail[..p] + tail[p..];
    TailConcat(tail[..p], tail[p..], Some(b));
    TailNone(tail[..p], b);
    TailAll(tail[p..], Some(b));
  }

  /** Cutting at a sharp user message by timestamp is cutting at its position. */
  lemma TailAtUser(events: seq<Event>, first: Option<int>, p: nat)
    requires p < |Tail(events, first)| && Tail(events, first)[p].UserMessage?
    requires Chronological(events) && SharpAt(events, Tail(events, first)[p].ts)
    ensures Tail(events, Some(Tail(events, first)[p].ts)) == Tail(events, first)[p..]
  {
    var tail := Tail(events, first);
    TailSplitsAt(events, first, p);
    TailCut(tail, p, tail[p].ts);
    TailMembers(events, first);
    assert tail[p] in tail;
    TailOfTail(events, first, tail[p].ts);
  }

  // ------------------------------------------------------------------ where a user message comes from

  /** Past the messages of the leading step stand the messages of the rest. */
  lemma BuildTail(w: Wording, events: seq<Event>, j: nat)
    requires events != [] && |StepMessages(w, events)| <= j < |Build(w, events)|
    ensures var rest, m := Build(w, events[StepLength(events)..]), j - |StepMessages(w, events)|;
            m < |rest| && Build(w, events)[j] == rest[m] && Build(w, events)[j..] == rest[m..]
  {
    hide StepMessages;
  }

  /** A user turn in the replayed tail stands where its event does: the log splits there. */
  lemma {:induction false} LocateUser(w: Wording, events: seq<Event>, j: nat) returns (p: nat)
    requires j < |Build(w, events)| && Build(w, events)[j].role == User && !IsOverlay(Build(w, events)[j])
    ensures p < |events| && events[p].UserMessage?
    ensures Build(w, events)[j] == BuildUserMessage(events[p])
    ensures Build(w, events)[j..] == Build(w, events[p..])
    decreases |events|
  {
    hide StepMessages, Build;
    BuildNothing(w);
    var n := StepLength(events);
    var step := StepMessages(w, events);
    if j >= |step| {
      BuildTail(w, events, j);
      p := LocateUser(w, events[n..], j - |step|);
      assert events[n..][p..] == events[n + p..];
      p := n + p;
    } else {
      BuildStep(w, events);
      StepUsers(w, events, j);
      assert Build(w, events)[j..] == Build(w, events) && events[0..] == events;
      p := 0;
    }
  }

  /** The only user turn a step can contribute is its own user message. */
  lemma StepUsers(w: Wording, events: seq<Event>, j: nat)
    requires events != [] && j < |StepMessages(w, events)|
    requires StepMessages(w, events)[j].role == User && !IsOverlay(StepMessages(w, events)[j])
    ensures events[0].UserMessage? && j == 0 && StepMessages(w, events)[j] == BuildUserMessage(events[0])
  {
    if events[0].RunStart? {
      var rest, runId := events[1..], events[0].runId;
      RunIsPaired(w, Collect(rest[..InnerLength(rest, runId)], runId), CancelledAt(rest, runId));
    }
  }

  lemma {:induction false} LocateAfter(w: Wording, prev: Message, ms: seq<Message>, k: nat) returns (j: nat)
    requires k < |AlternateAfter(w, prev, ms)| && AlternateAfter(w, prev, ms)[k].role == User
    ensures j < |ms| && j <= k && ms[j] == AlternateAfter(w, prev, ms)[k]
    ensures AlternateAfter(w, prev, ms)[k..] == Alternate(w, ms[j..])
    decreases ms
  {
    var m := |Markers(w, prev, ms[0])|;
    var rest := AlternateAfter(w, ms[0], ms[1..]);
    var all := AlternateAfter(w, prev, ms);
    if k == m {
      assert all[k..] == [ms[0]] + rest && ms[0..] == ms;
      j := 0;
    } else {
      assert k > m;
      assert all[k] == rest[k - m - 1] && all[k..] == rest[k - m - 1..];
      j := LocateAfter(w, ms[0], ms[1..], k - m - 1);
      assert ms[1..][j..] == ms[j + 1..];
      j := j + 1;
    }
  }

  /** A user message of the history is one of the messages before the pass, and the pass runs on from it. */
  lemma LocateInHistory(w: Wording, ms: seq<Message>, k: nat) returns (j: nat)
    requires 0 < k < |Alternate(w, ms)| && Alternate(w, ms)[k].role == User
    ensures 0 < j < |ms| && ms[j] == Alternate(w, ms)[k]
    ensures Alternate(w, ms)[k..] == Alternate(w, ms[j..])
  {
    var rest := AlternateAfter(w, ms[0], ms[1..]);
    assert Alternate(w, ms)[k] == rest[k - 1] && Alternate(w, ms)[k..] == rest[k - 1..];
    j := LocateAfter(w, ms[0], ms[1..], k - 1);
    assert ms[1..][j..] == ms[j + 1..];
    j := j + 1;
  }

  lemma SeedShape(w: Wording, log: seq<Event>, c: Option<CompactionEvent>)
    ensures |Seed(w, log, c)| == if c.None? then 0 else 2
    ensures c.Some? ==> Seed(w, log, c)[0].role == User && Seed(w, log, c)[1].role == Assistant
  {
  }

  /** A user turn of a history, past its first message, is the turn of an event in the replayed tail. */
  lemma BoundaryInLog(w: Wording, log: seq<Event>, c: Option<CompactionEvent>, k: nat) returns (p: nat)
    requires var h := Alternate(w, Replayed(w, log, c)); 0 < k < |h| && h[k].role == User && !IsOverlay(h[k])
    ensures var h, tail := Alternate(w, Replayed(w, log, c)), Tail(log, BoundaryOf(c));
            && p < |tail| && tail[p].UserMessage? && tail[p].ts == h[k].timestamp
            && h[k..] == Alternate(w, Build(w, tail[p..]))
  {
    hide Build, Seed, Alternate;
    var ms, tail := Replayed(w, log, c), Tail(log, BoundaryOf(c));
    var seed := Seed(w, log, c);
    SeedShape(w, log, c);
    var j := LocateInHistory(w, ms, k);
    assert c.Some? ==> ms[1] == seed[1];
    assert ms[j] == Build(w, tail)[j - |seed|] && ms[j..] == Build(w, tail)[j - |seed|..];
    p := LocateUser(w, tail, j - |seed|);
  }

  // ------------------------------------------------------------------ what a reload rebuilds

  lemma SeedStands(w: Wording, log: seq<Event>, c: CompactionEvent, ms: seq<Message>)
    ensures Alternate(w, Seed(w, log, Some(c)) + ms) == Seed(w, log, Some(c)) + Alternate(w, ms)
  {
    hide SeedText;
    var seed := Seed(w, log, Some(c));
    AlternateConcat(w, seed, ms);
    assert seed[1..] == [seed[1]] && Markers(w, seed[0], seed[1]) == [];
    assert AlternateAfter(w, seed[1], []) == [];
    assert Alternate(w, seed) == [seed[0]] + ([] + [seed[1]] + AlternateAfter(w, seed[1], seed[1..][1..])) == seed;
    if ms != [] {
      assert Markers(w, seed[1], ms[0]) == [];
      assert AlternateAfter(w, seed[1], ms) == [] + [ms[0]] + AlternateAfter(w, ms[0], ms[1..]) == Alternate(w, ms);
    }
  }

  /** Reloading a log that ends in its own fold gives the fold's seed and the tail its boundary leaves. */
  lemma ReloadAfterFold(w: Wording, log: seq<Event>, c: CompactionEvent)
    ensures Reconstruct(w, log + [c], false)
         == CompactionSummaryMessages(w.seed, c.summary, c.compactedThroughTs,
                                      Select(ExtractOperatorTurns(log), c.compactedThroughTs))
            + Alternate(w, Build(w, Tail(log, Some(c.compactedThroughTs))))
  {
    hide CompactionSummaryMessages, SelectFrom, Build;
    var all := log + [c];
    TailConcat(log, [c], Some(c.compactedThroughTs));
    assert Tail([c], Some(c.compactedThroughTs)) == [];
    OperatorTurnsConcat(log, [c]);
    assert ExtractOperatorTurns(all) == ExtractOperatorTurns(log) + ExtractOperatorTurns([c]) ==
        ExtractOperatorTurns(log);
    assert Honoured(all, false) == Some(c);
    assert Tail(all, Some(c.compactedThroughTs)) == Tail(log, Some(c.compactedThroughTs));
    SeedStands(w, all, c, Build(w, Tail(all, Some(c.compactedThroughTs))));
  }

  /** The same, up to the summary seed, as what the fold itself returned: the kept messages. */
  lemma FoldAgreesAt(w: Wording, log: seq<Event>, k: nat)
    requires var h := Reconstruct(w, log, false); 0 < k < |h| && h[k].role == User && !IsOverlay(h[k])
    requires Chronological(log) && SharpAt(log, Reconstruct(w, log, false)[k].timestamp)
    ensures var h := Reconstruct(w, log, false);
            Alternate(w, Build(w, Tail(log, Some(h[k].timestamp)))) == h[k..]
  {
    hide Build, Alternate, Replayed;
    var c := Honoured(log, false);
    var p := BoundaryInLog(w, log, c, k);
    TailAtUser(log, BoundaryOf(c), p);
  }

  /**
   * Compaction commutes with replay. When timestamps never run backwards, the boundary message is a
   * user turn and nothing earlier shares its timestamp, reloading the log with the new record
   * appended gives exactly the list the fold returned, however often the log was compacted before.
   */
  lemma FoldAgreesWithReload(w: Wording, tok: Message -> nat, log: seq<Event>, opts: Options, now: int, summary: string)
    requires var plan := PlanOf(tok, Reconstruct(w, log, false), opts);
             && plan.Compact? && plan.boundaryIndex > 0
             && !IsOverlay(Reconstruct(w, log, false)[plan.boundaryIndex])
             && SharpAt(log, plan.boundaryTs)
    requires Chronological(log)
    ensures var out := CompactConversationMessages(
                         w.seed, tok, Reconstruct(w, log, false), opts, ExtractOperatorTurns(log), now, Some(summary));
            out.event.Some? && Reconstruct(w, log + [out.event.value], false) == out.messages
  {
    hide CompactionSummaryMessages, SelectFrom, Build, Alternate, Replayed;
    var h := Reconstruct(w, log, false);
    var plan := PlanOf(tok, h, opts);
    var cut := PlanIsSafe(tok, h, opts.Trigger(), opts.KeepTarget(), opts.minSummarizedMessages);
    FoldAgreesAt(w, log, plan.boundaryIndex);
    ReloadAfterFold(w, log, HistoryCompacted(now, summary, plan.boundaryTs, plan.boundaryIndex));
  }

  // ------------------------------------------------------------------ a tie at the boundary

  /** Cutting at a user message by timestamp keeps what shares its time before it, and all from it on. */
  lemma {:induction false} TailKeepsTies(events: seq<Event>, first: Option<int>, p: nat) returns (tied: seq<Event>)
    requires p < |Tail(events, first)| && Tail(events, first)[p].UserMessage? && Chronological(events)
    ensures var b := Tail(events, first)[p].ts;
            && Tail(events, Some(b)) == tied + Tail(events, first)[p..]
            && forall e :: e in tied ==> e in events && e.ts == b
  {
    var tail := Tail(events, first);
    var b := tail[p].ts;
    TailMembers(events, first);
    assert tail[p] in tail;
    forall i | p <= i < |tail| ensures Survives(tail[i], Some(b)) {
      assert tail[i] in tail;
      if p < i {
        var x, y := TailOrigins(events, first, p, i);
      }
    }
    forall i | 0 <= i < p ensures tail[i].ts <= b {
      var x, y := TailOrigins(events, first, i, p);
    }
    tied := Tail(tail[..p], Some(b));
    TailMembers(tail[..p], Some(b));
    forall e | e in tied ensures e in events && e.ts == b {
      assert e in tail[..p] && e in tail;
    }
    TailOfTail(events, first, b);
    assert tail == tail[..p] + tail[p..];
    TailConcat(tail[..p], tail[p..], Some(b));
    TailAll(tail[p..], Some(b));
  }

  /** What a reload shows before the kept messages: those of the ties, and the marker between, if one belongs there. */
  function OverKept(w: Wording, tied: seq<Message>, next: Message): seq<Message> {
    if tied == [] then [] else Alternate(w, tied) + Markers(w, tied[|tied| - 1], next)
  }

  /**
   * A tie keeps more, and loses nothing. Whatever shares the boundary's timestamp, when timestamps never
   * run backwards and the boundary message is a user turn, a reload is the fold's seed, what the tied
   * events say, and every message the fold kept.
   */
  lemma {:induction false} TieKeepsMore(
    w: Wording, tok: Message -> nat, log: seq<Event>, opts: Options, now: int, summary: string)
    returns (tied: seq<Event>)
    requires var plan := PlanOf(tok, Reconstruct(w, log, false), opts);
             && plan.Compact? && plan.boundaryIndex > 0
             && !IsOverlay(Reconstruct(w, log, false)[plan.boundaryIndex])
    requires Chronological(log)
    ensures var h := Reconstruct(w, log, false);
            var k := PlanOf(tok, h, opts).boundaryIndex;
            var out := CompactConversationMessages(w.seed, tok, h, opts, ExtractOperatorTurns(log), now, Some(summary));
            && out.event.Some? && out.messages[2..] == h[k..] && h[k..] != []
            && Reconstruct(w, log + [out.event.value], false) ==
                 out.messages[..2] + (OverKept(w, Build(w, tied), h[k]) + out.messages[2..])
            && forall e :: e in tied ==> e in log && e.ts == h[k].timestamp
  {
    hide CompactionSummaryMessages, SelectFrom, Build, Alternate, Replayed;
    var h := Reconstruct(w, log, false);
    var plan := PlanOf(tok, h, opts);
    var k, c := plan.boundaryIndex, Honoured(log, false);
    var cut := PlanIsSafe(tok, h, opts.Trigger(), opts.KeepTarget(), opts.minSummarizedMessages);
    var p := BoundaryInLog(w, log, c, k);
    tied := TailKeepsTies(log, BoundaryOf(c), p);
    ReloadAfterFold(w, log, HistoryCompacted(now, summary, plan.boundaryTs, k));
    var kept := Tail(log, BoundaryOf(c))[p..];
    BuildSplit(w, tied, kept);
    TiedThenKept(w, Build(w, tied), Build(w, kept), h[k..]);
    var out := CompactConversationMessages(w.seed, tok, h, opts, ExtractOperatorTurns(log), now, Some(summary));
    var retained := Select(ExtractOperatorTurns(log), plan.boundaryTs);
    var seed := CompactionSummaryMessages(w.seed, summary, plan.boundaryTs, retained);
    assert out.messages == seed + h[k..] && out.messages[..2] == seed;
  }

  lemma {:induction false} TiedThenKept(w: Wording, tied: seq<Message>, kept: seq<Message>, shown: seq<Message>)
    requires shown == Alternate(w, kept) && shown != []
    ensures Alternate(w, tied + kept) == OverKept(w, tied, shown[0]) + shown
  {
    if tied == [] {
      assert tied + kept == kept;
    } else {
      AlternateConcat(w, tied, kept);
      assert AlternateAfter(w, tied[|tied| - 1], kept) ==
             Markers(w, tied[|tied| - 1], kept[0]) + [kept[0]] + AlternateAfter(w, kept[0], kept[1..]);
    }
  }

  // ------------------------------------------------------------------ the boundary the promise needs

  lemma {:induction false} CollectedOverlays(inner: seq<Event>, runId: string)
    ensures forall i :: 0 <= i < |Collect(inner, runId).overlays| ==> Collect(inner, runId).overlays[i].event in inner
  {
    if inner != [] {
      CollectedOverlays(inner[..|inner| - 1], runId);
      assert inner == inner[..|inner| - 1] + [inner[|inner| - 1]];
    }
  }

  ghost predicate IsOverlayTime(events: seq<Event>, ts: int) {
    exists e :: e in events && e.ConnectorSkillInjected? && e.ts == ts
  }

  /** Every user message of `ms` is an overlay delivered by one of `events`. */
  ghost predicate UsersDelivered(ms: seq<Message>, events: seq<Event>) {
    forall i :: 0 <= i < |ms| ==> ms[i].role == User ==> IsOverlayTime(events, ms[i].timestamp)
  }

  lemma {:induction false} DeliveredUsers(w: Wording, overlays: seq<Overlay>, k: nat, events: seq<Event>)
    requires forall i :: 0 <= i < |overlays| ==> overlays[i].event in events
    ensures UsersDelivered(OverlayMessages(w, DeliveredAfter(overlays, k)), events)
  {
    if overlays != [] {
      DeliveredUsers(w, overlays[1..], k, events);
      assert overlays[0].event in events;
    }
  }

  lemma IterationUsers(w: Wording, run: Run, k: nat, events: seq<Event>)
    requires 0 < k <= |run.responses|
    requires forall i :: 0 <= i < |run.overlays| ==> run.overlays[i].event in events
    ensures UsersDelivered(Iteration(w, run, k), events)
  {
    hide MessagesForResponse;
    ResponseIsPaired(w, run.responses[k - 1], run);
    DeliveredUsers(w, run.overlays, k, events);
  }

  lemma {:induction false} IterationsUsers(w: Wording, run: Run, k: nat, events: seq<Event>)
    requires k <= |run.responses|
    requires forall i :: 0 <= i < |run.overlays| ==> run.overlays[i].event in events
    ensures UsersDelivered(Iterations(w, run, k), events)
  {
    hide Iteration;
    if k > 0 {
      IterationsUsers(w, run, k - 1, events);
      IterationUsers(w, run, k, events);
    }
  }

  lemma RunUsers(w: Wording, run: Run, cancelledAt: Option<int>, events: seq<Event>)
    requires forall i :: 0 <= i < |run.overlays| ==> run.overlays[i].event in events
    ensures UsersDelivered(RunMessages(w, run, cancelledAt), events)
  {
    hide Iterations;
    IterationsUsers(w, run, |run.responses|, events);
    DeliveredUsers(w, run.overlays, 0, events);
  }

  /** An overlay message stands for an overlay event of the log it is replayed from. */
  lemma {:induction false} OverlayOrigin(w: Wording, events: seq<Event>, j: nat)
    requires j < |Build(w, events)| && Build(w, events)[j].role == User && IsOverlay(Build(w, events)[j])
    ensures IsOverlayTime(events, Build(w, events)[j].timestamp)
    decreases |events|
  {
    hide StepMessages;
    var n := StepLength(events);
    var step := StepMessages(w, events);
    if j >= |step| {
      BuildTail(w, events, j);
      OverlayOrigin(w, events[n..], j - |step|);
    } else {
      StepOverlays(w, events);
    }
  }

  lemma StepOverlays(w: Wording, events: seq<Event>)
    requires events != []
    ensures forall j :: 0 <= j < |StepMessages(w, events)| ==>
              StepMessages(w, events)[j].role == User && IsOverlay(StepMessages(w, events)[j]) ==>
              IsOverlayTime(events, StepMessages(w, events)[j].timestamp)
  {
    hide RunMessages;
    if events[0].RunStart? {
      var rest, runId := events[1..], events[0].runId;
      var inner := rest[..InnerLength(rest, runId)];
      CollectedOverlays(inner, runId);
      assert forall e :: e in inner ==> e in events;
      RunUsers(w, Collect(inner, runId), CancelledAt(rest, runId), events);
    }
  }

  /** An overlay message of a history, past its first message, comes from an overlay event of the log. */
  lemma OverlayInLog(w: Wording, log: seq<Event>, c: Option<CompactionEvent>, k: nat)
    requires var h := Alternate(w, Replayed(w, log, c)); 0 < k < |h| && h[k].role == User && IsOverlay(h[k])
    ensures IsOverlayTime(log, Alternate(w, Replayed(w, log, c))[k].timestamp)
  {
    hide Build, Seed, Alternate;
    var ms, tail := Replayed(w, log, c), Tail(log, BoundaryOf(c));
    var seed := Seed(w, log, c);
    SeedShape(w, log, c);
    var j := LocateInHistory(w, ms, k);
    assert c.Some? ==> ms[1] == seed[1];
    assert ms[j] == Build(w, tail)[j - |seed|];
    OverlayOrigin(w, tail, j - |seed|);
    TailMembers(log, BoundaryOf(c));
  }

  /** In a strictly ordered log, replay from an overlay's own time never begins with that overlay. */
  lemma OverlayCutLoses(w: Wording, log: seq<Event>, b: int)
    requires StrictlyChronological(log) && IsOverlayTime(log, b)
    ensures var kept := Alternate(w, Build(w, Tail(log, Some(b))));
            kept == [] || !(kept[0].role == User && IsOverlay(kept[0]) && kept[0].timestamp == b)
  {
    hide Build;
    var tail := Tail(log, Some(b));
    var x :| x in log && x.ConnectorSkillInjected? && x.ts == b;
    TailMembers(log, Some(b));
    assert x in tail;
    forall i | 0 < i < |tail| ensures tail[i].ts > b {
      var y, z := TailOrigins(log, Some(b), 0, i);
      assert tail[0] in tail;
    }
    assert tail[0] == x;
    var rest := tail[1..];
    forall e | e in rest ensures e.ts > b {
      var i :| 0 <= i < |rest| && rest[i] == e;
      assert tail[i + 1] == e;
    }
    SkipOutsideRun(w, tail);
    var kept := Build(w, rest);
    if kept != [] && kept[0].role == User && IsOverlay(kept[0]) && kept[0].timestamp == b {
      OverlayOrigin(w, rest, 0);
    }
  }

  lemma SkipOutsideRun(w: Wording, events: seq<Event>)
    requires events != [] && !IsTurnStart(events[0])
    ensures Build(w, events) == Build(w, events[1..])
  {
    OneEventStep(w, events);
    assert Build(w, events) == [] + Build(w, events[1..]);
  }

  lemma SamePrefix(seed: seq<Message>, a: seq<Message>, b: seq<Message>)
    ensures seed + a == seed + b <==> a == b
  {
    assert (seed + a)[|seed|..] == a && (seed + b)[|seed|..] == b;
  }

  /**
   * What the agreement needs of the boundary: in a log with distinct, increasing timestamps, reload
   * and fold agree exactly when the message the plan snapped to is a user turn and not an overlay.
   */
  lemma FoldAgreesIffUserTurn(
    w: Wording, tok: Message -> nat, log: seq<Event>, opts: Options, now: int, summary: string)
    requires PlanOf(tok, Reconstruct(w, log, false), opts).Compact?
    requires PlanOf(tok, Reconstruct(w, log, false), opts).boundaryIndex > 0
    requires StrictlyChronological(log)
    ensures var h := Reconstruct(w, log, false);
            var out := CompactConversationMessages(w.seed, tok, h, opts, ExtractOperatorTurns(log), now, Some(summary));
            && out.event.Some?
            && (Reconstruct(w, log + [out.event.value], false) == out.messages
                <==> !IsOverlay(h[PlanOf(tok, h, opts).boundaryIndex]))
  {
    hide CompactionSummaryMessages, SelectFrom, Build, Alternate, Replayed;
    var h := Reconstruct(w, log, false);
    var plan := PlanOf(tok, h, opts);
    var k := plan.boundaryIndex;
    var cut := PlanIsSafe(tok, h, opts.Trigger(), opts.KeepTarget(), opts.minSummarizedMessages);
    ReloadAfterFold(w, log, HistoryCompacted(now, summary, plan.boundaryTs, k));
    if IsOverlay(h[k]) {
      OverlayInLog(w, log, Honoured(log, false), k);
      OverlayCutLoses(w, log, h[k].timestamp);
      assert h[k..] != [] && h[k..][0] == h[k];
      var retained := Select(ExtractOperatorTurns(log), plan.boundaryTs);
      var seed := CompactionSummaryMessages(w.seed, summary, plan.boundaryTs, retained);
      SamePrefix(seed, Alternate(w, Build(w, Tail(log, Some(plan.boundaryTs)))), h[k..]);
    } else {
      FoldAgreesAt(w, log, k);
    }
  }
}
