/** Windowing keeps every tool call beside its results, also on what replay derives from a log. */
module WindowPairing {
  import opened Prelude
  import opened ConversationTypes
  import opened Window
  import R = Replay
  import WF = ReplayWellFormed

  lemma {:induction false} ResultRunIs(ms: seq<Message>, n: nat)
    requires n <= |ms|
    requires forall i :: 0 <= i < n ==> ms[i].role == Tool && HasToolResult(ms[i])
    requires n < |ms| ==> ms[n].role != Tool
    ensures ResultRun(ms) == n
  {
    if n > 0 {
      ResultRunIs(ms[1..], n - 1);
    }
  }

  /** In a paired history a window group is a call with all its results. */
  lemma GroupIsUnit(ms: seq<Message>)
    requires Paired(ms) && ms != []
    ensures GroupLength(ms) == UnitLength(ms)
  {
    if ms[0].role == Assistant && HasToolUse(ms[0]) {
      var ids, n := CallIds(ms[0].content), UnitLength(ms);
      forall i | 0 <= i < |ids| ensures ms[1..][i].role == Tool && HasToolResult(ms[1..][i]) {
        assert Answers(ms[1..n][i], ids[i]);
      }
      assert n < |ms| ==> ms[n..][0] == ms[1..][n - 1];
      ResultRunIs(ms[1..], n - 1);
    }
  }

  lemma {:induction false} PairedRest(ms: seq<Message>)
    requires Paired(ms) && ms != []
    ensures UnitLength(ms) <= |ms| && Paired(ms[UnitLength(ms)..])
  {
  }

  lemma {:induction false} GroupSuffixPaired(ms: seq<Message>, k: nat)
    requires Paired(ms) && k <= |Groups(ms)|
    ensures Paired(Flatten(Groups(ms)[k..]))
    decreases k
  {
    if k == 0 {
      GroupsFlatten(ms);
      assert Groups(ms)[0..] == Groups(ms);
    } else {
      GroupIsUnit(ms);
      PairedRest(ms);
      GroupsPast(ms, k);
      hide Paired, UnitLength, Groups, GroupLength, Flatten;
      GroupSuffixPaired(ms[GroupLength(ms)..], k - 1);
    }
  }

  /** An anchor that makes no call keeps any group-aligned suffix paired. */
  lemma {:induction false} PlainAnchor(ms: seq<Message>, k: nat)
    requires Paired(ms) && ms != [] && UnitLength(ms) == 1 && k <= |RestGroups(ms)|
    ensures Paired([ms[0]] + Flatten(RestGroups(ms)[k..]))
  {
    var kept := Flatten(RestGroups(ms)[k..]);
    GroupSuffixPaired(ms[1..], k);
    PairedUnit([ms[0]] + kept, 1) by {
      assert ([ms[0]] + kept)[1..] == kept && ([ms[0]] + kept)[1..1] == [];
      assert ms[1..1] == [];
    }
  }

  // ------------------------------------------------------------------ an anchor that calls

  /** Results without their call in front are groups of their own. */
  lemma {:induction false} ResultsStandAlone(rest: seq<Message>, k: nat)
    requires k <= |rest| && forall i :: 0 <= i < k ==> rest[i].role == Tool
    ensures k <= |Groups(rest)| && Groups(rest)[k..] == Groups(rest[k..])
    decreases k
  {
    hide Groups;
    if k == 0 {
      assert rest[0..] == rest && Groups(rest)[0..] == Groups(rest);
    } else {
      GroupStep(rest);
      assert GroupLength(rest) == 1;
      ResultsStandAlone(rest[1..], k - 1);
      assert rest[1..][k - 1..] == rest[k..];
    }
  }

  /** A cut window lets the first group go. */
  lemma {:induction false} CutsSomething(tok: Message -> nat, ms: seq<Message>, maxTokens: int)
    requires !Fits(tok, ms, maxTokens) && ms[1].role == Tool
    ensures KeptFrom(tok, ms, maxTokens) > 0
  {
    var rest := ms[1..];
    ResultsStandAlone(rest, 1);
    GroupsFlatten(rest);
    hide Groups, GroupLength, Flatten;
    assert Groups(rest)[0..] == Groups(rest);
    if KeptFrom(tok, ms, maxTokens) == 0 {
      assert |Groups(rest)| > 1;
    }
  }

  /** The results of a leading call, and what follows them. */
  lemma {:induction false} ResultsLead(ms: seq<Message>, n: nat)
    requires Paired(ms) && ms != [] && UnitLength(ms) == n + 1
    ensures n < |ms| && (forall i :: 0 <= i < n ==> ms[1..][i].role == Tool)
    ensures Paired(ms[1..][n..]) && (n < |ms[1..]| ==> ms[1..][n].role != Tool)
  {
    PairedRest(ms);
    forall i | 0 <= i < n ensures ms[1..][i].role == Tool {
      UnitTailIsTool(ms, i + 1);
    }
    assert ms[1..][n..] == ms[n + 1..];
    assert n < |ms[1..]| ==> ms[n + 1..][0] == ms[1..][n];
  }

  /** Too few results are left for the anchor's calls. */
  lemma {:induction false} SomeResultsGone(anchor: Message, rest: seq<Message>, n: nat, k: nat)
    requires anchor.role == Assistant && |CallIds(anchor.content)| == n && 0 < k <= n <= |rest|
    requires n < |rest| ==> rest[n].role != Tool
    ensures !Paired([anchor] + rest[k..])
  {
    var window := [anchor] + rest[k..];
    if Paired(window) {
      UnitTailIsTool(window, n);
      UnitTailIsTool(window, n - k + 1);
    }
  }

  /** What is paired by itself answers no call before it. */
  lemma {:induction false} NoResultsLeft(anchor: Message, kept: seq<Message>)
    requires anchor.role == Assistant && CallIds(anchor.content) != [] && Paired(kept)
    ensures !Paired([anchor] + kept)
  {
    if Paired([anchor] + kept) {
      UnitTailIsTool([anchor] + kept, 1);
    }
  }

  /** An anchor whose calls are answered in full is not answered by what is left once a group is gone. */
  lemma {:induction false} CallingAnchor(ms: seq<Message>, k: nat)
    requires Paired(ms) && ms != [] && UnitLength(ms) > 1 && 0 < k <= |RestGroups(ms)|
    ensures !Paired([ms[0]] + Flatten(RestGroups(ms)[k..]))
  {
    hide Groups, Flatten, Paired;
    var n, rest := UnitLength(ms) - 1, ms[1..];
    ResultsLead(ms, n);
    if k <= n {
      ResultsStandAlone(rest, k);
      GroupsFlatten(rest[k..]);
      SomeResultsGone(ms[0], rest, n, k);
    } else {
      ResultsStandAlone(rest, n);
      GroupSuffixPaired(rest[n..], k - n);
      assert Groups(rest)[k..] == Groups(rest)[n..][k - n..];
      NoResultsLeft(ms[0], Flatten(Groups(rest)[k..]));
    }
  }

  /**
   * A window of a paired history is paired if and only if it is the whole history or its anchor makes no
   * call: results are grouped with the call before them, and the anchor is not grouped with its own.
   */
  lemma WindowKeepsPairing(tok: Message -> nat, ms: seq<Message>, maxTokens: int)
    requires Paired(ms)
    ensures Paired(WindowOf(tok, ms, maxTokens)) <==> Fits(tok, ms, maxTokens) || UnitLength(ms) == 1
    ensures ms != [] ==> WindowOf(tok, ms, maxTokens) != [] && WindowOf(tok, ms, maxTokens)[0] == ms[0]
  {
    if !Fits(tok, ms, maxTokens) {
      hide Paired, Groups, Flatten;
      if UnitLength(ms) == 1 {
        PlainAnchor(ms, KeptFrom(tok, ms, maxTokens));
      } else {
        UnitTailIsTool(ms, 1);
        CutsSomething(tok, ms, maxTokens);
        CallingAnchor(ms, KeptFrom(tok, ms, maxTokens));
      }
    }
  }

  /** A log that opens with a user message, or was compacted, replays to a history that opens with a user turn. */
  lemma HistoryOpensWithUser(w: R.Wording, log: seq<Event>, ignoreCompaction: bool)
    requires R.Honoured(log, ignoreCompaction).Some? || (log != [] && log[0].UserMessage?)
    ensures var h := R.Reconstruct(w, log, ignoreCompaction); h != [] && h[0].role == User
  {
    var c := R.Honoured(log, ignoreCompaction);
    if c.None? {
      var tail := R.Tail(log, None);
      assert tail[0] == log[0];
      assert R.Build(w, tail) == [R.BuildUserMessage(tail[0])] + R.Build(w, tail[1..]);
    }
  }

  /** Whatever the log and the budget, the windowed replay of such a log is paired and opens with a user turn. */
  lemma WindowedReplayIsPaired(
    w: R.Wording, tok: Message -> nat, log: seq<Event>, ignoreCompaction: bool, maxTokens: int)
    requires R.Honoured(log, ignoreCompaction).Some? || (log != [] && log[0].UserMessage?)
    ensures var r := WindowOf(tok, R.Reconstruct(w, log, ignoreCompaction), maxTokens);
            Paired(r) && r != [] && r[0].role == User
  {
    hide R.Reconstruct, WindowOf;
    HistoryOpensWithUser(w, log, ignoreCompaction);
    WF.HistoryIsWellFormed(w, log, ignoreCompaction);
    WindowKeepsPairing(tok, R.Reconstruct(w, log, ignoreCompaction), maxTokens);
  }
}
