/** Operator turns never decay: what becomes of every user-authored turn of a compacted conversation. */
module OperatorRetention {
  import opened Prelude
  import opened Sifting
  import opened ConversationTypes
  import opened Compaction
  import opened Replay
  import opened ReplayWellFormed
  import opened CompactionReplay
  import T = Text

  // ------------------------------------------------------------------ turns replayed verbatim

  /** No run span swallows a user message. */
  lemma {:induction false} BuildKeepsUser(w: Wording, events: seq<Event>, i: nat)
    requires i < |events| && events[i].UserMessage?
    ensures BuildUserMessage(events[i]) in Build(w, events)
    decreases |events|
  {
    hide StepMessages;
    if i == 0 {
      assert StepMessages(w, events) == [BuildUserMessage(events[0])] by { UserStep(w, events); }
      assert Build(w, events)[0] == BuildUserMessage(events[0]);
    } else {
      var n := StepLength(events);
      UserPastStep(events, i);
      BuildKeepsUser(w, events[n..], i - n);
    }
  }

  lemma UserStep(w: Wording, events: seq<Event>)
    requires events != [] && events[0].UserMessage?
    ensures StepMessages(w, events) == [BuildUserMessage(events[0])]
  {
  }

  lemma UserPastStep(events: seq<Event>, i: nat)
    requires 0 < i < |events| && events[i].UserMessage?
    ensures StepLength(events) <= i
  {
    if events[0].RunStart? {
      assert events[1..][i - 1] == events[i];
    }
  }

  lemma {:induction false} AlternateAfterKeeps(w: Wording, prev: Message, ms: seq<Message>, m: Message)
    requires m in ms
    ensures m in AlternateAfter(w, prev, ms)
    decreases ms
  {
    if m != ms[0] {
      AlternateAfterKeeps(w, ms[0], ms[1..], m);
    }
  }

  lemma AlternateKeeps(w: Wording, ms: seq<Message>, m: Message)
    requires m in ms
    ensures m in Alternate(w, ms)
  {
    if m != ms[0] {
      AlternateAfterKeeps(w, ms[0], ms[1..], m);
    }
  }

  /** A user message at or after the boundary, or in the verbatim view, is replayed as it was written. */
  lemma UserTurnReplayed(w: Wording, log: seq<Event>, ignoreCompaction: bool, i: nat)
    requires i < |log| && log[i].UserMessage?
    requires Survives(log[i], BoundaryOf(Honoured(log, ignoreCompaction)))
    ensures BuildUserMessage(log[i]) in Reconstruct(w, log, ignoreCompaction)
  {
    hide Build, Alternate, Seed;
    var c := Honoured(log, ignoreCompaction);
    var tail := Tail(log, BoundaryOf(c));
    TailMembers(log, BoundaryOf(c));
    assert log[i] in log;
    var p :| 0 <= p < |tail| && tail[p] == log[i];
    BuildKeepsUser(w, tail, p);
    AlternateKeeps(w, Replayed(w, log, c), BuildUserMessage(log[i]));
  }

  // ------------------------------------------------------------------ what a turn says

  /** Part `j` of a user message is text, and not whitespace throughout. */
  predicate Says(e: Event, j: nat) {
    e.UserMessage? && j < |e.content| && e.content[j].Text? && !T.IsBlank(e.content[j].text)
  }

  /** A user message that says anything. */
  ghost predicate IsSaid(e: Event) {
    exists j: nat :: Says(e, j)
  }

  predicate IsText(p: Part) {
    p.Text?
  }

  predicate IsTextOf(text: string, p: Part) {
    p.Text? && p.text == text
  }

  lemma {:induction false} TextPartsSift(content: seq<Part>) returns (from: seq<nat>)
    ensures Sifts(content, TextParts(content), IsText, IsTextOf, from)
  {
    if content == [] {
      from := [];
    } else {
      from := TextPartsSift(content[1..]);
      from := SiftHead(content, TextParts(content), TextParts(content[1..]), IsText, IsTextOf, from);
    }
  }

  /**
   * The text of an operator turn: what the message's text parts say, all of them and nothing else, in
   * their order, a newline between two, without the whitespace around the whole.
   */
  lemma {:induction false} TurnText(e: UserMessageEvent) returns (texts: seq<string>, from: seq<nat>)
    ensures Sifts(e.content, texts, IsText, IsTextOf, from)
    ensures UserMessageText(e) == T.Trim(T.Join(texts, "\n"))
  {
    from := TextPartsSift(e.content);
    texts := TextParts(e.content);
  }

  /** A turn's text holds what each part says, trimmed, and is just that when the message has one text part. */
  lemma {:induction false} TurnSays(e: UserMessageEvent, j: nat)
    requires Says(e, j)
    ensures T.Contains(UserMessageText(e), T.Trim(e.content[j].text))
    ensures (forall i :: 0 <= i < |e.content| && i != j ==> !e.content[i].Text?) ==>
              UserMessageText(e) == T.Trim(e.content[j].text)
  {
    var texts, from := TurnText(e);
    var k := AscendingShows(e.content, texts, IsText, IsTextOf, from, j);
    var pre, post := T.JoinContains(texts, "\n", k);
    T.TrimKeepsPart(pre, texts[k], post);
    if forall i :: 0 <= i < |e.content| && i != j ==> !e.content[i].Text? {
      assert forall i :: 0 <= i < |from| ==> from[i] == j;
      OneText(from, |e.content|, j);
      assert texts == [texts[k]];
    }
  }

  lemma {:induction false} OneText(from: seq<nat>, n: nat, j: nat)
    requires Ascending(from, n) && j in from && forall i :: 0 <= i < |from| ==> from[i] == j
    ensures |from| == 1
  {
    var first, last := from[0], from[|from| - 1];
  }

  /** A user message makes an operator turn exactly when it says something. */
  lemma {:induction false} TurnIffSaid(e: UserMessageEvent)
    ensures UserMessageText(e) != [] <==> IsSaid(e)
  {
    var texts, from := TurnText(e);
    if IsSaid(e) {
      var j: nat :| Says(e, j);
      TurnSays(e, j);
      T.TrimBlank(e.content[j].text);
    } else {
      forall i | 0 <= i < |texts| ensures T.IsBlank(texts[i]) {
        assert IsTextOf(texts[i], e.content[from[i]]) && !Says(e, from[i]);
      }
      T.JoinBlank(texts, "\n");
      T.TrimBlank(T.Join(texts, "\n"));
    }
  }

  // ------------------------------------------------------------------ turns folded away

  function TurnOf(e: UserMessageEvent): RetainedTurn {
    RetainedTurn(UserMessageText(e), e.ts)
  }

  lemma {:induction false} OperatorTurnListed(events: seq<Event>, i: nat)
    requires i < |events| && events[i].UserMessage? && UserMessageText(events[i]) != []
    ensures TurnOf(events[i]) in ExtractOperatorTurns(events)
  {
    hide UserMessageText;
    if i > 0 {
      OperatorTurnListed(events[1..], i - 1);
    }
  }

  lemma {:induction false} TurnFolded(turns: seq<RetainedTurn>, boundary: int, t: RetainedTurn)
    requires t in turns && t.ts < boundary && T.Trim(t.text) != []
    ensures t in Folded(turns, boundary)
  {
    if t != turns[0] {
      TurnFolded(turns[1..], boundary, t);
    }
  }

  /** The text of a history's leading summary seed. */
  function SeedTextOf(h: seq<Message>): string
    requires h != [] && h[0].content != [] && h[0].content[0].Text?
  {
    h[0].content[0].text
  }

  /**
   * What becomes of folded turn `q`: the seed shows its text, escaped but otherwise verbatim, or it
   * is the newest turn, too large for the whole cap, and the seed shows it cut, or it is older than
   * every turn shown and the seed says that older ones were elided.
   */
  ghost predicate TurnAccounted(w: SeedWording, seedText: string, folded: seq<RetainedTurn>, q: nat)
    requires q < |folded|
  {
    var s := SelectFrom(folded, RETAINED_OPERATOR_MAX_TOKENS);
    var cap := RETAINED_OPERATOR_MAX_TOKENS * 4;
    if q < |folded| - |s.kept| then s.elided && T.Contains(seedText, w.elision)
    else
      || T.Contains(seedText, OperatorLine(folded[q]))
      || (q == |folded| - 1 && LineCost(folded[q]) > cap &&
          T.Contains(seedText, OperatorLine(Oversized(folded[q], cap))))
  }

  lemma FoldedTurnAccounted(w: SeedWording, summary: string, folded: seq<RetainedTurn>, q: nat)
    requires q < |folded|
    ensures TurnAccounted(w, SeedText(w, summary, SelectFrom(folded, RETAINED_OPERATOR_MAX_TOKENS)), folded, q)
  {
    hide SeedText, SelectFrom, OperatorLine;
    var s := SelectFrom(folded, RETAINED_OPERATOR_MAX_TOKENS);
    FoldedTurnSurvives(folded, RETAINED_OPERATOR_MAX_TOKENS, q);
    var first := |folded| - |s.kept|;
    if q >= first {
      SeedCarriesLine(w, summary, s, q - first);
      LineOfEscaped(folded[q]);
    } else {
      SeedTellsElision(w, summary, s);
    }
  }

  /** Rendering escapes again, which changes nothing. */
  lemma LineOfEscaped(t: RetainedTurn)
    ensures OperatorLine(Escaped(t)) == OperatorLine(t)
  {
    T.EscapeIdempotent(t.text);
  }

  /**
   * Operator turns never decay. However often a conversation was compacted, whatever a user message of
   * its log says is in the model's history: replayed as written, or in a folded turn that holds those
   * words, alone when the message has no other text, and that is accounted for in the seed.
   */
  lemma {:induction false} OperatorTurnSurvives(w: Wording, log: seq<Event>, i: nat, j: nat) returns (q: nat)
    requires LastCompaction(log).Some?
    requires i < |log| && Says(log[i], j)
    ensures var h, boundary := Reconstruct(w, log, false), LastCompaction(log).value.compactedThroughTs;
            var folded, said := Folded(ExtractOperatorTurns(log), boundary), log[i].content[j].text;
            && h != [] && h[0].content != [] && h[0].content[0].Text?
            && (log[i].ts >= boundary ==> BuildUserMessage(log[i]) in h)
            && (log[i].ts < boundary ==>
                  && q < |folded| && folded[q].ts == log[i].ts
                  && T.Contains(folded[q].text, T.Trim(said))
                  && ((forall k :: 0 <= k < |log[i].content| && k != j ==> !log[i].content[k].Text?) ==>
                        folded[q].text == T.Trim(said))
                  && TurnAccounted(w.seed, SeedTextOf(h), folded, q))
  {
    hide Build, SeedText, UserMessageText, Folded, TurnAccounted, T.Contains, T.Trim;
    var c := LastCompaction(log);
    var boundary := c.value.compactedThroughTs;
    var h := Reconstruct(w, log, false);
    assert h[0] == Seed(w, log, c)[0];
    q := 0;
    if log[i].ts >= boundary {
      UserTurnReplayed(w, log, false, i);
    } else {
      TurnIffSaid(log[i]);
      TurnSays(log[i], j);
      TextIsTrimmed(log[i]);
      OperatorTurnListed(log, i);
      TurnFolded(ExtractOperatorTurns(log), boundary, TurnOf(log[i]));
      var folded := Folded(ExtractOperatorTurns(log), boundary);
      q :| q < |folded| && folded[q] == TurnOf(log[i]);
      FoldedTurnAccounted(w.seed, c.value.summary, folded, q);
    }
  }

  lemma TextIsTrimmed(e: UserMessageEvent)
    ensures T.Trim(UserMessageText(e)) == UserMessageText(e)
  {
    T.TrimIdempotent(T.Join(TextParts(e.content), "\n"));
  }
}
