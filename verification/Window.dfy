/** The sliding window over a history (src/conversation/window.ts). */
module Window {
  import opened Prelude
  import opened ConversationTypes

  // ------------------------------------------------------------------ atomic groups

  /** How many tool-result messages lead `ms`. */
  function ResultRun(ms: seq<Message>): (n: nat)
    ensures n <= |ms|
    ensures forall i :: 0 <= i < n ==> ms[i].role == Tool && HasToolResult(ms[i])
    ensures n < |ms| ==> !(ms[n].role == Tool && HasToolResult(ms[n]))
  {
    if ms != [] && ms[0].role == Tool && HasToolResult(ms[0]) then 1 + ResultRun(ms[1..]) else 0
  }

  /** How many messages the leading group takes: a calling message with all its results, or one message. */
  function GroupLength(ms: seq<Message>): (n: nat)
    requires ms != []
    ensures 1 <= n <= |ms|
  {
    if ms[0].role == Assistant && HasToolUse(ms[0]) then 1 + ResultRun(ms[1..]) else 1
  }

  function Groups(ms: seq<Message>): (gs: seq<seq<Message>>)
    ensures ms != [] ==> gs != []
    decreases |ms|
  {
    if ms == [] then [] else [ms[..GroupLength(ms)]] + Groups(ms[GroupLength(ms)..])
  }

  method GroupMessages(messages: seq<Message>) returns (groups: seq<seq<Message>>)
    ensures groups == Groups(messages)
  {
    hide Groups, GroupLength;
    groups := [];
    var i := 0;
    assert messages[0..] == messages;
    while i < |messages|
      invariant 0 <= i <= |messages|
      invariant Groups(messages) == groups + Groups(messages[i..])
    {
      var group := CollectGroup(messages, i);
      ghost var rest := messages[i..];
      GroupStep(rest);
      assert rest[|group|..] == messages[i + |group|..];
      assert groups + ([group] + Groups(rest[|group|..])) == (groups + [group]) + Groups(rest[|group|..]);
      groups := groups + [group];
      i := i + |group|;
    }
    NoGroups(messages[i..]);
  }

  lemma NoGroups(ms: seq<Message>)
    requires ms == []
    ensures Groups(ms) == []
  {
  }

  lemma GroupStep(ms: seq<Message>)
    requires ms != []
    ensures Groups(ms) == [ms[..GroupLength(ms)]] + Groups(ms[GroupLength(ms)..])
  {
  }

  /** The group that starts at index `i`. */
  method CollectGroup(messages: seq<Message>, i: nat) returns (group: seq<Message>)
    requires i < |messages|
    ensures |group| == GroupLength(messages[i..]) && i + |group| <= |messages|
    ensures group == messages[i..][..|group|]
  {
    var msg := messages[i];
    ghost var rest := messages[i..];
    assert rest[1..] == messages[i + 1..];
    group := [msg];
    if msg.role == Assistant && HasToolUse(msg) && i + 1 < |messages|
       && messages[i + 1].role == Tool && HasToolResult(messages[i + 1])
    {
      var results := CollectResults(messages, i + 1);
      group := group + results;
      assert rest[..|group|] == [msg] + rest[1..][..|results|];
    }
  }

  /** All consecutive tool-result messages from index `start` on. */
  method CollectResults(messages: seq<Message>, start: nat) returns (results: seq<Message>)
    requires start <= |messages|
    ensures results == messages[start..][..ResultRun(messages[start..])]
  {
    hide ResultRun;
    results := [];
    var j := start;
    while j < |messages| && messages[j].role == Tool && HasToolResult(messages[j])
      invariant start <= j <= |messages|
      invariant results == messages[start..j]
      invariant ResultRun(messages[start..]) == j - start + ResultRun(messages[j..])
    {
      ResultRunStep(messages, j);
      results := results + [messages[j]];
      j := j + 1;
    }
    ResultRunEnds(messages, j);
    SliceOfSuffix(messages, start, j);
  }

  lemma {:induction false} ResultRunStep(messages: seq<Message>, j: nat)
    requires j < |messages| && messages[j].role == Tool && HasToolResult(messages[j])
    ensures ResultRun(messages[j..]) == 1 + ResultRun(messages[j + 1..])
  {
    assert messages[j..][1..] == messages[j + 1..];
  }

  lemma {:induction false} ResultRunEnds(messages: seq<Message>, j: nat)
    requires j <= |messages|
    requires j < |messages| ==> messages[j].role != Tool || !HasToolResult(messages[j])
    ensures ResultRun(messages[j..]) == 0
  {
  }

  lemma {:induction false} SliceOfSuffix(messages: seq<Message>, start: nat, j: nat)
    requires start <= j <= |messages|
    ensures messages[start..][..j - start] == messages[start..j]
  {
  }

  /** The groups past the first are the groups of what follows it. */
  lemma GroupsPast(ms: seq<Message>, i: nat)
    requires 0 < i <= |Groups(ms)|
    ensures ms != [] && GroupLength(ms) <= |ms| && i - 1 <= |Groups(ms[GroupLength(ms)..])|
    ensures Groups(ms)[i..] == Groups(ms[GroupLength(ms)..])[i - 1..]
  {
  }

  lemma {:induction false} FlattenFirst(ms: seq<Message>, n: nat, rest: seq<seq<Message>>)
    requires n <= |ms| && Flatten(rest) == ms[n..]
    ensures Flatten([ms[..n]] + rest) == ms
  {
    FlattenConcat([ms[..n]], rest);
    FlattenOne(ms[..n]);
  }

  /** Grouping loses nothing and reorders nothing. */
  lemma {:induction false} GroupsFlatten(ms: seq<Message>)
    ensures Flatten(Groups(ms)) == ms
    decreases |ms|
  {
    if ms != [] {
      GroupStep(ms);
      GroupsFlatten(ms[GroupLength(ms)..]);
      FlattenFirst(ms, GroupLength(ms), Groups(ms[GroupLength(ms)..]));
    }
  }

  /** Grouping again from any group boundary gives the same groups. */
  lemma {:induction false} RegroupSuffix(ms: seq<Message>, i: nat)
    requires i <= |Groups(ms)|
    ensures Groups(Flatten(Groups(ms)[i..])) == Groups(ms)[i..]
    decreases i
  {
    if i == 0 {
      GroupsFlatten(ms);
      assert Groups(ms)[0..] == Groups(ms);
    } else {
      GroupsPast(ms, i);
      RegroupSuffix(ms[GroupLength(ms)..], i - 1);
    }
  }

  // ------------------------------------------------------------------ the window

  /** The tokens of a list of groups. */
  function Cost(tok: Message -> nat, gs: seq<seq<Message>>): nat {
    Sum(tok, Flatten(gs))
  }

  lemma CostConcat(tok: Message -> nat, a: seq<seq<Message>>, b: seq<seq<Message>>)
    ensures Cost(tok, a + b) == Cost(tok, a) + Cost(tok, b)
  {
    FlattenConcat(a, b);
    SumConcat(tok, Flatten(a), Flatten(b));
  }

  lemma CostSuffix(tok: Message -> nat, gs: seq<seq<Message>>, i: nat, j: nat)
    requires i <= j <= |gs|
    ensures Cost(tok, gs[j..]) <= Cost(tok, gs[i..])
  {
    assert gs[i..] == gs[i..j] + gs[j..];
    CostConcat(tok, gs[i..j], gs[j..]);
  }

  /** The first group, from `k` on, from which everything fits `room`; the last group if none does. */
  function FirstKept(tok: Message -> nat, gs: seq<seq<Message>>, k: nat, room: int): (r: nat)
    requires k < |gs|
    ensures k <= r < |gs|
    ensures r < |gs| - 1 ==> Cost(tok, gs[r..]) <= room
    ensures forall j :: k <= j < r ==> Cost(tok, gs[j..]) > room
    decreases |gs| - k
  {
    if k == |gs| - 1 || Cost(tok, gs[k..]) <= room then k else FirstKept(tok, gs, k + 1, room)
  }

  lemma FirstKeptIs(tok: Message -> nat, gs: seq<seq<Message>>, i: nat, room: int)
    requires i < |gs|
    requires i < |gs| - 1 ==> Cost(tok, gs[i..]) <= room
    requires i > 0 ==> Cost(tok, gs[i - 1..]) > room
    ensures FirstKept(tok, gs, 0, room) == i
  {
    var r := FirstKept(tok, gs, 0, room);
    if r < i {
      CostSuffix(tok, gs, r, i - 1);
    }
  }

  /** The groups of everything after the anchor. */
  function RestGroups(ms: seq<Message>): (gs: seq<seq<Message>>)
    requires ms != []
    ensures |ms| > 1 ==> gs != []
  {
    Groups(ms[1..])
  }

  /** The window leaves `ms` as it is. */
  predicate Fits(tok: Message -> nat, ms: seq<Message>, maxTokens: int) {
    Sum(tok, ms) <= maxTokens || |ms| <= 2
  }

  /** The first group the window keeps. */
  function KeptFrom(tok: Message -> nat, ms: seq<Message>, maxTokens: int): (r: nat)
    requires |ms| > 1
    ensures r < |RestGroups(ms)|
  {
    FirstKept(tok, RestGroups(ms), 0, maxTokens - tok(ms[0]))
  }

  function WindowOf(tok: Message -> nat, ms: seq<Message>, maxTokens: int): seq<Message> {
    if Fits(tok, ms, maxTokens) then ms
    else [ms[0]] + Flatten(RestGroups(ms)[KeptFrom(tok, ms, maxTokens)..])
  }

  method WindowMessages(tok: Message -> nat, messages: seq<Message>, maxTokens: int) returns (result: seq<Message>)
    ensures result == WindowOf(tok, messages, maxTokens)
  {
    hide Flatten, Cost, Groups;
    if |messages| == 0 {
      return [];
    }
    if Sum(tok, messages) <= maxTokens || |messages| <= 2 {
      return messages;
    }
    var first := messages[0];
    var groups := GroupMessages(messages[1..]);
    var n := |groups| - 1;
    var lastGroup := groups[n];
    var budget := maxTokens - tok(first) - Sum(tok, lastGroup);
    var kept: seq<seq<Message>> := [];
    assert groups[n..] == [lastGroup];
    LoneGroupCost(tok, lastGroup);
    var i := n;
    while i > 0
      invariant 0 <= i <= n
      invariant kept == groups[i..n]
      invariant budget == maxTokens - tok(first) - Cost(tok, groups[i..])
      invariant i < n ==> budget >= 0
    {
      var groupTokens := Sum(tok, groups[i - 1]);
      CostBack(tok, groups, i);
      if budget - groupTokens < 0 {
        break;
      }
      budget := budget - groupTokens;
      kept := [groups[i - 1]] + kept;
      i := i - 1;
    }
    if i > 0 {
      CostBack(tok, groups, i);
    }
    FirstKeptIs(tok, groups, i, maxTokens - tok(first));
    KeptThenLast(groups, i);
    result := [first] + Flatten(kept) + lastGroup;
  }

  lemma LoneGroupCost(tok: Message -> nat, g: seq<Message>)
    ensures Cost(tok, [g]) == Sum(tok, g)
  {
    FlattenOne(g);
  }

  /** One more group costs its own tokens. */
  lemma CostBack(tok: Message -> nat, gs: seq<seq<Message>>, i: nat)
    requires 0 < i <= |gs|
    ensures Cost(tok, gs[i - 1..]) == Sum(tok, gs[i - 1]) + Cost(tok, gs[i..])
  {
    assert gs[i - 1..] == [gs[i - 1]] + gs[i..];
    CostConcat(tok, [gs[i - 1]], gs[i..]);
    LoneGroupCost(tok, gs[i - 1]);
  }

  lemma KeptThenLast(gs: seq<seq<Message>>, i: nat)
    requires i < |gs|
    ensures Flatten(gs[i..]) == Flatten(gs[i..|gs| - 1]) + gs[|gs| - 1]
  {
    FlattenSuffix(gs, i, |gs| - 1);
    assert gs[|gs| - 1..] == [gs[|gs| - 1]];
    FlattenOne(gs[|gs| - 1]);
  }

  // ------------------------------------------------------------------ budget

  lemma WindowCost(tok: Message -> nat, ms: seq<Message>, maxTokens: int)
    requires !Fits(tok, ms, maxTokens)
    ensures Sum(tok, WindowOf(tok, ms, maxTokens)) == tok(ms[0]) +
        Cost(tok, RestGroups(ms)[KeptFrom(tok, ms, maxTokens)..])
  {
    var rest := Flatten(RestGroups(ms)[KeptFrom(tok, ms, maxTokens)..]);
    assert ([ms[0]] + rest)[1..] == rest;
  }

  /**
   * The window keeps the anchor and a contiguous suffix cut at a group boundary. It is within the
   * budget unless there was nothing to cut or the last group alone is all it keeps, and it is
   * maximal: with the next older group it would be over.
   */
  lemma WindowIsGreedy(tok: Message -> nat, ms: seq<Message>, maxTokens: int)
    requires |ms| > 2
    ensures var gs, k := RestGroups(ms), KeptFrom(tok, ms, maxTokens);
            var r := WindowOf(tok, ms, maxTokens);
            && (|| Sum(tok, r) <= maxTokens
                || r == [ms[0]] + gs[|gs| - 1])
            && (r != ms ==>
                  && r == [ms[0]] + Flatten(gs[k..])
                  && ms == [ms[0]] + Flatten(gs[..k]) + Flatten(gs[k..])
                  && (k > 0 ==> Sum(tok, [ms[0]] + Flatten(gs[k - 1..])) > maxTokens))
  {
    hide Groups, Flatten, RestGroups, Sum;
    SplitAtGroup(ms, KeptFrom(tok, ms, maxTokens));
    if !Fits(tok, ms, maxTokens) {
      WindowFits(tok, ms, maxTokens);
      OlderIsOver(tok, ms, maxTokens);
    }
  }

  lemma {:induction false} SplitAtGroup(ms: seq<Message>, k: nat)
    requires ms != [] && k <= |RestGroups(ms)|
    ensures ms == [ms[0]] + Flatten(RestGroups(ms)[..k]) + Flatten(RestGroups(ms)[k..])
  {
    var gs := RestGroups(ms);
    GroupsFlatten(ms[1..]);
    hide Groups, GroupLength, Flatten;
    FlattenSuffix(gs, 0, k);
    assert gs[0..] == gs && gs[0..k] == gs[..k];
    assert ms == [ms[0]] + ms[1..];
  }

  lemma {:induction false} WindowFits(tok: Message -> nat, ms: seq<Message>, maxTokens: int)
    requires !Fits(tok, ms, maxTokens)
    ensures var gs, r := RestGroups(ms), WindowOf(tok, ms, maxTokens);
            Sum(tok, r) <= maxTokens || r == [ms[0]] + gs[|gs| - 1]
  {
    hide Groups, Flatten, RestGroups;
    var gs, k := RestGroups(ms), KeptFrom(tok, ms, maxTokens);
    WindowCost(tok, ms, maxTokens);
    if k == |gs| - 1 {
      assert gs[k..] == [gs[k]];
      FlattenOne(gs[k]);
    }
  }

  lemma {:induction false} OlderIsOver(tok: Message -> nat, ms: seq<Message>, maxTokens: int)
    requires |ms| > 1
    ensures var gs, k := RestGroups(ms), KeptFrom(tok, ms, maxTokens);
            k > 0 ==> Sum(tok, [ms[0]] + Flatten(gs[k - 1..])) > maxTokens
  {
    hide Groups, Flatten, RestGroups;
    var gs, k := RestGroups(ms), KeptFrom(tok, ms, maxTokens);
    if k > 0 {
      var older := Flatten(gs[k - 1..]);
      assert ([ms[0]] + older)[1..] == older;
    }
  }

  /** Windowing a windowed history at the same budget changes nothing. */
  lemma WindowIdempotent(tok: Message -> nat, ms: seq<Message>, maxTokens: int)
    ensures WindowOf(tok, WindowOf(tok, ms, maxTokens), maxTokens) == WindowOf(tok, ms, maxTokens)
  {
    var r := WindowOf(tok, ms, maxTokens);
    if !Fits(tok, ms, maxTokens) && !Fits(tok, r, maxTokens) {
      WindowIsGreedy(tok, ms, maxTokens);
      var gs, k := RestGroups(ms), KeptFrom(tok, ms, maxTokens);
      WindowCost(tok, ms, maxTokens);
      assert k == |gs| - 1 && gs[k..] == [gs[k]];
      RegroupSuffix(ms[1..], k);
      assert r[1..] == Flatten(gs[k..]);
      assert RestGroups(r) == [gs[k]];
    }
  }

  lemma WholeWindow(ms: seq<Message>)
    requires ms != []
    ensures ms == [ms[0]] + Flatten(RestGroups(ms)[0..])
  {
    GroupsFlatten(ms[1..]);
    assert RestGroups(ms)[0..] == RestGroups(ms);
  }

  lemma SuffixBehindHead<T>(x: T, a: seq<T>, b: seq<T>)
    ensures ([x] + b)[1..] == b && ([x] + (a + b))[|a| + 1..] == b
    ensures |[x] + b| == 1 + |b| && |[x] + (a + b)| == 1 + |a| + |b|
  {
  }

  /** A larger budget never keeps less: the smaller window is the anchor and a suffix of the larger one. */
  lemma WindowMonotone(tok: Message -> nat, ms: seq<Message>, small: int, large: int)
    requires small <= large
    ensures var a, b := WindowOf(tok, ms, small), WindowOf(tok, ms, large);
            && |a| <= |b|
            && (ms != [] ==> a != [] && b != [] && a[0] == b[0] == ms[0] && b[|b| - |a| + 1..] == a[1..])
  {
    var a, b := WindowOf(tok, ms, small), WindowOf(tok, ms, large);
    if !Fits(tok, ms, small) {
      var gs, i := RestGroups(ms), KeptFrom(tok, ms, small);
      var j := if Fits(tok, ms, large) then 0 else KeptFrom(tok, ms, large);
      WholeWindow(ms);
      hide Flatten, Groups, RestGroups;
      assert b == [ms[0]] + Flatten(gs[j..]);
      assert j <= i;
      FlattenSuffix(gs, j, i);
      SuffixBehindHead(ms[0], Flatten(gs[j..i]), Flatten(gs[i..]));
    }
  }
}
