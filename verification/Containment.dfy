/** The fence around untrusted text the model reads (src/prompt/containment.ts). */
module Containment {
  import T = Text

  function SkipSpaces(s: string): (n: nat)
    ensures n <= |s|
    ensures n < |s| ==> !T.IsSpace(s[n])
  {
    if s != [] && T.IsSpace(s[0]) then 1 + SkipSpaces(s[1..]) else 0
  }

  function Lower(c: char): char {
    if 'A' <= c <= 'Z' then c - 'A' + 'a' else c
  }

  /** `s` has `tag`, in any case, at index `at`. */
  predicate TagAt(tag: string, s: string, at: nat) {
    at + |tag| <= |s| && forall i :: 0 <= i < |tag| ==> Lower(s[at + i]) == tag[i]
  }

  /** The length of a closing form of `tag` at the head of `s`, in any case and spacing, or 0. */
  function CloseLength(tag: string, s: string): (n: nat)
    ensures n <= |s|
  {
    if s == [] || s[0] != '<' then 0 else
      var slash := 1 + SkipSpaces(s[1..]);
      if slash == |s| || s[slash] != '/' then 0 else
        var name := slash + 1 + SkipSpaces(s[slash + 1..]);
        if !TagAt(tag, s, name) then 0 else
          var close := name + |tag| + SkipSpaces(s[name + |tag|..]);
          if close == |s| || s[close] != '>' then 0 else close + 1
  }

  /** What every closing form of `tag` is replaced by. */
  function Escaped(tag: string): string {
    "&lt;/" + tag + ">"
  }

  function EscapeTag(tag: string, s: string): string
    decreases |s|
  {
    if s == [] then []
    else if CloseLength(tag, s) > 0 then Escaped(tag) + EscapeTag(tag, s[CloseLength(tag, s)..])
    else [s[0]] + EscapeTag(tag, s[1..])
  }

  function OpenLine(tag: string): string {
    "<" + tag + ">\n"
  }

  function CloseLine(tag: string): string {
    "</" + tag + ">"
  }

  function WrapContained(tag: string, body: string): string {
    OpenLine(tag) + EscapeTag(tag, body) + "\n" + CloseLine(tag)
  }

  predicate IsControl(c: char) {
    c as int < 0x20 || c as int == 0x7F
  }

  function SanitizeLineField(value: string): string {
    T.Trim(seq(|value|, i requires 0 <= i < |value| => if IsControl(value[i]) then ' ' else value[i]))
  }

  function FormatConnectorSkillBlock(name: string, scope: string, body: string, heldCall: bool): string {
    "_" + SanitizeLineField(name) + "_ \U{2014} scope: " + SanitizeLineField(scope) + "; " +
    (if heldCall then "governs the call held above; call it again once read"
     else "surfaced on first matching connector tool call") +
    "\n\n" + WrapContained(CONNECTOR_SKILL, body)
  }

  // ------------------------------------------------------------------ closing forms

  /** The tags that may open a fence are of lower-case letters and hyphens. */
  predicate IsTag(tag: string) {
    tag != [] && forall i :: 0 <= i < |tag| ==> tag[i] == '-' || 'a' <= tag[i] <= 'z'
  }

  /** Where the parts of a closing form at the head of a text stand. */
  datatype Form = Form(slash: nat, name: nat, close: nat)

  predicate SpacesIn(s: string, i: nat, j: nat) {
    i <= j <= |s| && forall k :: i <= k < j ==> T.IsSpace(s[k])
  }

  ghost predicate IsForm(tag: string, s: string, f: Form) {
    && 0 < f.slash < f.name && f.name + |tag| <= f.close < |s|
    && s[0] == '<' && s[f.slash] == '/' && s[f.close] == '>'
    && SpacesIn(s, 1, f.slash) && SpacesIn(s, f.slash + 1, f.name) && SpacesIn(s, f.name + |tag|, f.close)
    && TagAt(tag, s, f.name)
  }

  lemma {:induction false} SpacesAre(s: string)
    ensures SpacesIn(s, 0, SkipSpaces(s))
  {
    if s != [] && T.IsSpace(s[0]) {
      SpacesAre(s[1..]);
      assert forall k :: 0 < k < SkipSpaces(s) ==> s[k] == s[1..][k - 1];
    }
  }

  lemma {:induction false} SpacesFrom(s: string, i: nat)
    requires i <= |s|
    ensures SpacesIn(s, i, i + SkipSpaces(s[i..]))
  {
    SpacesAre(s[i..]);
    assert forall k :: i <= k < i + SkipSpaces(s[i..]) ==> s[k] == s[i..][k - i];
  }

  lemma {:induction false} SpacesEnd(s: string, i: nat, j: nat)
    requires i <= j < |s| && SpacesIn(s, i, j) && !T.IsSpace(s[j])
    ensures SkipSpaces(s[i..]) == j - i
    decreases j - i
  {
    if i < j {
      SpacesEnd(s, i + 1, j);
      assert s[i..][1..] == s[i + 1..];
    }
  }

  /** What `CloseLength` finds is a closing form. */
  lemma {:induction false} FoundIsForm(tag: string, s: string) returns (f: Form)
    requires CloseLength(tag, s) > 0
    ensures IsForm(tag, s, f) && CloseLength(tag, s) == f.close + 1
  {
    var slash := 1 + SkipSpaces(s[1..]);
    var name := slash + 1 + SkipSpaces(s[slash + 1..]);
    var close := name + |tag| + SkipSpaces(s[name + |tag|..]);
    SpacesFrom(s, 1);
    SpacesFrom(s, slash + 1);
    SpacesFrom(s, name + |tag|);
    f := Form(slash, name, close);
  }

  lemma {:induction false} FormSpaces(tag: string, s: string, f: Form)
    requires IsForm(tag, s, f) && IsTag(tag)
    ensures SkipSpaces(s[1..]) == f.slash - 1
    ensures SkipSpaces(s[f.slash + 1..]) == f.name - f.slash - 1
    ensures SkipSpaces(s[f.name + |tag|..]) == f.close - f.name - |tag|
  {
    assert Lower(s[f.name + 0]) == tag[0];
    SpacesEnd(s, 1, f.slash);
    SpacesEnd(s, f.slash + 1, f.name);
    SpacesEnd(s, f.name + |tag|, f.close);
  }

  /** Every closing form is found. */
  lemma {:induction false} FormIsFound(tag: string, s: string, f: Form)
    requires IsForm(tag, s, f) && IsTag(tag)
    ensures CloseLength(tag, s) == f.close + 1
  {
    hide SkipSpaces, TagAt, SpacesIn, IsTag;
    FormSpaces(tag, s, f);
  }

  /** A closing form holds no second `<` and no `&`. */
  lemma {:induction false} FormIsPlain(tag: string, s: string, f: Form, i: nat)
    requires IsForm(tag, s, f) && IsTag(tag) && 0 < i <= f.close
    ensures s[i] != '<' && s[i] != '&'
  {
    if f.name <= i < f.name + |tag| {
      assert Lower(s[f.name + (i - f.name)]) == tag[i - f.name];
    }
  }

  /** A closing form is one wherever its characters are. */
  lemma {:induction false} FormCarries(tag: string, s: string, t: string, f: Form)
    requires IsForm(tag, s, f) && f.close < |t| && s[..f.close + 1] == t[..f.close + 1]
    ensures IsForm(tag, t, f)
  {
    assert forall i :: 0 <= i <= f.close ==> t[i] == t[..f.close + 1][i] == s[i];
  }

  // ------------------------------------------------------------------ no form survives

  /** Up to the first `&` of its result, escaping has changed nothing. */
  lemma {:induction false} EscapeKeepsUpTo(tag: string, s: string, n: nat)
    requires n <= |EscapeTag(tag, s)| && forall i :: 0 <= i < n ==> EscapeTag(tag, s)[i] != '&'
    ensures n <= |s| && s[..n] == EscapeTag(tag, s)[..n]
  {
    if n > 0 {
      var e := EscapeTag(tag, s);
      EscapeHead(tag, s);
      EscapeKeepsUpTo(tag, s[1..], n - 1);
      assert forall i :: 0 <= i < n - 1 ==> e[1..][i] == e[i + 1];
      assert s[..n] == [s[0]] + s[1..][..n - 1] && e[..n] == [e[0]] + e[1..][..n - 1];
    }
  }

  lemma {:induction false} EscapeHead(tag: string, s: string)
    requires EscapeTag(tag, s) != [] && EscapeTag(tag, s)[0] != '&'
    ensures s != [] && CloseLength(tag, s) == 0
    ensures EscapeTag(tag, s)[0] == s[0] && EscapeTag(tag, s)[1..] == EscapeTag(tag, s[1..])
  {
    hide CloseLength;
  }

  /** Escaping makes no closing form out of a `<` that was not one. */
  lemma {:induction false} EscapeMakesNone(tag: string, s: string)
    requires s != [] && IsTag(tag) && CloseLength(tag, s) == 0
    ensures CloseLength(tag, [s[0]] + EscapeTag(tag, s[1..])) == 0
  {
    hide CloseLength, EscapeTag;
    var rest := EscapeTag(tag, s[1..]);
    var e := [s[0]] + rest;
    if CloseLength(tag, e) > 0 {
      var f := FoundIsForm(tag, e);
      forall i | 0 <= i < f.close ensures rest[i] != '&' {
        FormIsPlain(tag, e, f, i + 1);
        assert e[i + 1] == rest[i];
      }
      hide IsForm;
      EscapeKeepsUpTo(tag, s[1..], f.close);
      assert e[..f.close + 1] == [s[0]] + rest[..f.close];
      assert s[..f.close + 1] == [s[0]] + s[1..][..f.close];
      FormCarries(tag, e, s, f);
      FormIsFound(tag, s, f);
    }
  }

  /** No closing form of the tag survives escaping, in any case or spacing. */
  lemma {:induction false} NoFormSurvives(tag: string, s: string, i: nat)
    requires IsTag(tag) && i < |EscapeTag(tag, s)|
    ensures CloseLength(tag, EscapeTag(tag, s)[i..]) == 0
    decreases |s|
  {
    hide CloseLength, EscapeTag, Escaped;
    EscapeUnfolds(tag, s);
    var e, n := EscapeTag(tag, s), CloseLength(tag, s);
    if n > 0 {
      var rest := EscapeTag(tag, s[n..]);
      if i < |Escaped(tag)| {
        EscapedHasNone(tag, i);
        assert e[i..][0] == Escaped(tag)[i];
        NotAForm(tag, e[i..]);
      } else {
        assert e[i..] == rest[i - |Escaped(tag)|..];
        NoFormSurvives(tag, s[n..], i - |Escaped(tag)|);
      }
    } else if i == 0 {
      EscapeMakesNone(tag, s);
      assert e[0..] == e;
    } else {
      assert e[i..] == EscapeTag(tag, s[1..])[i - 1..];
      NoFormSurvives(tag, s[1..], i - 1);
    }
  }

  lemma {:induction false} EscapeUnfolds(tag: string, s: string)
    requires EscapeTag(tag, s) != []
    ensures s != []
    ensures EscapeTag(tag, s) ==
              if CloseLength(tag, s) > 0 then Escaped(tag) + EscapeTag(tag, s[CloseLength(tag, s)..])
              else [s[0]] + EscapeTag(tag, s[1..])
  {
    hide CloseLength;
  }

  lemma {:induction false} EscapedHasNone(tag: string, i: nat)
    requires IsTag(tag) && i < |Escaped(tag)|
    ensures Escaped(tag)[i] != '<'
  {
  }

  // ------------------------------------------------------------------ the fence holds

  lemma {:induction false} CloseLineCloses(tag: string)
    requires IsTag(tag)
    ensures CloseLength(tag, CloseLine(tag)) == |CloseLine(tag)|
  {
    var s := CloseLine(tag);
    assert forall i :: 0 <= i < |tag| ==> s[2 + i] == tag[i];
    FormIsFound(tag, s, Form(1, 2, 2 + |tag|));
  }

  lemma {:induction false} OpenLineHasNone(tag: string, after: string, i: nat)
    requires IsTag(tag) && i < |OpenLine(tag)|
    ensures CloseLength(tag, (OpenLine(tag) + after)[i..]) == 0
  {
    var s := (OpenLine(tag) + after)[i..];
    assert s[0] == OpenLine(tag)[i];
    if i == 0 {
      assert s[1] == OpenLine(tag)[1] == tag[0];
      SpacesEnd(s, 1, 1);
    } else if i <= |tag| {
      assert s[0] == tag[i - 1];
    }
  }

  /** A closing form that starts in `e` ends in `e`, when a newline and then `<` follow it. */
  lemma {:induction false} FormStaysInside(tag: string, e: string, after: string)
    requires IsTag(tag) && after != [] && after[0] == '<' && e != []
    requires CloseLength(tag, e + ("\n" + after)) > 0
    ensures CloseLength(tag, e) > 0
  {
    var t := e + ("\n" + after);
    hide CloseLength;
    var f := FoundIsForm(tag, t);
    assert t[|e|] == '\n' && t[|e| + 1] == '<';
    if |e| + 1 <= f.close {
      FormIsPlain(tag, t, f, |e| + 1);
    } else {
      assert t[f.close] == '>';
      assert f.close < |e| && t[..f.close + 1] == e[..f.close + 1];
      FormCarries(tag, t, e, f);
      FormIsFound(tag, e, f);
    }
  }

  /**
   * A body cannot break out of its fence: the one place in the block where a closing form of its tag
   * starts, in any case or spacing, is its own last line.
   */
  lemma {:induction false} BodyStaysInside(tag: string, body: string, i: nat)
    requires IsTag(tag) && i < |WrapContained(tag, body)|
    ensures CloseLength(tag, WrapContained(tag, body)[i..]) > 0 <==>
            i == |WrapContained(tag, body)| - |CloseLine(tag)|
  {
    hide CloseLength, EscapeTag;
    var open, e, close := OpenLine(tag), EscapeTag(tag, body), CloseLine(tag);
    var block, at := WrapContained(tag, body), |open| + |e| + 1;
    if i < |open| {
      OpenLineHasNone(tag, e + "\n" + close, i);
      assert block == open + (e + "\n" + close);
    } else if i < |open| + |e| {
      var inside := e[i - |open|..];
      assert block[i..] == inside + ("\n" + close);
      NoFormSurvives(tag, body, i - |open|);
      if CloseLength(tag, block[i..]) > 0 {
        FormStaysInside(tag, inside, close);
      }
    } else if i < at {
      NotAForm(tag, block[i..]);
    } else {
      assert block[i..] == close[i - at..];
      if i == at {
        CloseLineCloses(tag);
        assert close[0..] == close;
      } else {
        CloseLineTail(tag, i - at);
        NotAForm(tag, block[i..]);
      }
    }
  }

  lemma {:induction false} NotAForm(tag: string, s: string)
    requires s != [] && s[0] != '<'
    ensures CloseLength(tag, s) == 0
  {
  }

  lemma {:induction false} CloseLineTail(tag: string, i: nat)
    requires IsTag(tag) && 0 < i < |CloseLine(tag)|
    ensures CloseLine(tag)[i..][0] != '<'
  {
    assert CloseLine(tag)[i..][0] == CloseLine(tag)[i];
  }

  const CONNECTOR_SKILL := "connector-skill"

  lemma {:induction false} ConnectorSkillIsTag()
    ensures IsTag(CONNECTOR_SKILL)
  {
  }

  /** A field of the provenance line holds no newline and no other control character, so it opens no line. */
  lemma {:induction false} LineFieldIsOneLine(value: string)
    ensures forall c :: c in SanitizeLineField(value) ==> !IsControl(c)
  {
    var clean := seq(|value|, i requires 0 <= i < |value| => if IsControl(value[i]) then ' ' else value[i]);
    T.TrimMembers(clean);
  }

  /** A connector overlay's block ends in its fence, in which only the last line closes, whatever the overlay says. */
  lemma {:induction false} SkillBlockIsFenced(name: string, scope: string, body: string, heldCall: bool, i: nat)
    requires i < |WrapContained(CONNECTOR_SKILL, body)|
    ensures var block := FormatConnectorSkillBlock(name, scope, body, heldCall);
            var fence := WrapContained(CONNECTOR_SKILL, body);
            && |fence| <= |block| && block[|block| - |fence|..] == fence
            && (CloseLength(CONNECTOR_SKILL, block[|block| - |fence| + i..]) > 0 <==>
                i == |fence| - |CloseLine(CONNECTOR_SKILL)|)
  {
    hide WrapContained, CloseLength, SanitizeLineField;
    ConnectorSkillIsTag();
    BodyStaysInside(CONNECTOR_SKILL, body, i);
    var block := FormatConnectorSkillBlock(name, scope, body, heldCall);
    var fence := WrapContained(CONNECTOR_SKILL, body);
    assert block[|block| - |fence|..] == fence;
    assert block[|block| - |fence| + i..] == fence[i..];
  }

  // ------------------------------------------------------------------ what the block still says

  /** Text in which no closing form starts comes through unchanged, whatever follows it. */
  lemma {:induction false} EscapeKeepsPlain(tag: string, a: string, b: string)
    requires forall i :: 0 <= i < |a| ==> CloseLength(tag, (a + b)[i..]) == 0
    ensures EscapeTag(tag, a + b) == a + EscapeTag(tag, b)
  {
    hide CloseLength;
    if a == [] {
      assert a + b == b;
    } else {
      assert (a + b)[0..] == a + b && (a + b)[1..] == a[1..] + b;
      forall i | 0 <= i < |a| - 1 ensures CloseLength(tag, (a[1..] + b)[i..]) == 0 {
        assert (a[1..] + b)[i..] == (a + b)[i + 1..];
      }
      EscapeKeepsPlain(tag, a[1..], b);
    }
  }

  /** A closing form, in whatever case and spacing, becomes the entity form, and what follows is escaped by itself. */
  lemma {:induction false} EscapeReplacesForm(tag: string, s: string, f: Form)
    requires IsTag(tag) && IsForm(tag, s, f)
    ensures EscapeTag(tag, s) == "&lt;/" + tag + ">" + EscapeTag(tag, s[f.close + 1..])
  {
    FormIsFound(tag, s, f);
    hide CloseLength, IsForm;
  }

  lemma PartIsContained(text: string, pre: string, part: string, post: string)
    requires text == pre + part + post
    ensures T.Contains(text, part)
  {
    assert T.OccursAt(text, part, |pre|);
  }

  /** The block holds the whole body, as it is when it holds no closing form of the fence. */
  lemma {:induction false} SkillBlockShowsBody(name: string, scope: string, body: string, heldCall: bool)
    ensures var block := FormatConnectorSkillBlock(name, scope, body, heldCall);
            && T.Contains(block, EscapeTag(CONNECTOR_SKILL, body))
            && ((forall i :: 0 <= i < |body| ==> CloseLength(CONNECTOR_SKILL, body[i..]) == 0) ==>
                  T.Contains(block, body))
  {
    hide CloseLength, EscapeTag, SanitizeLineField, T.Contains;
    var block, e := FormatConnectorSkillBlock(name, scope, body, heldCall), EscapeTag(CONNECTOR_SKILL, body);
    var fence := WrapContained(CONNECTOR_SKILL, body);
    var head := block[..|block| - |fence|];
    assert block == (head + OpenLine(CONNECTOR_SKILL)) + e + ("\n" + CloseLine(CONNECTOR_SKILL));
    PartIsContained(block, head + OpenLine(CONNECTOR_SKILL), e, "\n" + CloseLine(CONNECTOR_SKILL));
    if forall i :: 0 <= i < |body| ==> CloseLength(CONNECTOR_SKILL, body[i..]) == 0 {
      assert body + [] == body;
      EscapeKeepsPlain(CONNECTOR_SKILL, body, []);
      EscapeNothing(CONNECTOR_SKILL);
      assert body + [] == body;
    }
  }

  lemma EscapeNothing(tag: string)
    ensures EscapeTag(tag, []) == []
  {
  }

  /** A field keeps every stretch of it that holds no control character and neither starts nor ends in whitespace. */
  lemma {:induction false} LineFieldKeeps(pre: string, part: string, post: string)
    requires part != [] && !T.IsSpace(part[0]) && !T.IsSpace(part[|part| - 1])
    requires forall i :: 0 <= i < |part| ==> !IsControl(part[i])
    ensures T.Contains(SanitizeLineField(pre + part + post), part)
  {
    var all := pre + part + post;
    var clean := seq(|all|, i requires 0 <= i < |all| => if IsControl(all[i]) then ' ' else all[i]);
    var a, b := clean[..|pre|], clean[|pre| + |part|..];
    assert clean == a + part + b;
    var l := T.TrimLeftKeeps(a, part, b);
    var r := T.TrimRightKeeps(l, part, b);
    PartIsContained(T.Trim(clean), l, part, r);
  }
}
