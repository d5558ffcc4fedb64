/** The bound on a tool result's text before it enters model context (src/engine/content-helpers.ts). */
module ContentHelpers {
  import opened Prelude
  import T = Text

  const MAX_TOOL_RESULT_CHARS := 50000

  function Digits(n: nat): string {
    if n < 10 then [T.DigitChar(n)] else Digits(n / 10) + [T.DigitChar(n % 10)]
  }

  /** `toLocaleString("en-US")` of a count: decimal digits in groups of three. */
  function Grouped(n: nat): string {
    if n < 1000 then Digits(n) else Grouped(n / 1000) + "," + T.Padded(n % 1000, 3)
  }

  lemma SmallDigits(n: nat)
    requires n < 1000
    ensures |Digits(n)| == if n < 10 then 1 else if n < 100 then 2 else 3
  {
    if n >= 100 {
      assert |Digits(n / 10)| == 1 + |Digits(n / 100)|;
    }
  }

  /** A larger count is printed at least as wide. */
  lemma {:induction false} GroupedWidth(a: nat, b: nat)
    requires a <= b
    ensures 1 <= |Grouped(a)| <= |Grouped(b)|
  {
    if b < 1000 {
      SmallDigits(a);
      SmallDigits(b);
    } else if a < 1000 {
      SmallDigits(a);
      GroupedWidth(0, b / 1000);
    } else {
      GroupedWidth(a / 1000, b / 1000);
    }
  }

  /** The count a text of digits and commas stands for. */
  function ReadCount(s: string): int {
    if s == [] then 0
    else if s[|s| - 1] == ',' then ReadCount(s[..|s| - 1])
    else 10 * ReadCount(s[..|s| - 1]) + (s[|s| - 1] as int - '0' as int)
  }

  lemma {:induction false} DigitsRead(n: nat)
    ensures ReadCount(Digits(n)) == n
  {
    var s := Digits(n);
    if n < 10 {
      assert s[..0] == [];
    } else {
      DigitsRead(n / 10);
      assert s[..|s| - 1] == Digits(n / 10);
    }
  }

  lemma {:induction false} DigitRead(s: string, d: nat)
    requires d < 10
    ensures ReadCount(s + [T.DigitChar(d)]) == 10 * ReadCount(s) + d
  {
    assert (s + [T.DigitChar(d)])[..|s|] == s;
  }

  lemma {:induction false} GroupRead(s: string, n: nat)
    requires n < 1000
    ensures ReadCount(s + T.Padded(n, 3)) == 1000 * ReadCount(s) + n
  {
    var a, b, c := n / 100, n / 10 % 10, n % 10;
    assert T.Padded(a, 1) == T.Padded(a / 10, 0) + [T.DigitChar(a % 10)] == [T.DigitChar(a)];
    assert T.Padded(n / 10, 2) == T.Padded(n / 10 / 10, 1) + [T.DigitChar(b)] && n / 10 / 10 == a;
    assert s + T.Padded(n, 3) == s + [T.DigitChar(a)] + [T.DigitChar(b)] + [T.DigitChar(c)];
    DigitRead(s, a);
    DigitRead(s + [T.DigitChar(a)], b);
    DigitRead(s + [T.DigitChar(a)] + [T.DigitChar(b)], c);
  }

  /** A printed count reads back as the count. */
  lemma {:induction false} GroupedReads(n: nat)
    ensures ReadCount(Grouped(n)) == n
  {
    if n < 1000 {
      DigitsRead(n);
    } else {
      var head := Grouped(n / 1000);
      GroupedReads(n / 1000);
      assert (head + ",")[..|head|] == head;
      GroupRead(head + ",", n % 1000);
      assert Grouped(n) == head + "," + T.Padded(n % 1000, 3);
    }
  }

  /** The index of the last newline of `s`, if it has one. */
  function LastNewline(s: string): (r: Option<nat>)
    ensures r.Some? ==> r.value < |s| && s[r.value] == '\n' && '\n' !in s[r.value + 1..]
    ensures r.None? ==> '\n' !in s
  {
    if s == [] then None
    else if s[|s| - 1] == '\n' then Some(|s| - 1)
    else LastNewline(s[..|s| - 1])
  }

  /**
   * A prefix of `text` within `limit`: the text itself when it fits, else a cut at the last newline
   * when that keeps more than half of the limit, else a hard cut.
   */
  function SliceOnLineBoundary(text: string, limit: nat): (r: string)
    ensures r <= text && |r| <= limit
    ensures |text| <= limit ==> r == text
    ensures |text| > limit && |r| < limit ==> 2 * |r| > limit && text[|r|] == '\n' && '\n' !in text[|r| + 1..limit]
    ensures |text| > limit > 0 && |r| == limit ==> '\n' !in text[limit / 2 + 1..limit]
  {
    if |text| <= limit then text else
      var slice := text[..limit];
      match LastNewline(slice)
      case Some(n) =>
        assert slice[n + 1..] == text[n + 1..limit];
        if 2 * n > limit then slice[..n]
        else assert forall i :: limit / 2 + 1 <= i < limit ==> text[i] == slice[n + 1..][i - n - 1]; slice
      case None =>
        assert forall i :: 0 <= i < limit ==> text[i] == slice[i];
        slice
  }

  /** The fixed texts around the counts; every result below holds for any wording. */
  datatype Wording = Wording(
    pointerHead: string, pointerTail: string,
    markerHead: string, of: string, chars: string, markerTail: string)
  {
    function Pointer(length: nat): string {
      pointerHead + Grouped(length) + pointerTail
    }

    function Marker(shown: nat, total: nat, omitted: nat): string {
      markerHead + Grouped(shown) + of + Grouped(total) + chars + Grouped(omitted) + markerTail
    }

    /** The text bounded to `limit` characters; `limit <= 0` switches the bound off. */
    function Bound(text: string, hasUiResource: bool, limit: int): string {
      if limit <= 0 || |text| <= limit then text
      else if hasUiResource then
        var pointer := Pointer(|text|);
        if |pointer| <= limit then pointer else pointer[..limit]
      else
        var budget := limit - |Marker(limit, |text|, |text|)|;
        if budget <= 0 then text[..limit]
        else
          var head := SliceOnLineBoundary(text, budget);
          head + Marker(|head|, |text|, |text| - |head|)
    }
  }

  const ENGLISH := Wording(
    "[Tool completed successfully. Result (",
    " chars) is displayed in the inline UI. Do not ask the user to view it separately \U{2014} it is already visible.]",
    "\n\n[Result bounded for model context: showing ",
    " of ",
    " chars (",
    " omitted). The full result is on the user's screen. Re-query with a filter, a narrower scope, " +
    "or a pagination cursor to bring specific items into context.]")

  lemma MarkerWidth(w: Wording, shown: nat, total: nat, omitted: nat, shownMax: nat, omittedMax: nat)
    requires shown <= shownMax && omitted <= omittedMax
    ensures |w.Marker(shown, total, omitted)| <= |w.Marker(shownMax, total, omittedMax)|
  {
    GroupedWidth(shown, shownMax);
    GroupedWidth(omitted, omittedMax);
  }

  /** A positive limit is a hard ceiling, and the text comes back unchanged exactly when it already fits. */
  lemma BoundIsCeiling(w: Wording, text: string, hasUiResource: bool, limit: int)
    requires limit > 0
    ensures |w.Bound(text, hasUiResource, limit)| <= limit
    ensures w.Bound(text, hasUiResource, limit) == text <==> |text| <= limit
  {
    var budget := limit - |w.Marker(limit, |text|, |text|)|;
    if |text| > limit && !hasUiResource && budget > 0 {
      var head := SliceOnLineBoundary(text, budget);
      MarkerWidth(w, |head|, |text|, |text| - |head|, limit, |text|);
    }
  }

  /** A second bound, at an equal or larger limit, changes nothing. */
  lemma BoundIsFixedPoint(w: Wording, text: string, hasUiResource: bool, limit: int, again: bool, larger: int)
    requires 0 < limit <= larger
    ensures w.Bound(w.Bound(text, hasUiResource, limit), again, larger) == w.Bound(text, hasUiResource, limit)
  {
    BoundIsCeiling(w, text, hasUiResource, limit);
  }

  /**
   * A bounded text without an inline UI is a prefix of the original, cut at a line end or at the last
   * character the reserved marker leaves room for, and a marker that counts what is shown, all, and the rest.
   */
  lemma {:induction false} BoundShowsPrefix(w: Wording, text: string, limit: int)
    returns (shown: nat, counted: string, total: string, omitted: string)
    requires 0 < limit < |text| && |w.Marker(limit, |text|, |text|)| < limit
    ensures shown < |text|
    ensures ReadCount(counted) == shown && ReadCount(total) == |text| && ReadCount(omitted) == |text| - shown
    ensures w.Bound(text, false, limit) ==
              text[..shown] + (w.markerHead + counted + w.of + total + w.chars + omitted + w.markerTail)
    ensures shown + |w.Marker(limit, |text|, |text|)| == limit || text[shown] == '\n'
  {
    hide Grouped, ReadCount;
    var head := SliceOnLineBoundary(text, limit - |w.Marker(limit, |text|, |text|)|);
    shown := |head|;
    counted, total, omitted := Grouped(shown), Grouped(|text|), Grouped(|text| - shown);
    GroupedReads(shown);
    GroupedReads(|text|);
    GroupedReads(|text| - shown);
  }

  /** With an inline UI the bounded text is a pointer to it that counts the text, as much of it as the limit holds. */
  lemma {:induction false} BoundPointsToUi(w: Wording, text: string, limit: int) returns (count: string)
    requires 0 < limit < |text|
    ensures ReadCount(count) == |text|
    ensures var pointer := w.pointerHead + count + w.pointerTail;
            w.Bound(text, true, limit) <= pointer && |w.Bound(text, true, limit)| == Min(|pointer|, limit)
  {
    count := Grouped(|text|);
    GroupedReads(|text|);
  }

  // ------------------------------------------------------------------ the persisted record

  /** The `modelOutput` field of a `tool.done` record: present exactly when bounding changed the text. */
  function PersistedModelOutput(w: Wording, output: string, hasUiResource: bool): Option<string> {
    var modelOutput := w.Bound(output, hasUiResource, MAX_TOOL_RESULT_CHARS);
    if modelOutput != output then Some(modelOutput) else None
  }

  /** The text replay gives the model for a record. */
  function ReplayedOutput(w: Wording, output: string, modelOutput: Option<string>): string {
    modelOutput.GetOr(w.Bound(output, false, MAX_TOOL_RESULT_CHARS))
  }

  /** Replaying a persisted record gives the model exactly the text it saw live, inline UI or not. */
  lemma ReplayedAsLive(w: Wording, output: string, hasUiResource: bool)
    ensures ReplayedOutput(w, output, PersistedModelOutput(w, output, hasUiResource))
         == w.Bound(output, hasUiResource, MAX_TOOL_RESULT_CHARS)
  {
    BoundIsCeiling(w, output, hasUiResource, MAX_TOOL_RESULT_CHARS);
    BoundIsCeiling(w, output, false, MAX_TOOL_RESULT_CHARS);
  }
}
