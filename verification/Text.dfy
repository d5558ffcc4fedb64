/**
 * String operations of the conversation code: whitespace, trimming, joining, truncation,
 * and the escaping of closing tags (src/conversation/escape-closing-tags.ts).
 * Characters are Unicode scalar values; a JavaScript length counts UTF-16 units.
 */
module Text {
  import opened Prelude

  /** The whitespace class of ECMAScript's `\s` and `trim`. */
  predicate IsSpace(c: char) {
    var n := c as int;
    9 <= n <= 13 || n == 0x20 || n == 0xA0 || n == 0x1680 || 0x2000 <= n <= 0x200A ||
    n == 0x2028 || n == 0x2029 || n == 0x202F || n == 0x205F || n == 0x3000 || n == 0xFEFF
  }

  function TrimLeft(s: string): string {
    if s != [] && IsSpace(s[0]) then TrimLeft(s[1..]) else s
  }

  function TrimRight(s: string): string {
    if s != [] && IsSpace(s[|s| - 1]) then TrimRight(s[..|s| - 1]) else s
  }

  function Trim(s: string): string {
    TrimRight(TrimLeft(s))
  }

  /** Nothing but whitespace. */
  predicate IsBlank(s: string) {
    forall i :: 0 <= i < |s| ==> IsSpace(s[i])
  }

  /** Trimming leaves nothing exactly when there was nothing but whitespace. */
  lemma {:induction false} TrimBlank(s: string)
    ensures Trim(s) == [] <==> IsBlank(s)
  {
    TrimLeftBlank(s);
    var t := TrimLeft(s);
    if t != [] {
      TrimRightKeepsHead(t);
    }
  }

  lemma {:induction false} TrimLeftBlank(s: string)
    ensures TrimLeft(s) == [] <==> forall i :: 0 <= i < |s| ==> IsSpace(s[i])
    ensures TrimLeft(s) != [] ==> !IsSpace(TrimLeft(s)[0])
  {
    if s != [] && IsSpace(s[0]) {
      TrimLeftBlank(s[1..]);
      assert forall i :: 0 < i < |s| ==> s[i] == s[1..][i - 1];
    }
  }

  lemma {:induction false} TrimRightKeepsHead(s: string)
    requires s != [] && !IsSpace(s[0])
    ensures TrimRight(s) != []
  {
    if IsSpace(s[|s| - 1]) {
      TrimRightKeepsHead(s[..|s| - 1]);
    }
  }

  /** Trimming adds no character. */
  lemma {:induction false} TrimMembers(s: string)
    ensures forall c :: c in Trim(s) ==> c in s
  {
    TrimLeftMembers(s);
    TrimRightStops(TrimLeft(s));
  }

  lemma {:induction false} TrimLeftMembers(s: string)
    ensures forall c :: c in TrimLeft(s) ==> c in s
  {
    if s != [] && IsSpace(s[0]) {
      TrimLeftMembers(s[1..]);
    }
  }

  /** Trimming a trimmed text changes nothing. */
  lemma {:induction false} TrimIdempotent(s: string)
    ensures Trim(Trim(s)) == Trim(s)
  {
    TrimLeftBlank(s);
    var t := TrimLeft(s);
    TrimRightStops(t);
  }

  lemma {:induction false} TrimRightStops(s: string)
    ensures TrimRight(TrimRight(s)) == TrimRight(s)
    ensures TrimRight(s) <= s
  {
    if s != [] && IsSpace(s[|s| - 1]) {
      TrimRightStops(s[..|s| - 1]);
    }
  }

  /** A text is its trimmed form with what trimming takes on either side; the form starts and ends in text. */
  lemma {:induction false} TrimmedWithin(s: string) returns (pre: string, post: string)
    ensures s == pre + Trim(s) + post
    ensures Trim(s) != [] ==> !IsSpace(Trim(s)[0]) && !IsSpace(Trim(s)[|Trim(s)| - 1])
  {
    pre := TrimLeftTakes(s);
    TrimLeftBlank(s);
    TrimRightEnds(TrimLeft(s));
    post := TrimLeft(s)[|Trim(s)|..];
  }

  lemma {:induction false} TrimLeftTakes(s: string) returns (pre: string)
    ensures s == pre + TrimLeft(s)
  {
    pre := [];
    if s != [] && IsSpace(s[0]) {
      pre := TrimLeftTakes(s[1..]);
      pre := [s[0]] + pre;
    }
  }

  lemma {:induction false} TrimRightEnds(s: string)
    ensures TrimRight(s) <= s
    ensures TrimRight(s) != [] ==> !IsSpace(TrimRight(s)[|TrimRight(s)| - 1])
  {
    if s != [] && IsSpace(s[|s| - 1]) {
      TrimRightEnds(s[..|s| - 1]);
    }
  }

  lemma {:induction false} TrimLeftKeeps(a: string, m: string, b: string) returns (c: string)
    requires m != [] && !IsSpace(m[0])
    ensures TrimLeft(a + m + b) == c + m + b
  {
    c := a;
    if a == [] {
      assert a + m + b == m + b;
    } else if IsSpace(a[0]) {
      assert (a + m + b)[1..] == a[1..] + m + b;
      c := TrimLeftKeeps(a[1..], m, b);
    }
  }

  lemma {:induction false} TrimRightKeeps(a: string, m: string, b: string) returns (c: string)
    requires m != [] && !IsSpace(m[|m| - 1])
    ensures TrimRight(a + m + b) == a + m + c
  {
    c := b;
    if b == [] {
      assert a + m + b == a + m;
    } else if IsSpace(b[|b| - 1]) {
      var t := a + m + b;
      assert t[..|t| - 1] == a + m + b[..|b| - 1];
      c := TrimRightKeeps(a, m, b[..|b| - 1]);
    }
  }

  /** Trimming a whole keeps the trimmed form of each part of it. */
  lemma {:induction false} TrimKeepsPart(pre: string, part: string, post: string)
    requires !IsBlank(part)
    ensures Contains(Trim(pre + part + post), Trim(part))
  {
    var a, b := TrimmedWithin(part);
    TrimBlank(part);
    var m := Trim(part);
    assert pre + part + post == (pre + a) + m + (b + post);
    var l := TrimLeftKeeps(pre + a, m, b + post);
    var r := TrimRightKeeps(l, m, b + post);
    assert OccursAt(l + m + r, m, |l|);
  }

  function Join(parts: seq<string>, sep: string): string {
    if parts == [] then []
    else if |parts| == 1 then parts[0]
    else parts[0] + sep + Join(parts[1..], sep)
  }

  predicate OccursAt(text: string, part: string, i: int) {
    0 <= i <= |text| - |part| && text[i..i + |part|] == part
  }

  /** `part` occurs in `text`. */
  ghost predicate Contains(text: string, part: string) {
    exists i :: OccursAt(text, part, i)
  }

  /** The characters of the parts, each with one for a separator. */
  function PartChars(parts: seq<string>): nat {
    if parts == [] then 0 else |parts[0]| + 1 + PartChars(parts[1..])
  }

  lemma {:induction false} PartCharsConcat(a: seq<string>, b: seq<string>)
    ensures PartChars(a + b) == PartChars(a) + PartChars(b)
  {
    if a == [] {
      assert a + b == b;
    } else {
      assert (a + b)[1..] == a[1..] + b;
      PartCharsConcat(a[1..], b);
    }
  }

  lemma {:induction false} JoinLength(parts: seq<string>, sep: string)
    requires |sep| == 1 && parts != []
    ensures |Join(parts, sep)| == PartChars(parts) - 1
  {
    if |parts| == 1 {
      assert parts[1..] == [];
    } else {
      JoinLength(parts[1..], sep);
    }
  }

  /** A joined text contains each of its parts. */
  lemma {:induction false} JoinContains(parts: seq<string>, sep: string, i: nat)
    returns (pre: string, post: string)
    requires i < |parts|
    ensures Join(parts, sep) == pre + parts[i] + post
  {
    if |parts| == 1 {
      pre, post := [], [];
    } else if i == 0 {
      pre, post := [], sep + Join(parts[1..], sep);
    } else {
      var p, q := JoinContains(parts[1..], sep, i - 1);
      pre, post := parts[0] + sep + p, q;
    }
  }

  /** A joined text contains any two of its parts in their order, a separator apart at least. */
  lemma {:induction false} JoinContainsBoth(parts: seq<string>, sep: string, i: nat, j: nat)
    returns (pre: string, mid: string, post: string)
    requires i < j < |parts|
    ensures Join(parts, sep) == pre + parts[i] + (sep + mid) + parts[j] + post
  {
    if i == 0 {
      mid, post := JoinContains(parts[1..], sep, j - 1);
      pre := [];
    } else {
      pre, mid, post := JoinContainsBoth(parts[1..], sep, i - 1, j - 1);
      pre := parts[0] + sep + pre;
    }
  }

  /** What is joined of whitespace is whitespace. */
  lemma {:induction false} JoinBlank(parts: seq<string>, sep: string)
    requires IsBlank(sep) && forall i :: 0 <= i < |parts| ==> IsBlank(parts[i])
    ensures IsBlank(Join(parts, sep))
  {
    if |parts| > 1 {
      JoinBlank(parts[1..], sep);
    }
  }

  /** At most `max` characters of `s`, with an ellipsis after a cut. */
  function Truncate(s: string, max: nat): (r: string)
    ensures |s| <= max ==> r == s
    ensures |s| > max ==> |r| == max + 1 && r[..max] == s[..max]
  {
    if |s| > max then s[..max] + ['\U{2026}'] else s
  }

  // ------------------------------------------------------------------ closing tags

  /** How many characters a run of whitespace followed by `/` takes at the head of `s`, if one is there. */
  function SlashAfterSpaces(s: string): (r: Option<nat>)
    ensures r.Some? ==> 0 < r.value <= |s| && s[r.value - 1] == '/'
    ensures r.Some? ==> forall i :: 0 <= i < r.value - 1 ==> IsSpace(s[i])
  {
    if s == [] then None
    else if s[0] == '/' then Some(1)
    else if IsSpace(s[0]) then
      match SlashAfterSpaces(s[1..])
      case Some(n) => Some(n + 1)
      case None => None
    else None
  }

  /** A closing form starts at index `i`: `<`, any whitespace, `/`. */
  predicate ClosesAt(s: string, i: nat)
    requires i < |s|
  {
    s[i] == '<' && SlashAfterSpaces(s[i + 1..]).Some?
  }

  ghost predicate HasClosingForm(s: string) {
    exists i :: 0 <= i < |s| && ClosesAt(s, i)
  }

  const ESCAPED_CLOSE := "&lt;/"

  /** Replaces every closing form of `value` by the entity form, left to right. */
  function EscapeClosingTags(value: string): string {
    if value == [] then []
    else if ClosesAt(value, 0) then
      ESCAPED_CLOSE + EscapeClosingTags(value[1 + SlashAfterSpaces(value[1..]).value..])
    else [value[0]] + EscapeClosingTags(value[1..])
  }

  lemma {:induction false} ClosesAtShift(s: string, k: nat)
    requires k <= |s|
    ensures forall i :: k <= i < |s| ==> ClosesAt(s, i) == ClosesAt(s[k..], i - k)
  {
    forall i | k <= i < |s| ensures ClosesAt(s, i) == ClosesAt(s[k..], i - k) {
      assert s[i + 1..] == s[k..][i - k + 1..];
    }
  }

  /** Escaping creates no slash after whitespace at the head of a text. */
  lemma {:induction false} EscapeKeepsHead(s: string)
    requires SlashAfterSpaces(s).None?
    ensures SlashAfterSpaces(EscapeClosingTags(s)).None?
  {
    if s != [] && !ClosesAt(s, 0) {
      var e := EscapeClosingTags(s);
      assert e[1..] == EscapeClosingTags(s[1..]);
      if IsSpace(s[0]) {
        EscapeKeepsHead(s[1..]);
      }
    }
  }

  /** No closing form survives escaping. */
  lemma {:induction false} EscapeRemovesClosingForms(s: string)
    ensures !HasClosingForm(EscapeClosingTags(s))
  {
    var e := EscapeClosingTags(s);
    if s == [] {
    } else if ClosesAt(s, 0) {
      var rest := s[1 + SlashAfterSpaces(s[1..]).value..];
      EscapeRemovesClosingForms(rest);
      ClosesAtShift(e, 5);
      assert e[5..] == EscapeClosingTags(rest);
    } else {
      EscapeRemovesClosingForms(s[1..]);
      ClosesAtShift(e, 1);
      assert e[1..] == EscapeClosingTags(s[1..]);
      if s[0] == '<' {
        EscapeKeepsHead(s[1..]);
      }
    }
  }

  /** Escaping changes a text exactly when it has a closing form. */
  lemma {:induction false} EscapeFixpoint(s: string)
    ensures EscapeClosingTags(s) == s <==> !HasClosingForm(s)
  {
    if HasClosingForm(s) {
      if EscapeClosingTags(s) == s {
        EscapeRemovesClosingForms(s);
      }
    } else {
      EscapeWithoutForms(s);
    }
  }

  lemma {:induction false} EscapeWithoutForms(s: string)
    requires !HasClosingForm(s)
    ensures EscapeClosingTags(s) == s
  {
    if s != [] {
      ClosesAtShift(s, 1);
      forall i | 0 <= i < |s[1..]| ensures !ClosesAt(s[1..], i) {
        assert ClosesAt(s, i + 1) == ClosesAt(s[1..], i);
      }
      EscapeWithoutForms(s[1..]);
    }
  }

  lemma EscapeIdempotent(s: string)
    ensures EscapeClosingTags(EscapeClosingTags(s)) == EscapeClosingTags(s)
  {
    EscapeRemovesClosingForms(s);
    EscapeFixpoint(EscapeClosingTags(s));
  }

  /** Escaping grows a text at most two and a half times, and never empties it. */
  lemma {:induction false} EscapeGrowth(s: string)
    ensures 2 * |EscapeClosingTags(s)| <= 5 * |s|
    ensures EscapeClosingTags(s) == [] <==> s == []
  {
    if s == [] {
    } else if ClosesAt(s, 0) {
      EscapeGrowth(s[1 + SlashAfterSpaces(s[1..]).value..]);
    } else {
      EscapeGrowth(s[1..]);
    }
  }

  /** Text in which no closing form starts passes through, whatever follows it. */
  lemma {:induction false} EscapePassesThrough(a: string, b: string)
    requires forall i :: 0 <= i < |a| ==> !ClosesAt(a + b, i)
    ensures EscapeClosingTags(a + b) == a + EscapeClosingTags(b)
  {
    if a == [] {
      assert a + b == b;
    } else {
      assert (a + b)[1..] == a[1..] + b;
      forall i | 0 <= i < |a| - 1 ensures !ClosesAt(a[1..] + b, i) {
        assert (a + b)[i + 1 + 1..] == (a[1..] + b)[i + 1..];
        assert !ClosesAt(a + b, i + 1);
      }
      EscapePassesThrough(a[1..], b);
    }
  }

  lemma {:induction false} SlashInPrefix(a: string, b: string)
    requires SlashAfterSpaces(a).Some?
    ensures SlashAfterSpaces(a + b) == SlashAfterSpaces(a)
  {
    if a[0] != '/' {
      SlashInPrefix(a[1..], b);
      assert (a + b)[1..] == a[1..] + b;
    }
  }

  /** A closing form seen in a truncated text was there before: the ellipsis is neither `<`, whitespace nor `/`. */
  lemma {:induction false} TruncateReflectsForms(s: string, max: nat, i: nat)
    requires i < |Truncate(s, max)| && ClosesAt(Truncate(s, max), i)
    ensures i < |s| && ClosesAt(s, i)
  {
    if |s| > max {
      var t := Truncate(s, max);
      var m := SlashAfterSpaces(t[i + 1..]).value;
      assert t[i + m] == t[i + 1..][m - 1] == '/' != t[max];
      assert t[..max] == s[..max];
      var form := t[i + 1..][..m];
      assert s[i] == t[i] && form == t[..max][i + 1..i + 1 + m] == s[i + 1..][..m];
      SlashFound(form);
      SlashInPrefix(form, s[i + 1..][m..]);
      assert s[i + 1..] == form + s[i + 1..][m..];
    }
  }

  /**
   * What escaping does to a text taken apart at its first closing form: what is before it stays, the form
   * becomes the entity form whatever whitespace it has, and what follows is escaped on its own.
   */
  lemma {:induction false} EscapeSubstitutes(a: string, spaces: string, b: string)
    requires !HasClosingForm(a) && forall i :: 0 <= i < |spaces| ==> IsSpace(spaces[i])
    ensures EscapeClosingTags(a + ("<" + spaces + "/" + b)) == a + (ESCAPED_CLOSE + EscapeClosingTags(b))
  {
    var form := "<" + spaces + "/" + b;
    forall i | 0 <= i < |a| && ClosesAt(a + form, i) ensures false {
      FormStopsAtNext(a, form, i);
    }
    EscapePassesThrough(a, form);
    SlashIsAt(spaces, b);
    assert form[1..] == spaces + ("/" + b) && form[1 + (|spaces| + 1)..] == b;
  }

  /** A closing form does not reach past the next `<`. */
  lemma {:induction false} FormStopsAtNext(a: string, form: string, i: nat)
    requires i < |a| && form != [] && form[0] == '<' && ClosesAt(a + form, i)
    ensures ClosesAt(a, i)
  {
    var t := a + form;
    var m := SlashAfterSpaces(t[i + 1..]).value;
    assert forall j :: i < j < i + m ==> t[j] == t[i + 1..][j - i - 1];
    assert t[i + m] == '/' && t[|a|] == '<';
    var run := a[i + 1..][..m];
    assert run == t[i + 1..][..m];
    SlashFound(run);
    SlashInPrefix(run, a[i + 1..][m..]);
    assert a[i + 1..] == run + a[i + 1..][m..];
  }

  lemma {:induction false} SlashIsAt(spaces: string, b: string)
    requires forall i :: 0 <= i < |spaces| ==> IsSpace(spaces[i])
    ensures SlashAfterSpaces(spaces + ("/" + b)) == Some(|spaces| + 1)
  {
    if spaces != [] {
      SlashIsAt(spaces[1..], b);
      assert (spaces + ("/" + b))[1..] == spaces[1..] + ("/" + b);
    } else {
      assert spaces + ("/" + b) == "/" + b;
    }
  }

  /** Truncating an escaped text keeps it free of closing forms. */
  lemma TruncateKeepsEscaped(s: string, max: nat)
    requires !HasClosingForm(s)
    ensures !HasClosingForm(Truncate(s, max))
  {
    forall i | 0 <= i < |Truncate(s, max)| && ClosesAt(Truncate(s, max), i) ensures false {
      TruncateReflectsForms(s, max, i);
    }
  }

  /** Whitespace that ends in `/` is recognised. */
  lemma {:induction false} SlashFound(s: string)
    requires s != [] && s[|s| - 1] == '/'
    requires forall i :: 0 <= i < |s| - 1 ==> IsSpace(s[i])
    ensures SlashAfterSpaces(s).Some?
  {
    if s[0] != '/' {
      SlashFound(s[1..]);
    }
  }

  // ------------------------------------------------------------------ numbers and timestamps

  function DigitChar(d: nat): char
    requires d < 10
  {
    '0' + d as char
  }

  /** The last `width` decimal digits of `n`. */
  function Padded(n: int, width: nat): (s: string)
    ensures |s| == width
    decreases width
  {
    if width == 0 then [] else Padded(n / 10, width - 1) + [DigitChar(n % 10)]
  }

  /** Days before year `y` of an era of 400 years that start in March. */
  function DaysBeforeYear(y: int): int {
    365 * y + y / 4 - y / 100
  }

  /** Days before month `m` of a year that starts in March. */
  function DaysBeforeMonth(m: int): int {
    (153 * m + 2) / 5
  }

  function YearOfEra(doe: int): int {
    (doe - doe / 1460 + doe / 36524 - doe / 146096) / 365
  }

  function MonthOfYear(doy: int): int {
    (5 * doy + 2) / 153
  }

  /** The year, from March on, the month in it and the day in that, all from 0, of a day counted from 1970-01-01. */
  function MarchDate(day: int): (int, int, int) {
    var z := day + 719468;
    var yoe := YearOfEra(z % 146097);
    var doy := z % 146097 - DaysBeforeYear(yoe);
    (yoe + z / 146097 * 400, MonthOfYear(doy), doy - DaysBeforeMonth(MonthOfYear(doy)))
  }

  /** The UTC calendar date of a day counted from 1970-01-01. */
  function CivilDate(day: int): (int, int, int) {
    var (year, month, d) := MarchDate(day);
    if month < 10 then (year, month + 3, d + 1) else (year + 1, month - 9, d + 1)
  }

  const ISO_LENGTH := 24

  function IsoDate(year: int, month: int, day: int): (s: string)
    ensures |s| == 10
  {
    Padded(year, 4) + ("-" + (Padded(month, 2) + ("-" + Padded(day, 2))))
  }

  function IsoTime(hour: int, minute: int, second: int, ms: int): (s: string)
    ensures |s| == 13
  {
    Padded(hour, 2) + (":" + (Padded(minute, 2) + (":" + (Padded(second, 2) + ("." + (Padded(ms, 3) + "Z"))))))
  }

  /** `toISOString` of a time in milliseconds, for years of four digits. */
  function Iso(ms: int): (s: string)
    ensures |s| == ISO_LENGTH
  {
    var (year, month, day) := CivilDate(ms / 86400000);
    var t := ms % 86400000;
    IsoDate(year, month, day) + ("T" + IsoTime(t / 3600000, t / 60000 % 60, t / 1000 % 60, t % 1000))
  }
}
