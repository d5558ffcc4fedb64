/**
 * The canonical printing that call arguments are digested from (src/api/mcp-input-relay.ts).
 *
 * A number is its JSON text: `JSON.stringify` prints equal numbers alike and different ones
 * differently. Keys are ordered by code point.
 */
module CanonicalJson {
  import opened Prelude

  datatype Json =
    | Undefined
    | Null
    | Bool(b: bool)
    | Num(text: string)
    | Str(s: string)
    | Arr(items: seq<Json>)
    | Obj(members: seq<Member>)

  datatype Member = Member(key: string, value: Json)

  // ------------------------------------------------------------------ sorting by key

  datatype Entry<T> = Entry(key: string, value: T)

  predicate Less(s: string, t: string) {
    t != [] && (s == [] || s[0] < t[0] || (s[0] == t[0] && Less(s[1..], t[1..])))
  }

  function Insert<T>(e: Entry<T>, es: seq<Entry<T>>): seq<Entry<T>> {
    if es == [] || Less(e.key, es[0].key) then [e] + es else [es[0]] + Insert(e, es[1..])
  }

  function Sort<T>(es: seq<Entry<T>>): seq<Entry<T>> {
    if es == [] then [] else Insert(es[0], Sort(es[1..]))
  }

  lemma {:induction false} LessTotal(s: string, t: string)
    ensures !Less(s, s)
    ensures s != t ==> Less(s, t) || Less(t, s)
    ensures !(Less(s, t) && Less(t, s))
  {
    if s != [] {
      LessTotal(s[1..], if t == [] then [] else t[1..]);
      assert t != [] && s[0] == t[0] ==> (s == t <==> s[1..] == t[1..]) by {
        if t != [] && s[0] == t[0] {
          assert s == [s[0]] + s[1..] && t == [t[0]] + t[1..];
        }
      }
    }
  }

  lemma {:induction false} LessTransitive(s: string, t: string, u: string)
    requires Less(s, t) && Less(t, u)
    ensures Less(s, u)
  {
    if s != [] && s[0] == t[0] && t[0] == u[0] {
      LessTransitive(s[1..], t[1..], u[1..]);
    }
  }

  predicate Sorted<T>(es: seq<Entry<T>>) {
    forall i, j :: 0 <= i < j < |es| ==> Less(es[i].key, es[j].key)
  }

  predicate DistinctKeys<T>(es: seq<Entry<T>>) {
    forall i, j :: 0 <= i < j < |es| ==> es[i].key != es[j].key
  }

  lemma {:induction false} InsertMember<T>(e: Entry<T>, es: seq<Entry<T>>, x: Entry<T>)
    ensures x in Insert(e, es) <==> x == e || x in es
  {
    if es != [] && !Less(e.key, es[0].key) {
      InsertMember(e, es[1..], x);
      assert es == [es[0]] + es[1..];
    }
  }

  lemma {:induction false} InsertSorted<T>(e: Entry<T>, es: seq<Entry<T>>)
    requires Sorted(es) && forall i :: 0 <= i < |es| ==> es[i].key != e.key
    ensures Sorted(Insert(e, es))
  {
    if es == [] {
    } else if Less(e.key, es[0].key) {
      forall j | 0 < j < |es| ensures Less(e.key, es[j].key) {
        LessTransitive(e.key, es[0].key, es[j].key);
      }
    } else {
      var rest := Insert(e, es[1..]);
      InsertSorted(e, es[1..]);
      LessTotal(e.key, es[0].key);
      forall j | 0 <= j < |rest| ensures Less(es[0].key, rest[j].key) {
        InsertMember(e, es[1..], rest[j]);
        if rest[j] != e {
          var m := IndexOf(es[1..], rest[j]);
          assert es[m + 1] == rest[j];
        }
      }
    }
  }

  lemma IndexOf<T>(es: seq<Entry<T>>, x: Entry<T>) returns (m: nat)
    requires x in es
    ensures m < |es| && es[m] == x
  {
    m :| m < |es| && es[m] == x;
  }

  lemma {:induction false} SortMember<T>(es: seq<Entry<T>>, x: Entry<T>)
    ensures x in Sort(es) <==> x in es
  {
    if es != [] {
      SortMember(es[1..], x);
      InsertMember(es[0], Sort(es[1..]), x);
      assert es == [es[0]] + es[1..];
    }
  }

  lemma {:induction false} SortSorts<T>(es: seq<Entry<T>>)
    requires DistinctKeys(es)
    ensures Sorted(Sort(es))
  {
    if es != [] {
      var rest := Sort(es[1..]);
      SortSorts(es[1..]);
      forall i | 0 <= i < |rest| ensures rest[i].key != es[0].key {
        SortMember(es[1..], rest[i]);
        var m := IndexOf(es[1..], rest[i]);
        assert es[m + 1] == rest[i];
      }
      InsertSorted(es[0], rest);
    }
  }

  lemma HeadIsMember<T>(es: seq<Entry<T>>)
    requires es != []
    ensures es[0] in es
  {
  }

  /** A sorted list is determined by its entries. */
  lemma {:induction false} SortedUnique<T>(a: seq<Entry<T>>, b: seq<Entry<T>>)
    requires Sorted(a) && Sorted(b) && forall x :: x in a <==> x in b
    ensures a == b
  {
    if b != [] {
      HeadIsMember(b);
    }
    if a != [] {
      HeadIsMember(a);
      var i := IndexOf(a, b[0]);
      var j := IndexOf(b, a[0]);
      LessTotal(a[0].key, b[0].key);
      assert a[0] == b[0];
      forall x ensures x in a[1..] <==> x in b[1..] {
        SortedTail(a, x);
        SortedTail(b, x);
      }
      SortedUnique(a[1..], b[1..]);
      assert a == [a[0]] + a[1..] && b == [b[0]] + b[1..];
    }
  }

  lemma {:induction false} SortedTail<T>(a: seq<Entry<T>>, x: Entry<T>)
    requires a != [] && Sorted(a)
    ensures x in a[1..] <==> x in a && x != a[0]
  {
    LessTotal(a[0].key, a[0].key);
    assert a == [a[0]] + a[1..];
    assert forall i :: 0 <= i < |a[1..]| ==> a[1..][i] == a[i + 1] && Less(a[0].key, a[i + 1].key);
  }

  // ------------------------------------------------------------------ the printing

  const QUOTE := "\""
  const HEX := "0123456789abcdef"

  /** How `JSON.stringify` writes one character of a string. */
  function EscapedChar(c: char): (s: string)
    ensures s != [] && s[0] != '"'
  {
    if c == '"' then "\\\""
    else if c == '\\' then "\\\\"
    else if c as int == 8 then "\\b"
    else if c as int == 9 then "\\t"
    else if c as int == 10 then "\\n"
    else if c as int == 12 then "\\f"
    else if c as int == 13 then "\\r"
    else if (c as int) < 32 then "\\u00" + [HEX[c as int / 16], HEX[c as int % 16]]
    else [c]
  }

  function EscapedChars(s: string): string {
    if s == [] then [] else EscapedChar(s[0]) + EscapedChars(s[1..])
  }

  function Quote(s: string): string {
    QUOTE + EscapedChars(s) + QUOTE
  }

  /** The texts with a comma before each. */
  function Trailing(texts: seq<string>): string {
    if texts == [] then [] else "," + texts[0] + Trailing(texts[1..])
  }

  /** The texts joined by commas. */
  function Commas(texts: seq<string>): string {
    if texts == [] then [] else texts[0] + Trailing(texts[1..])
  }

  function FieldTexts(fields: seq<Entry<string>>): seq<string> {
    if fields == [] then [] else [Quote(fields[0].key) + ":" + fields[0].value] + FieldTexts(fields[1..])
  }

  /** JSON with object keys sorted and undefined members dropped; an undefined item prints as null. */
  function Print(v: Json): string
    decreases v, 1
  {
    match v
    case Undefined => "null"
    case Null => "null"
    case Bool(b) => if b then "true" else "false"
    case Num(text) => text
    case Str(s) => Quote(s)
    case Arr(items) => "[" + Commas(PrintItems(items)) + "]"
    case Obj(members) => "{" + Commas(FieldTexts(Sort(PrintMembers(members)))) + "}"
  }

  function PrintItems(items: seq<Json>): seq<string>
    decreases items, 0
  {
    if items == [] then [] else [Print(items[0])] + PrintItems(items[1..])
  }

  function PrintMembers(members: seq<Member>): seq<Entry<string>>
    decreases members, 0
  {
    if members == [] then []
    else if members[0].value.Undefined? then PrintMembers(members[1..])
    else [Entry(members[0].key, Print(members[0].value))] + PrintMembers(members[1..])
  }

  // ------------------------------------------------------------------ values up to key order

  predicate NumberChar(c: char) {
    '0' <= c <= '9' || c == '-' || c == '+' || c == '.' || c == 'e' || c == 'E'
  }

  predicate IsNumber(text: string) {
    text != [] && forall i :: 0 <= i < |text| ==> NumberChar(text[i])
  }

  /** A value JSON can hold: numbers print as numbers, and an object has one member per key. */
  predicate Valid(v: Json) {
    match v
    case Num(text) => IsNumber(text)
    case Arr(items) => forall i :: 0 <= i < |items| ==> Valid(items[i])
    case Obj(members) =>
      && (forall i, j :: 0 <= i < j < |members| ==> members[i].key != members[j].key)
      && (forall i :: 0 <= i < |members| ==> Valid(members[i].value))
    case _ => true
  }

  /** The same value ignoring the order of object keys, with undefined members absent and undefined items null. */
  predicate Equivalent(a: Json, b: Json)
    decreases a
  {
    match a
    case Undefined => b.Undefined? || b.Null?
    case Null => b.Undefined? || b.Null?
    case Arr(items) =>
      b.Arr? && |items| == |b.items| && forall i :: 0 <= i < |items| ==> Equivalent(items[i], b.items[i])
    case Obj(members) => b.Obj? && SameForward(members, b.members) && SameBackward(members, b.members)
    case _ => a == b
  }

  predicate SameMember(m: Member, k: Member)
    decreases m
  {
    m.key == k.key && !m.value.Undefined? && !k.value.Undefined? && Equivalent(m.value, k.value)
  }

  /** Every defined member of `ms` is matched in `ks`. */
  predicate SameForward(ms: seq<Member>, ks: seq<Member>)
    decreases ms
  {
    forall i :: 0 <= i < |ms| && !ms[i].value.Undefined? ==> exists j :: 0 <= j < |ks| && SameMember(ms[i], ks[j])
  }

  /** Every defined member of `ks` is matched in `ms`. */
  predicate SameBackward(ms: seq<Member>, ks: seq<Member>)
    decreases ms
  {
    forall j :: 0 <= j < |ks| && !ks[j].value.Undefined? ==> exists i :: 0 <= i < |ms| && SameMember(ms[i], ks[j])
  }

  // ------------------------------------------------------------------ canonical values

  /** A value with nothing left to ignore. */
  datatype Canon =
    | CNull
    | CBool(b: bool)
    | CNum(text: string)
    | CStr(s: string)
    | CArr(items: seq<Canon>)
    | CObj(entries: seq<Entry<Canon>>)

  function Canonical(v: Json): Canon
    decreases v, 1
  {
    match v
    case Undefined => CNull
    case Null => CNull
    case Bool(b) => CBool(b)
    case Num(text) => CNum(text)
    case Str(s) => CStr(s)
    case Arr(items) => CArr(CanonicalItems(items))
    case Obj(members) => CObj(Sort(CanonicalMembers(members)))
  }

  function CanonicalItems(items: seq<Json>): (r: seq<Canon>)
    ensures |r| == |items| && forall i :: 0 <= i < |items| ==> r[i] == Canonical(items[i])
    decreases items, 0
  {
    if items == [] then [] else [Canonical(items[0])] + CanonicalItems(items[1..])
  }

  function CanonicalMembers(members: seq<Member>): seq<Entry<Canon>>
    decreases members, 0
  {
    if members == [] then []
    else if members[0].value.Undefined? then CanonicalMembers(members[1..])
    else [Entry(members[0].key, Canonical(members[0].value))] + CanonicalMembers(members[1..])
  }

  function Render(c: Canon): string
    decreases c, 1
  {
    match c
    case CNull => "null"
    case CBool(b) => if b then "true" else "false"
    case CNum(text) => text
    case CStr(s) => Quote(s)
    case CArr(items) => "[" + Commas(RenderItems(items)) + "]"
    case CObj(entries) => "{" + Commas(FieldTexts(RenderEntries(entries))) + "}"
  }

  function RenderItems(items: seq<Canon>): seq<string>
    decreases items, 0
  {
    if items == [] then [] else [Render(items[0])] + RenderItems(items[1..])
  }

  function RenderEntries(entries: seq<Entry<Canon>>): seq<Entry<string>>
    decreases entries, 0
  {
    if entries == [] then [] else [Entry(entries[0].key, Render(entries[0].value))] + RenderEntries(entries[1..])
  }

  // ------------------------------------------------------------------ printing is rendering the canonical value

  lemma {:induction false} InsertRendered(e: Entry<Canon>, es: seq<Entry<Canon>>)
    ensures RenderEntries(Insert(e, es)) == Insert(Entry(e.key, Render(e.value)), RenderEntries(es))
  {
    if es != [] {
      var rendered := RenderEntries(es);
      assert rendered[0].key == es[0].key && rendered[1..] == RenderEntries(es[1..]);
      if Less(e.key, es[0].key) {
        assert ([e] + es)[1..] == es;
      } else {
        InsertRendered(e, es[1..]);
        assert ([es[0]] + Insert(e, es[1..]))[1..] == Insert(e, es[1..]);
      }
    }
  }

  lemma {:induction false} SortRendered(es: seq<Entry<Canon>>)
    ensures RenderEntries(Sort(es)) == Sort(RenderEntries(es))
  {
    if es != [] {
      SortRendered(es[1..]);
      InsertRendered(es[0], Sort(es[1..]));
      assert RenderEntries(es)[1..] == RenderEntries(es[1..]);
    }
  }

  lemma {:induction false} PrintIsRender(v: Json)
    ensures Print(v) == Render(Canonical(v))
    decreases v, 1
  {
    match v
    case Arr(items) => PrintItemsAreRendered(items);
    case Obj(members) =>
      PrintMembersAreRendered(members);
      SortRendered(CanonicalMembers(members));
    case _ =>
  }

  lemma {:induction false} PrintItemsAreRendered(items: seq<Json>)
    ensures PrintItems(items) == RenderItems(CanonicalItems(items))
    decreases items, 0
  {
    if items != [] {
      PrintIsRender(items[0]);
      PrintItemsAreRendered(items[1..]);
      assert CanonicalItems(items) == [Canonical(items[0])] + CanonicalItems(items[1..]);
    }
  }

  lemma {:induction false} PrintMembersAreRendered(members: seq<Member>)
    ensures PrintMembers(members) == RenderEntries(CanonicalMembers(members))
    decreases members, 0
  {
    if members != [] {
      PrintIsRender(members[0].value);
      PrintMembersAreRendered(members[1..]);
      var rest := CanonicalMembers(members[1..]);
      if !members[0].value.Undefined? {
        assert ([Entry(members[0].key, Canonical(members[0].value))] + rest)[1..] == rest;
      }
    }
  }

  // ------------------------------------------------------------------ equivalence is equality of canonical values

  lemma {:induction false} CanonicalMemberFrom(members: seq<Member>, e: Entry<Canon>) returns (i: nat)
    requires e in CanonicalMembers(members)
    ensures i < |members| && !members[i].value.Undefined?
    ensures e == Entry(members[i].key, Canonical(members[i].value))
  {
    if !members[0].value.Undefined? && e == Entry(members[0].key, Canonical(members[0].value)) {
      i := 0;
    } else {
      i := CanonicalMemberFrom(members[1..], e);
      i := i + 1;
    }
  }

  lemma {:induction false} CanonicalMemberTo(members: seq<Member>, i: nat)
    requires i < |members| && !members[i].value.Undefined?
    ensures Entry(members[i].key, Canonical(members[i].value)) in CanonicalMembers(members)
  {
    if i > 0 {
      CanonicalMemberTo(members[1..], i - 1);
    }
  }

  lemma {:induction false} CanonicalKeysDistinct(members: seq<Member>)
    requires forall i, j :: 0 <= i < j < |members| ==> members[i].key != members[j].key
    ensures DistinctKeys(CanonicalMembers(members))
  {
    if members != [] {
      CanonicalKeysDistinct(members[1..]);
      var rest := CanonicalMembers(members[1..]);
      forall j | 0 <= j < |rest| ensures rest[j].key != members[0].key {
        var m := CanonicalMemberFrom(members[1..], rest[j]);
        assert members[m + 1].key == rest[j].key;
      }
    }
  }

  /** Two values are equivalent exactly when their canonical values are equal. */
  lemma {:induction false} EquivalentIffCanonical(a: Json, b: Json)
    requires Valid(a) && Valid(b)
    ensures Equivalent(a, b) <==> Canonical(a) == Canonical(b)
    decreases a
  {
    match a
    case Arr(items) =>
      if b.Arr? {
        forall i | 0 <= i < |items| && i < |b.items|
          ensures Equivalent(items[i], b.items[i]) <==> CanonicalItems(items)[i] == CanonicalItems(b.items)[i]
        {
          EquivalentIffCanonical(items[i], b.items[i]);
        }
      }
    case Obj(members) =>
      if b.Obj? {
        forall i, j | 0 <= i < |members| && 0 <= j < |b.members|
          ensures Equivalent(members[i].value, b.members[j].value)
             <==> Canonical(members[i].value) == Canonical(b.members[j].value)
        {
          EquivalentIffCanonical(members[i].value, b.members[j].value);
        }
        ObjectsIffCanonical(members, b.members);
      }
    case _ =>
  }

  predicate Like(m: Member, k: Member) {
    m.key == k.key && !m.value.Undefined? && !k.value.Undefined? && Canonical(m.value) == Canonical(k.value)
  }

  /** Every defined member of `ms` has its like in `ks`. */
  predicate MembersIn(ms: seq<Member>, ks: seq<Member>) {
    forall i :: 0 <= i < |ms| && !ms[i].value.Undefined? ==> exists j :: 0 <= j < |ks| && Like(ms[i], ks[j])
  }

  ghost predicate EntriesIn<T(!new)>(es: seq<Entry<T>>, fs: seq<Entry<T>>) {
    forall e :: e in es ==> e in fs
  }

  lemma MembersInGives(ms: seq<Member>, ks: seq<Member>)
    requires MembersIn(ms, ks)
    ensures EntriesIn(CanonicalMembers(ms), CanonicalMembers(ks))
  {
    forall e | e in CanonicalMembers(ms) ensures e in CanonicalMembers(ks) {
      var i := CanonicalMemberFrom(ms, e);
      var j :| 0 <= j < |ks| && Like(ms[i], ks[j]);
      CanonicalMemberTo(ks, j);
    }
  }

  lemma MembersInNeeds(ms: seq<Member>, ks: seq<Member>)
    requires EntriesIn(CanonicalMembers(ms), CanonicalMembers(ks))
    ensures MembersIn(ms, ks)
  {
    forall i | 0 <= i < |ms| && !ms[i].value.Undefined? ensures exists j :: 0 <= j < |ks| && Like(ms[i], ks[j]) {
      CanonicalMemberTo(ms, i);
      var j := CanonicalMemberFrom(ks, Entry(ms[i].key, Canonical(ms[i].value)));
      assert Like(ms[i], ks[j]);
    }
  }

  lemma ObjectsIffCanonical(ms: seq<Member>, ks: seq<Member>)
    requires Valid(Obj(ms)) && Valid(Obj(ks))
    requires forall i, j :: 0 <= i < |ms| && 0 <= j < |ks| ==>
               (Equivalent(ms[i].value, ks[j].value) <==> Canonical(ms[i].value) == Canonical(ks[j].value))
    ensures Equivalent(Obj(ms), Obj(ks)) <==> Canonical(Obj(ms)) == Canonical(Obj(ks))
  {
    var es, fs := CanonicalMembers(ms), CanonicalMembers(ks);
    CanonicalKeysDistinct(ms);
    CanonicalKeysDistinct(ks);
    SortedIffSame(es, fs);
    assert Equivalent(Obj(ms), Obj(ks)) <==> MembersIn(ms, ks) && MembersIn(ks, ms) by {
      EquivalentByMembers(ms, ks);
    }
    if EntriesIn(es, fs) && EntriesIn(fs, es) {
      MembersInNeeds(ms, ks);
      MembersInNeeds(ks, ms);
    }
    if MembersIn(ms, ks) && MembersIn(ks, ms) {
      MembersInGives(ms, ks);
      MembersInGives(ks, ms);
    }
  }

  lemma EquivalentByMembers(ms: seq<Member>, ks: seq<Member>)
    requires forall i, j :: 0 <= i < |ms| && 0 <= j < |ks| ==>
               (Equivalent(ms[i].value, ks[j].value) <==> Canonical(ms[i].value) == Canonical(ks[j].value))
    ensures Equivalent(Obj(ms), Obj(ks)) <==> MembersIn(ms, ks) && MembersIn(ks, ms)
  {
    forall i, j | 0 <= i < |ms| && 0 <= j < |ks| ensures SameMember(ms[i], ks[j]) <==> Like(ms[i], ks[j]) {
      assert Equivalent(ms[i].value, ks[j].value) <==> Canonical(ms[i].value) == Canonical(ks[j].value);
    }
    LikesForward(ms, ks);
    LikesBackward(ms, ks);
  }

  lemma LikesForward(ms: seq<Member>, ks: seq<Member>)
    requires forall i, j :: 0 <= i < |ms| && 0 <= j < |ks| ==> (SameMember(ms[i], ks[j]) <==> Like(ms[i], ks[j]))
    ensures SameForward(ms, ks) <==> MembersIn(ms, ks)
  {
    hide Like, SameMember;
  }

  lemma LikesBackward(ms: seq<Member>, ks: seq<Member>)
    requires forall i, j :: 0 <= i < |ms| && 0 <= j < |ks| ==> (SameMember(ms[i], ks[j]) <==> Like(ms[i], ks[j]))
    ensures SameBackward(ms, ks) <==> MembersIn(ks, ms)
  {
    hide SameMember;
    forall i, j | 0 <= i < |ms| && 0 <= j < |ks| ensures SameMember(ms[i], ks[j]) <==> Like(ks[j], ms[i]) {
      assert Like(ms[i], ks[j]) <==> Like(ks[j], ms[i]);
    }
    hide Like;
  }

  lemma SortedIffSame<T(!new)>(es: seq<Entry<T>>, fs: seq<Entry<T>>)
    requires DistinctKeys(es) && DistinctKeys(fs)
    ensures Sort(es) == Sort(fs) <==> EntriesIn(es, fs) && EntriesIn(fs, es)
  {
    SortSorts(es);
    SortSorts(fs);
    forall e ensures (e in Sort(es) <==> e in es) && (e in Sort(fs) <==> e in fs) {
      SortMember(es, e);
      SortMember(fs, e);
    }
    if EntriesIn(es, fs) && EntriesIn(fs, es) {
      SortedUnique(Sort(es), Sort(fs));
    }
  }

  // ------------------------------------------------------------------ printed text reads back

  /** What can follow a printed value. */
  predicate Stop(x: string) {
    x == [] || x[0] == ',' || x[0] == ']' || x[0] == '}'
  }

  predicate ValidCanon(c: Canon) {
    match c
    case CNum(text) => IsNumber(text)
    case CArr(items) => forall i :: 0 <= i < |items| ==> ValidCanon(items[i])
    case CObj(entries) => forall i :: 0 <= i < |entries| ==> ValidCanon(entries[i].value)
    case _ => true
  }

  /** A value read off the front of a text, and the text left over. */
  datatype Reading<+T> = NoReading | Reading(value: T, rest: string)

  function HexValue(c: char): (d: nat)
    ensures d < 16
  {
    if '0' <= c <= '9' then (c - '0') as int else if 'a' <= c <= 'f' then (c - 'a') as int + 10 else 0
  }

  function ReadChar(text: string): (r: Reading<char>)
    ensures r.Reading? ==> |r.rest| < |text|
  {
    if text == [] then NoReading
    else if text[0] != '\\' then Reading(text[0], text[1..])
    else if |text| < 2 then NoReading
    else if text[1] == 'b' then Reading(8 as char, text[2..])
    else if text[1] == 't' then Reading(9 as char, text[2..])
    else if text[1] == 'n' then Reading(10 as char, text[2..])
    else if text[1] == 'f' then Reading(12 as char, text[2..])
    else if text[1] == 'r' then Reading(13 as char, text[2..])
    else if text[1] != 'u' then Reading(text[1], text[2..])
    else if |text| < 6 then NoReading
    else Reading((16 * HexValue(text[4]) + HexValue(text[5])) as char, text[6..])
  }

  /** The characters up to the closing quote. */
  function ReadString(text: string): (r: Reading<string>)
    ensures r.Reading? ==> |r.rest| < |text|
    decreases |text|
  {
    if text == [] then NoReading
    else if text[0] == '"' then Reading([], text[1..])
    else match ReadChar(text)
      case NoReading => NoReading
      case Reading(c, rest) =>
        match ReadString(rest)
        case NoReading => NoReading
        case Reading(s, rest') => Reading([c] + s, rest')
  }

  function NumberLength(text: string): (n: nat)
    ensures n <= |text|
  {
    if text != [] && NumberChar(text[0]) then 1 + NumberLength(text[1..]) else 0
  }

  function ReadValue(text: string): (r: Reading<Canon>)
    ensures r.Reading? ==> |r.rest| < |text|
    decreases |text|, 0
  {
    if text == [] then NoReading
    else if text[0] == 'n' then if |text| < 4 then NoReading else Reading(CNull, text[4..])
    else if text[0] == 't' then if |text| < 4 then NoReading else Reading(CBool(true), text[4..])
    else if text[0] == 'f' then if |text| < 5 then NoReading else Reading(CBool(false), text[5..])
    else if text[0] == '"' then
      match ReadString(text[1..])
      case NoReading => NoReading
      case Reading(s, rest) => Reading(CStr(s), rest)
    else if text[0] == '[' then
      if |text| > 1 && text[1] == ']' then Reading(CArr([]), text[2..])
      else match ReadItems(text[1..])
        case NoReading => NoReading
        case Reading(items, rest) => Reading(CArr(items), rest)
    else if text[0] == '{' then
      if |text| > 1 && text[1] == '}' then Reading(CObj([]), text[2..])
      else match ReadEntries(text[1..])
        case NoReading => NoReading
        case Reading(entries, rest) => Reading(CObj(entries), rest)
    else if NumberLength(text) > 0 then Reading(CNum(text[..NumberLength(text)]), text[NumberLength(text)..])
    else NoReading
  }

  /** One or more items and the bracket that closes them. */
  function ReadItems(text: string): (r: Reading<seq<Canon>>)
    ensures r.Reading? ==> |r.rest| < |text|
    decreases |text|, 1
  {
    match ReadValue(text)
    case NoReading => NoReading
    case Reading(c, rest) =>
      if rest == [] then NoReading
      else if rest[0] == ']' then Reading([c], rest[1..])
      else match ReadItems(rest[1..])
        case NoReading => NoReading
        case Reading(items, rest') => Reading([c] + items, rest')
  }

  /** One or more members and the brace that closes them. */
  function ReadEntries(text: string): (r: Reading<seq<Entry<Canon>>>)
    ensures r.Reading? ==> |r.rest| < |text|
    decreases |text|, 1
  {
    if text == [] then NoReading
    else match ReadString(text[1..])
      case NoReading => NoReading
      case Reading(key, afterKey) =>
        if afterKey == [] then NoReading
        else match ReadValue(afterKey[1..])
          case NoReading => NoReading
          case Reading(c, rest) =>
            if rest == [] then NoReading
            else if rest[0] == '}' then Reading([Entry(key, c)], rest[1..])
            else match ReadEntries(rest[1..])
              case NoReading => NoReading
              case Reading(entries, rest') => Reading([Entry(key, c)] + entries, rest')
  }

  lemma CharReadsBack(c: char, x: string)
    ensures ReadChar(EscapedChar(c) + x) == Reading(c, x)
  {
    var e := EscapedChar(c);
    assert (e + x)[|e|..] == x;
    assert forall i :: 0 <= i < |e| ==> (e + x)[i] == e[i];
  }

  lemma {:induction false} ReadsQuote(x: string)
    ensures EscapedChars([]) + QUOTE + x == QUOTE + x && ReadString(QUOTE + x) == Reading([], x)
  {
    assert EscapedChars([]) == [];
    assert (QUOTE + x)[1..] == x;
  }

  lemma {:induction false} ReadsOneMore(text: string, c: char, rest: string, s: string, x: string)
    requires text != [] && text[0] != '"' && ReadChar(text) == Reading(c, rest) && ReadString(rest) == Reading(s, x)
    ensures ReadString(text) == Reading([c] + s, x)
  {
    hide ReadChar;
  }

  lemma {:induction false} StringReadsBack(s: string, x: string)
    ensures ReadString(EscapedChars(s) + QUOTE + x) == Reading(s, x)
  {
    hide ReadString, ReadChar, EscapedChar;
    if s == [] {
      ReadsQuote(x);
    } else {
      var rest := EscapedChars(s[1..]) + QUOTE + x;
      StringReadsBack(s[1..], x);
      CharReadsBack(s[0], rest);
      var text := EscapedChar(s[0]) + rest;
      assert EscapedChars(s) + QUOTE + x == text;
      ReadsOneMore(text, s[0], rest, s[1..], x);
      assert s == [s[0]] + s[1..];
    }
  }

  lemma {:induction false} NumberReadsBack(s: string, x: string)
    requires forall i :: 0 <= i < |s| ==> NumberChar(s[i])
    requires Stop(x)
    ensures NumberLength(s + x) == |s|
  {
    if s == [] {
      assert s + x == x;
    } else {
      assert (s + x)[0] == s[0] && (s + x)[1..] == s[1..] + x;
      NumberReadsBack(s[1..], x);
    }
  }

  lemma RenderHead(c: Canon)
    requires ValidCanon(c)
    ensures Render(c) != [] && Render(c)[0] != ']' && Render(c)[0] != '}'
  {
  }

  // The text of a list of items, or of members, up to and with what closes it.

  function ItemsText(items: seq<Canon>, x: string): string {
    Commas(RenderItems(items)) + ("]" + x)
  }

  function EntriesText(entries: seq<Entry<Canon>>, x: string): string {
    Commas(FieldTexts(RenderEntries(entries))) + ("}" + x)
  }

  function FieldText(e: Entry<Canon>): string {
    Quote(e.key) + ":" + Render(e.value)
  }

  /** A joined text begins with its first part; a comma or the closing bracket follows. */
  lemma CommasSplit(texts: seq<string>, close: string)
    requires texts != []
    ensures Commas(texts) + close
         == texts[0] + if |texts| == 1 then close else "," + (Commas(texts[1..]) + close)
  {
    var rest := texts[1..];
    if rest != [] {
      assert Trailing(rest) == "," + rest[0] + Trailing(rest[1..]) == "," + Commas(rest);
      assert texts[0] + ("," + Commas(rest)) + close == texts[0] + ("," + (Commas(rest) + close));
    }
  }

  lemma ItemsTextSplit(items: seq<Canon>, x: string)
    requires items != []
    ensures ItemsText(items, x)
         == Render(items[0]) + if |items| == 1 then "]" + x else "," + ItemsText(items[1..], x)
  {
    var texts := RenderItems(items);
    assert texts[0] == Render(items[0]) && texts[1..] == RenderItems(items[1..]);
    assert |items| > 1 <==> texts[1..] != [];
    CommasSplit(texts, "]" + x);
  }

  lemma EntriesTextSplit(entries: seq<Entry<Canon>>, x: string)
    requires entries != []
    ensures EntriesText(entries, x)
         == FieldText(entries[0]) + if |entries| == 1 then "}" + x else "," + EntriesText(entries[1..], x)
  {
    var rendered := RenderEntries(entries);
    var texts := FieldTexts(rendered);
    assert rendered[1..] == RenderEntries(entries[1..]);
    assert texts[0] == FieldText(entries[0]) && texts[1..] == FieldTexts(RenderEntries(entries[1..]));
    assert |entries| > 1 <==> texts[1..] != [];
    CommasSplit(texts, "}" + x);
  }

  lemma ArrayText(items: seq<Canon>, x: string)
    ensures Render(CArr(items)) + x == "[" + ItemsText(items, x)
  {
    assert "[" + Commas(RenderItems(items)) + "]" + x == "[" + (Commas(RenderItems(items)) + ("]" + x));
  }

  lemma ObjectText(entries: seq<Entry<Canon>>, x: string)
    ensures Render(CObj(entries)) + x == "{" + EntriesText(entries, x)
  {
    var c := Commas(FieldTexts(RenderEntries(entries)));
    assert "{" + c + "}" + x == "{" + (c + ("}" + x));
  }

  // One step of the reader each.

  lemma ReadArray(body: string, items: seq<Canon>, rest: string)
    requires body != []
    requires if items == [] then body == "]" + rest else body[0] != ']' && ReadItems(body) == Reading(items, rest)
    ensures ReadValue("[" + body) == Reading(CArr(items), rest)
  {
    var text := "[" + body;
    assert text[0] == '[' && text[1] == body[0] && text[1..] == body && text[2..] == body[1..];
  }

  lemma ReadObject(body: string, entries: seq<Entry<Canon>>, rest: string)
    requires body != []
    requires if entries == [] then body == "}" + rest else body[0] != '}' && ReadEntries(body) == Reading(entries, rest)
    ensures ReadValue("{" + body) == Reading(CObj(entries), rest)
  {
    var text := "{" + body;
    assert text[0] == '{' && text[1] == body[0] && text[1..] == body && text[2..] == body[1..];
  }

  lemma ReadLastItem(text: string, c: Canon, x: string)
    requires ReadValue(text) == Reading(c, "]" + x)
    ensures ReadItems(text) == Reading([c], x)
  {
    assert ("]" + x)[1..] == x;
  }

  lemma ReadNextItem(text: string, c: Canon, more: string, items: seq<Canon>, x: string)
    requires ReadValue(text) == Reading(c, "," + more) && ReadItems(more) == Reading(items, x)
    ensures ReadItems(text) == Reading([c] + items, x)
  {
    assert ("," + more)[1..] == more;
  }

  lemma ReadLastEntry(text: string, key: string, value: string, c: Canon, x: string)
    requires text != [] && ReadString(text[1..]) == Reading(key, ":" + value)
    requires ReadValue(value) == Reading(c, "}" + x)
    ensures ReadEntries(text) == Reading([Entry(key, c)], x)
  {
    assert (":" + value)[1..] == value && ("}" + x)[1..] == x;
  }

  lemma ReadNextEntry(
    text: string, key: string, value: string, c: Canon, more: string, entries: seq<Entry<Canon>>, x: string)
    requires text != [] && ReadString(text[1..]) == Reading(key, ":" + value)
    requires ReadValue(value) == Reading(c, "," + more) && ReadEntries(more) == Reading(entries, x)
    ensures ReadEntries(text) == Reading([Entry(key, c)] + entries, x)
  {
    assert (":" + value)[1..] == value && ("," + more)[1..] == more;
  }

  lemma WordReadsBack(c: Canon, x: string)
    requires c.CNull? || c.CBool?
    ensures ReadValue(Render(c) + x) == Reading(c, x)
  {
    var text := Render(c) + x;
    if c == CBool(false) {
      assert text[0] == 'f' && text[5..] == x;
    } else {
      assert text[0] == (if c.CNull? then 'n' else 't') && text[4..] == x;
    }
  }

  lemma NumReadsBack(t: string, x: string)
    requires IsNumber(t) && Stop(x)
    ensures ReadValue(t + x) == Reading(CNum(t), x)
  {
    var text := t + x;
    NumberReadsBack(t, x);
    assert text[0] == t[0] && text[..|t|] == t && text[|t|..] == x;
  }

  lemma {:induction false} ReadQuoted(text: string, s: string, x: string)
    requires text != [] && text[0] == '"' && ReadString(text[1..]) == Reading(s, x)
    ensures ReadValue(text) == Reading(CStr(s), x)
  {
    hide ReadString;
  }

  lemma StrReadsBack(s: string, x: string)
    ensures ReadValue(Quote(s) + x) == Reading(CStr(s), x)
  {
    hide ReadString, ReadValue, EscapedChars;
    StringReadsBack(s, x);
    var body := EscapedChars(s) + QUOTE + x;
    assert Quote(s) + x == QUOTE + body && (QUOTE + body)[1..] == body;
    ReadQuoted(QUOTE + body, s, x);
  }

  /** A printed value followed by anything that can follow it reads back as itself. */
  lemma {:induction false} ReadsBack(c: Canon, x: string)
    requires ValidCanon(c) && Stop(x)
    ensures ReadValue(Render(c) + x) == Reading(c, x)
    decreases c, 1
  {
    hide ReadValue, Render, ItemsText, EntriesText;
    match c
    case CArr(items) =>
      ArrayText(items, x);
      ItemsReadBack(items, x);
      ReadArray(ItemsText(items, x), items, x);
    case CObj(entries) =>
      ObjectText(entries, x);
      EntriesReadBack(entries, x);
      ReadObject(EntriesText(entries, x), entries, x);
    case _ => ScalarReadsBack(c, x);
  }

  lemma ScalarReadsBack(c: Canon, x: string)
    requires ValidCanon(c) && !c.CArr? && !c.CObj? && Stop(x)
    ensures ReadValue(Render(c) + x) == Reading(c, x)
  {
    hide ReadValue, Quote;
    match c
    case CNum(t) => NumReadsBack(t, x);
    case CStr(s) => StrReadsBack(s, x);
    case _ => WordReadsBack(c, x);
  }

  lemma {:induction false} ItemsReadBack(items: seq<Canon>, x: string)
    requires ValidCanon(CArr(items)) && Stop(x)
    ensures ItemsText(items, x) != []
    ensures if items == [] then ItemsText(items, x) == "]" + x
            else ItemsText(items, x)[0] != ']' && ReadItems(ItemsText(items, x)) == Reading(items, x)
    decreases items, 1
  {
    if items == [] {
      assert ItemsText(items, x) == [] + ("]" + x);
    } else {
      ItemsHead(items, x);
      ItemsReadBackFrom(items, x);
    }
  }

  lemma {:induction false} ItemsHead(items: seq<Canon>, x: string)
    requires items != [] && ValidCanon(items[0])
    ensures ItemsText(items, x) != [] && ItemsText(items, x)[0] != ']'
  {
    hide Render, ItemsText;
    ItemsTextSplit(items, x);
    RenderHead(items[0]);
  }

  lemma {:induction false} ItemsReadBackFrom(items: seq<Canon>, x: string)
    requires items != [] && ValidCanon(CArr(items)) && Stop(x)
    ensures ReadItems(ItemsText(items, x)) == Reading(items, x)
    decreases items, 0
  {
    hide ReadValue, ReadItems, Render, ItemsText;
    ItemsTextSplit(items, x);
    if |items| == 1 {
      ReadsBack(items[0], "]" + x);
      ReadLastItem(ItemsText(items, x), items[0], x);
      assert items == [items[0]];
    } else {
      var more := ItemsText(items[1..], x);
      ReadsBack(items[0], "," + more);
      ItemsReadBack(items[1..], x);
      ReadNextItem(ItemsText(items, x), items[0], more, items[1..], x);
      assert items == [items[0]] + items[1..];
    }
  }

  lemma {:induction false} EntriesReadBack(entries: seq<Entry<Canon>>, x: string)
    requires ValidCanon(CObj(entries)) && Stop(x)
    ensures EntriesText(entries, x) != []
    ensures if entries == [] then EntriesText(entries, x) == "}" + x
            else EntriesText(entries, x)[0] != '}' && ReadEntries(EntriesText(entries, x)) == Reading(entries, x)
    decreases entries, 0
  {
    if entries == [] {
      assert EntriesText(entries, x) == [] + ("}" + x);
    } else {
      hide ReadValue, ReadEntries, ReadString, Render, EntriesText, FieldText;
      var e, text := entries[0], EntriesText(entries, x);
      EntriesTextSplit(entries, x);
      if |entries| == 1 {
        var value := Render(e.value) + ("}" + x);
        FieldReadsBack(e, "}" + x);
        ReadsBack(e.value, "}" + x);
        ReadLastEntry(text, e.key, value, e.value, x);
        assert entries == [e] && Entry(e.key, e.value) == e;
      } else {
        var more := EntriesText(entries[1..], x);
        var value := Render(e.value) + ("," + more);
        FieldReadsBack(e, "," + more);
        ReadsBack(e.value, "," + more);
        EntriesReadBack(entries[1..], x);
        ReadNextEntry(text, e.key, value, e.value, more, entries[1..], x);
        assert entries == [e] + entries[1..];
      }
    }
  }

  /** The key of a printed member reads back, and its value follows a colon. */
  lemma FieldReadsBack(e: Entry<Canon>, after: string)
    ensures var text := FieldText(e) + after;
            text != [] && text[0] == '"' && ReadString(text[1..]) == Reading(e.key, ":" + (Render(e.value) + after))
  {
    hide Render, ReadString, EscapedChars;
    var rest := ":" + (Render(e.value) + after);
    var text := FieldText(e) + after;
    StringReadsBack(e.key, rest);
    assert text == QUOTE + (EscapedChars(e.key) + QUOTE + rest);
    assert text[1..] == EscapedChars(e.key) + QUOTE + rest;
  }

  // ------------------------------------------------------------------ the canonical printing is faithful

  lemma {:induction false} CanonicalIsValid(v: Json)
    requires Valid(v)
    ensures ValidCanon(Canonical(v))
    decreases v
  {
    match v
    case Arr(items) =>
      forall i | 0 <= i < |items| ensures ValidCanon(CanonicalItems(items)[i]) {
        CanonicalIsValid(items[i]);
      }
    case Obj(members) =>
      var sorted := Sort(CanonicalMembers(members));
      forall k | 0 <= k < |sorted| ensures ValidCanon(sorted[k].value) {
        SortMember(CanonicalMembers(members), sorted[k]);
        var i := CanonicalMemberFrom(members, sorted[k]);
        CanonicalIsValid(members[i].value);
      }
    case _ =>
  }

  /**
   * Two argument values print alike exactly when they are equal ignoring the order of object keys:
   * equal arguments always give the digest the same input, and different ones never do.
   */
  lemma PrintIsCanonical(a: Json, b: Json)
    requires Valid(a) && Valid(b)
    ensures Print(a) == Print(b) <==> Equivalent(a, b)
  {
    PrintIsRender(a);
    PrintIsRender(b);
    EquivalentIffCanonical(a, b);
    CanonicalIsValid(a);
    CanonicalIsValid(b);
    ReadsBack(Canonical(a), []);
    ReadsBack(Canonical(b), []);
    assert Render(Canonical(a)) + [] == Render(Canonical(a)) && Render(Canonical(b)) + [] == Render(Canonical(b));
  }
}
