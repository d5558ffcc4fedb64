/** ISO texts compare exactly as the times they name, which is why the model can keep times as integers. */
module IsoOrder {
  import opened Text

  /** How texts of one length compare. */
  predicate Before(s: string, t: string) {
    s != [] && t != [] && (s[0] < t[0] || (s[0] == t[0] && Before(s[1..], t[1..])))
  }

  lemma {:induction false} BeforeByHead(x: string, u: string, y: string, v: string)
    requires |x| == |y|
    ensures Before(x, y) ==> Before(x + u, y + v)
    ensures x == y ==> (Before(x + u, y + v) <==> Before(u, v))
  {
    if x == [] {
      assert x + u == u && y + v == v;
    } else {
      assert (x + u)[1..] == x[1..] + u && (y + v)[1..] == y[1..] + v;
      BeforeByHead(x[1..], u, y[1..], v);
    }
  }

  function PowerOfTen(width: nat): nat {
    if width == 0 then 1 else 10 * PowerOfTen(width - 1)
  }

  lemma {:induction false} PaddedOrder(m: int, n: int, width: nat)
    requires 0 <= m < n < PowerOfTen(width)
    ensures Before(Padded(m, width), Padded(n, width))
  {
    var x, y := [DigitChar(m % 10)], [DigitChar(n % 10)];
    if m / 10 < n / 10 {
      PaddedOrder(m / 10, n / 10, width - 1);
    }
    BeforeByHead(Padded(m / 10, width - 1), x, Padded(n / 10, width - 1), y);
  }

  /** The year `y` of day `doe`, given as the linear facts its divisions stand for; `c` centuries and `k` leap terms. */
  lemma {:induction false} YearBounds(doe: int, k: int, c: int, y: int)
    requires 0 <= c < 4 && 36524 * c <= doe < 36524 * c + 36524 && 1460 * k <= doe < 1460 * k + 1460
    requires 365 * y <= doe - k + c < 365 * y + 365
    ensures 25 * c <= k && 100 * c <= y < 100 * c + 100
    ensures y < 4 * k + 4 && 4 * k <= y + 1
  {
    assert 25 * c <= k;
  }

  lemma {:induction false} YearHolds(doe: int, k: int, c: int, y: int)
    requires 0 <= c < 4 && 36524 * c <= doe < 36524 * c + 36524 && 1460 * k <= doe < 1460 * k + 1460
    requires 365 * y <= doe - k + c < 365 * y + 365
    ensures 0 <= y < 400 && DaysBeforeYear(y) <= doe < DaysBeforeYear(y + 1)
  {
    YearBounds(doe, k, c, y);
    assert y / 100 == c && y / 4 <= k;
    assert k <= (y + 1) / 4;
    if y + 1 == 100 * c + 100 {
      assert DaysBeforeYear(y + 1) == 36524 * (c + 1);
    } else {
      assert (y + 1) / 100 == c;
    }
  }

  lemma {:induction false} YearLength(y: int)
    ensures 365 <= DaysBeforeYear(y + 1) - DaysBeforeYear(y) <= 366
  {
    var q, c := (y + 1) / 100, y / 100;
    assert c <= q <= c + 1 && y / 4 <= (y + 1) / 4 <= y / 4 + 1;
    if q == c + 1 {
      assert y + 1 == 100 * q;
      assert (y + 1) / 4 == 25 * q && y / 4 == 25 * q - 1;
    }
  }

  lemma {:induction false} DayInYear(doe: int)
    requires 0 <= doe < 146097
    ensures 0 <= YearOfEra(doe) < 400
    ensures 0 <= doe - DaysBeforeYear(YearOfEra(doe)) <= 365
    ensures YearOfEra(doe) < 399 ==> doe < DaysBeforeYear(YearOfEra(doe) + 1)
  {
    if doe == 146096 {
      assert YearOfEra(doe) == 399;
    } else {
      assert doe / 146096 == 0;
      hide DaysBeforeYear;
      YearHolds(doe, doe / 1460, doe / 36524, YearOfEra(doe));
      YearLength(YearOfEra(doe));
    }
  }

  lemma {:induction false} DayInMonth(doy: int)
    requires 0 <= doy <= 365
    ensures var m := MonthOfYear(doy); 0 <= m < 12 && DaysBeforeMonth(m) <= doy < DaysBeforeMonth(m + 1)
  {
  }

  predicate DateBefore(a: (int, int, int), b: (int, int, int)) {
    a.0 < b.0 || (a.0 == b.0 && (a.1 < b.1 || (a.1 == b.1 && a.2 < b.2)))
  }

  lemma {:induction false} YearsGrow(y: int, y': int)
    requires 0 <= y <= y'
    ensures DaysBeforeYear(y) <= DaysBeforeYear(y')
  {
  }

  /** Within an era, years do not run backwards. */
  lemma {:induction false} YearsInOrder(x: int, y: int)
    requires 0 <= x < y < 146097
    ensures YearOfEra(x) <= YearOfEra(y)
  {
    DayInYear(x);
    DayInYear(y);
    hide YearOfEra, DaysBeforeYear;
    if YearOfEra(y) < YearOfEra(x) {
      YearsGrow(YearOfEra(y) + 1, YearOfEra(x));
    }
  }

  lemma {:induction false} MonthsInOrder(x: int, y: int)
    requires 0 <= x < y <= 365
    ensures MonthOfYear(x) <= MonthOfYear(y)
  {
  }

  /** Days of an era in order have their dates in order. */
  lemma {:induction false} EraOrder(x: int, y: int)
    requires 0 <= x < y < 146097
    ensures DateBefore(DateInEra(x), DateInEra(y))
  {
    YearsInOrder(x, y);
    DayInYear(x);
    DayInYear(y);
    hide YearOfEra, DaysBeforeYear, MonthOfYear, DaysBeforeMonth;
    if YearOfEra(x) == YearOfEra(y) {
      MonthsInOrder(x - DaysBeforeYear(YearOfEra(x)), y - DaysBeforeYear(YearOfEra(y)));
    }
  }

  /** The March date within an era. */
  function DateInEra(doe: int): (int, int, int) {
    var doy := doe - DaysBeforeYear(YearOfEra(doe));
    (YearOfEra(doe), MonthOfYear(doy), doy - DaysBeforeMonth(MonthOfYear(doy)))
  }

  lemma {:induction false} MarchByEra(day: int, z: int, era: int, doe: int)
    requires z == day + 719468 && era == z / 146097 && doe == z % 146097
    ensures MarchDate(day) == AtEra(DateInEra(doe), era) && 0 <= DateInEra(doe).0 < 400
  {
    DayInYear(doe);
  }

  function AtEra(d: (int, int, int), era: int): (int, int, int) {
    (d.0 + era * 400, d.1, d.2)
  }

  lemma {:induction false} ErasOrder(z: int, z': int)
    requires z < z'
    ensures z / 146097 < z' / 146097 || (z / 146097 == z' / 146097 && z % 146097 < z' % 146097)
  {
  }

  lemma {:induction false} AtErasOrder(d: (int, int, int), era: int, d': (int, int, int), era': int)
    requires 0 <= d.0 < 400 && 0 <= d'.0 < 400
    requires era < era' || (era == era' && DateBefore(d, d'))
    ensures DateBefore(AtEra(d, era), AtEra(d', era'))
  {
  }

  /** Days in order have March dates in order. */
  lemma {:induction false} MarchDatesOrder(a: int, b: int)
    requires a < b
    ensures DateBefore(MarchDate(a), MarchDate(b))
  {
    hide *;
    var z, z' := a + 719468, b + 719468;
    var era, era', x, y := z / 146097, z' / 146097, z % 146097, z' % 146097;
    ErasOrder(z, z');
    MarchByEra(a, z, era, x);
    MarchByEra(b, z', era', y);
    if era == era' {
      EraOrder(x, y);
    }
    AtErasOrder(DateInEra(x), era, DateInEra(y), era');
  }

  lemma {:induction false} DatesOrder(a: int, b: int)
    requires a < b
    ensures DateBefore(CivilDate(a), CivilDate(b))
  {
    MarchDatesOrder(a, b);
    DateInRange(a);
    DateInRange(b);
    hide MarchDate;
  }

  lemma {:induction false} DateInRange(day: int)
    ensures 0 <= MarchDate(day).1 < 12
    ensures 1 <= CivilDate(day).1 <= 12 && 1 <= CivilDate(day).2 <= 31
  {
    var doe := (day + 719468) % 146097;
    DayInYear(doe);
    hide YearOfEra, DaysBeforeYear;
    DayInMonth(doe - DaysBeforeYear(YearOfEra(doe)));
  }

  /** One field of a text of fields, and the rest. */
  lemma {:induction false} FieldOrder(m: int, n: int, width: nat, u: string, v: string)
    requires 0 <= m <= n < PowerOfTen(width) && (m == n ==> Before(u, v))
    ensures Before(Padded(m, width) + u, Padded(n, width) + v)
  {
    if m < n {
      PaddedOrder(m, n, width);
    }
    BeforeByHead(Padded(m, width), u, Padded(n, width), v);
  }

  lemma {:induction false} SameHead(c: string, u: string, v: string)
    requires Before(u, v)
    ensures Before(c + u, c + v)
  {
    BeforeByHead(c, u, c, v);
  }

  lemma {:induction false} IsoDatesOrder(a: (int, int, int), b: (int, int, int))
    requires DateBefore(a, b) && 0 <= a.0 && b.0 < 10000
    requires 0 <= a.1 < 100 && 0 <= b.1 < 100 && 0 <= a.2 < 100 && 0 <= b.2 < 100
    ensures Before(IsoDate(a.0, a.1, a.2), IsoDate(b.0, b.1, b.2))
  {
    Powers();
    hide Before, Padded, PowerOfTen;
    var u, v := "-" + Padded(a.2, 2), "-" + Padded(b.2, 2);
    if a.0 == b.0 {
      if a.1 == b.1 {
        PaddedOrder(a.2, b.2, 2);
        SameHead("-", Padded(a.2, 2), Padded(b.2, 2));
      }
      FieldOrder(a.1, b.1, 2, u, v);
      SameHead("-", Padded(a.1, 2) + u, Padded(b.1, 2) + v);
    }
    FieldOrder(a.0, b.0, 4, "-" + (Padded(a.1, 2) + u), "-" + (Padded(b.1, 2) + v));
  }

  lemma {:induction false} Powers()
    ensures PowerOfTen(2) == 100 && PowerOfTen(3) == 1000 && PowerOfTen(4) == 10000
  {
    assert PowerOfTen(1) == 10;
    assert PowerOfTen(2) == 100;
  }

  lemma {:induction false} IsoTimesOrder(h: int, m: int, s: int, ms: int, h': int, m': int, s': int, ms': int)
    requires 0 <= h <= h' < 24 && 0 <= m < 60 && 0 <= m' < 60 && 0 <= s < 60 && 0 <= s' < 60
    requires 0 <= ms < 1000 && 0 <= ms' < 1000
    requires h < h' || m < m' || (m == m' && (s < s' || (s == s' && ms < ms')))
    ensures Before(IsoTime(h, m, s, ms), IsoTime(h', m', s', ms'))
  {
    Powers();
    hide Before, Padded, PowerOfTen;
    var z, z' := Padded(ms, 3) + "Z", Padded(ms', 3) + "Z";
    var y, y' := Padded(s, 2) + ("." + z), Padded(s', 2) + ("." + z');
    var x, x' := Padded(m, 2) + (":" + y), Padded(m', 2) + (":" + y');
    if h == h' {
      if m == m' {
        if s == s' {
          PaddedOrder(ms, ms', 3);
          BeforeByHead(Padded(ms, 3), "Z", Padded(ms', 3), "Z");
          SameHead(".", z, z');
        }
        FieldOrder(s, s', 2, "." + z, "." + z');
        SameHead(":", y, y');
      }
      FieldOrder(m, m', 2, ":" + y, ":" + y');
      SameHead(":", x, x');
    }
    FieldOrder(h, h', 2, ":" + x, ":" + x');
  }

  /** Times of day in order have their fields in order. */
  lemma {:induction false} ClockOrder(a: int, b: int)
    requires 0 <= a < b < 86400000
    ensures a / 3600000 <= b / 3600000 < 24
    ensures a / 3600000 == b / 3600000 ==>
              || a / 60000 % 60 < b / 60000 % 60
              || (a / 60000 % 60 == b / 60000 % 60 &&
                  (a / 1000 % 60 < b / 1000 % 60 || (a / 1000 % 60 == b / 1000 % 60 && a % 1000 < b % 1000)))
  {
    assert a / 1000 <= b / 1000;
    assert a / 60000 == a / 1000 / 60 && b / 60000 == b / 1000 / 60;
    assert a / 3600000 == a / 60000 / 60 && b / 3600000 == b / 60000 / 60;
  }

  lemma {:induction false} TimesOrder(a: int, b: int)
    requires 0 <= a < b < 86400000
    ensures Before(TimeText(a), TimeText(b))
  {
    ClockOrder(a, b);
    IsoTimesOrder(a / 3600000, a / 60000 % 60, a / 1000 % 60, a % 1000,
                  b / 3600000, b / 60000 % 60, b / 1000 % 60, b % 1000);
  }

  function TimeText(t: int): string {
    IsoTime(t / 3600000, t / 60000 % 60, t / 1000 % 60, t % 1000)
  }

  lemma {:induction false} DayOrTime(a: int, b: int)
    requires a < b
    ensures a / 86400000 < b / 86400000 ||
            (a / 86400000 == b / 86400000 && 0 <= a % 86400000 < b % 86400000 < 86400000)
  {
  }

  predicate FourDigitYear(ms: int) {
    0 <= CivilDate(ms / 86400000).0 < 10000
  }

  /** Within the years of four digits, ISO texts compare exactly as the times they name. */
  lemma {:induction false} IsoOrder(a: int, b: int)
    requires FourDigitYear(a) && FourDigitYear(b)
    ensures Before(Iso(a), Iso(b)) <==> a < b
  {
    if a < b {
      IsoGrows(a, b);
    } else if a == b {
      Irreflexive(Iso(a));
    } else {
      IsoGrows(b, a);
      Asymmetric(Iso(b), Iso(a));
    }
  }

  lemma {:induction false} IsoGrows(a: int, b: int)
    requires a < b && FourDigitYear(a) && FourDigitYear(b)
    ensures Before(Iso(a), Iso(b))
  {
    DayOrTime(a, b);
    var day, day' := a / 86400000, b / 86400000;
    var t, t' := TimeText(a % 86400000), TimeText(b % 86400000);
    if day == day' {
      TimesOrder(a % 86400000, b % 86400000);
      SameHead("T", t, t');
    } else {
      DaysTextOrder(day, day');
    }
    hide CivilDate, Before, IsoDate, IsoTime;
    BeforeByHead(DateText(day), "T" + t, DateText(day'), "T" + t');
  }

  function DateText(day: int): (s: string)
    ensures |s| == 10
  {
    var (y, m, d) := CivilDate(day);
    IsoDate(y, m, d)
  }

  lemma {:induction false} DaysTextOrder(a: int, b: int)
    requires a < b && 0 <= CivilDate(a).0 && CivilDate(b).0 < 10000
    ensures Before(DateText(a), DateText(b))
  {
    DatesOrder(a, b);
    DateInRange(a);
    DateInRange(b);
    hide CivilDate, IsoDate, Before;
    IsoDatesOrder(CivilDate(a), CivilDate(b));
  }

  lemma {:induction false} Irreflexive(s: string)
    ensures !Before(s, s)
  {
    if s != [] {
      Irreflexive(s[1..]);
    }
  }

  lemma {:induction false} Asymmetric(s: string, t: string)
    requires Before(s, t)
    ensures !Before(t, s)
  {
    if s[0] == t[0] {
      Asymmetric(s[1..], t[1..]);
    }
  }
}
