// Days from the civil calendar, and the RFC 3339 stamps built on them.
module Calendar {
  import opened Prelude
  import opened Decimal

  datatype Date = Date(year: int, month: int, day: int)

  /** The arithmetic of `unix_from_civil`: years start in March and are grouped in eras of 400. */
  function DaysFromCivil(d: Date): int {
    var y := if d.month <= 2 then d.year - 1 else d.year;
    var m := if d.month <= 2 then d.month + 9 else d.month - 3;
    var era := y / 400;
    var yoe := y % 400;
    var doy := (153 * m + 2) / 5 + d.day - 1;
    var doe := yoe * 365 + yoe / 4 - yoe / 100 + doy;
    era * 146_097 + doe - 719_468
  }

  /** Bounds are checked, but not against the month: 31 February passes. */
  function UnixFromCivil(d: Date, hour: int, minute: int, second: int): Option<int> {
    if !(1 <= d.month <= 12) || !(1 <= d.day <= 31) || !(0 <= hour <= 23) || !(0 <= minute <= 59)
       || !(0 <= second <= 60)
    then None
    else Some(DaysFromCivil(d) * 86_400 + hour * 3_600 + minute * 60 + second)
  }

  // ---------- The Gregorian calendar, counted one day at a time ----------

  predicate Leap(year: int) { year % 4 == 0 && (year % 100 != 0 || year % 400 == 0) }

  function DaysIn(year: int, month: int): int
    requires 1 <= month <= 12
  {
    if month == 2 then (if Leap(year) then 29 else 28)
    else if month == 4 || month == 6 || month == 9 || month == 11 then 30
    else 31
  }

  predicate Valid(d: Date) { 1 <= d.month <= 12 && 1 <= d.day <= DaysIn(d.year, d.month) }

  function NextDay(d: Date): (n: Date)
    requires Valid(d)
    ensures Valid(n)
  {
    if d.day < DaysIn(d.year, d.month) then d.(day := d.day + 1)
    else if d.month < 12 then Date(d.year, d.month + 1, 1)
    else Date(d.year + 1, 1, 1)
  }

  function AddDays(d: Date, n: nat): (r: Date)
    requires Valid(d)
    ensures Valid(r)
  {
    if n == 0 then d else NextDay(AddDays(d, n - 1))
  }

  const EPOCH := Date(1970, 1, 1)

  /** Days before a year that starts in March; the closed form the era arithmetic computes. */
  function DaysBeforeYear(y: int): int { 365 * y + y / 4 - y / 100 + y / 400 }

  lemma EraFree(y: int)
    ensures (y / 400) * 146_097 + (y % 400) * 365 + (y % 400) / 4 - (y % 400) / 100 == DaysBeforeYear(y)
  {
    var era, yoe := y / 400, y % 400;
    assert y == 400 * era + yoe;
    assert y / 4 == 100 * era + yoe / 4;
    assert y / 100 == 4 * era + yoe / 100;
  }

  lemma FloorSteps(y: int)
    ensures y / 4 - (y - 1) / 4 == if y % 4 == 0 then 1 else 0
    ensures y / 100 - (y - 1) / 100 == if y % 100 == 0 then 1 else 0
    ensures y / 400 - (y - 1) / 400 == if y % 400 == 0 then 1 else 0
  {
  }

  lemma Multiples(y: int)
    ensures y % 100 == 0 ==> y % 4 == 0
    ensures y % 400 == 0 ==> y % 100 == 0
  {
  }

  /** Crossing the end of February costs one day more exactly in leap years. */
  lemma YearStep(y: int)
    ensures DaysBeforeYear(y) - DaysBeforeYear(y - 1) == if Leap(y) then 366 else 365
  {
    FloorSteps(y);
    Multiples(y);
  }

  /** Days from 1 March to the first of a month, counting months from March as 0. */
  function MonthOffset(m: int): int { (153 * m + 2) / 5 }

  lemma MonthOffsets()
    ensures MonthOffset(0) == 0 && MonthOffset(1) == 31 && MonthOffset(2) == 61 && MonthOffset(3) == 92
    ensures MonthOffset(4) == 122 && MonthOffset(5) == 153 && MonthOffset(6) == 184 && MonthOffset(7) == 214
    ensures MonthOffset(8) == 245 && MonthOffset(9) == 275 && MonthOffset(10) == 306 && MonthOffset(11) == 337
  {
  }

  lemma DaysClosedForm(d: Date)
    ensures DaysFromCivil(d)
         == (if d.month <= 2 then DaysBeforeYear(d.year - 1) + MonthOffset(d.month + 9)
             else DaysBeforeYear(d.year) + MonthOffset(d.month - 3))
            + d.day - 1 - 719_468
  {
    EraFree(d.year);
    EraFree(d.year - 1);
  }

  /** The closed form at the first of the next month, against the length of this one. */
  lemma MonthEnd(y: int, m: int)
    requires 1 <= m <= 12
    ensures DaysFromCivil(if m < 12 then Date(y, m + 1, 1) else Date(y + 1, 1, 1))
         == DaysFromCivil(Date(y, m, 1)) + DaysIn(y, m)
  {
    DaysClosedForm(Date(y, m, 1));
    DaysClosedForm(if m < 12 then Date(y, m + 1, 1) else Date(y + 1, 1, 1));
    YearStep(y);
    MonthOffsets();
    hide DaysFromCivil, DaysBeforeYear, Leap, MonthOffset;
    if m <= 2 {
    } else if m <= 6 {
    } else if m <= 9 {
    } else {
    }
  }

  /** The next day is one more, over every year, negative ones included, and every leap rule. */
  lemma SuccessorIsOneMore(d: Date)
    requires Valid(d)
    ensures DaysFromCivil(NextDay(d)) == DaysFromCivil(d) + 1
  {
    hide DaysFromCivil, DaysIn, Leap;
    MonthEnd(d.year, d.month);
    DayShift(d);
    DayShift(d.(day := d.day + 1));
    var n := NextDay(d);
    assert n == d.(day := d.day + 1) || d.day == DaysIn(d.year, d.month);
  }

  lemma DayShift(d: Date)
    ensures DaysFromCivil(d) == DaysFromCivil(Date(d.year, d.month, 1)) + d.day - 1
  {
  }

  /** So the formula is the naive count of days since the epoch. */
  lemma {:induction false} CountsDays(n: nat)
    ensures DaysFromCivil(AddDays(EPOCH, n)) == n
  {
    if n == 0 {
      assert DaysFromCivil(EPOCH) == 0;
    } else {
      CountsDays(n - 1);
      SuccessorIsOneMore(AddDays(EPOCH, n - 1));
    }
  }

  predicate Before(a: Date, b: Date) {
    a.year < b.year || (a.year == b.year && (a.month < b.month || (a.month == b.month && a.day < b.day)))
  }

  lemma WithinYear(d: Date)
    requires Valid(d)
    ensures DaysFromCivil(Date(d.year, 1, 1)) <= DaysFromCivil(d) < DaysFromCivil(Date(d.year + 1, 1, 1))
  {
    DaysClosedForm(d);
    DaysClosedForm(Date(d.year, 1, 1));
    DaysClosedForm(Date(d.year + 1, 1, 1));
    YearStep(d.year);
    MonthOffsets();
    hide DaysFromCivil, DaysBeforeYear, Leap, MonthOffset;
  }

  lemma WithinMonths(a: Date, b: Date)
    requires Valid(a) && Valid(b) && a.year == b.year && a.month < b.month
    ensures DaysFromCivil(a) < DaysFromCivil(b)
  {
    DaysClosedForm(a);
    DaysClosedForm(b);
    YearStep(a.year);
    MonthOffsets();
    hide DaysFromCivil, DaysBeforeYear, Leap, MonthOffset;
  }

  lemma {:induction false} YearsGrow(lo: int, hi: int)
    requires lo <= hi
    ensures DaysFromCivil(Date(lo, 1, 1)) <= DaysFromCivil(Date(hi, 1, 1))
    decreases hi - lo
  {
    if lo < hi {
      YearsGrow(lo, hi - 1);
      WithinYear(Date(hi - 1, 1, 1));
    }
  }

  /** Days are ordered as dates are. */
  lemma OrderPreserved(a: Date, b: Date)
    requires Valid(a) && Valid(b)
    ensures Before(a, b) <==> DaysFromCivil(a) < DaysFromCivil(b)
  {
    if Before(a, b) {
      LaterIsMore(a, b);
    } else if Before(b, a) {
      LaterIsMore(b, a);
    }
  }

  lemma LaterIsMore(a: Date, b: Date)
    requires Valid(a) && Valid(b) && Before(a, b)
    ensures DaysFromCivil(a) < DaysFromCivil(b)
  {
    if a.year < b.year {
      WithinYear(a);
      YearsGrow(a.year + 1, b.year);
      WithinYear(b);
    } else if a.month < b.month {
      WithinMonths(a, b);
    } else {
      DayShift(a);
      DayShift(b);
    }
  }

  /** 23:59:60, which `unix_from_civil` accepts, is the next midnight by another name. */
  predicate SameMoment(a: Date, h: int, m: int, s: int, b: Date, h': int, m': int, s': int)
    requires Valid(a)
  {
    b == NextDay(a) && h == 23 && m == 59 && s == 60 && h' == 0 && m' == 0 && s' == 0
  }

  /** Two stamps compare as their dates and times of day do, leap seconds included. */
  lemma StampsOrdered(a: Date, b: Date, h: int, m: int, s: int, h': int, m': int, s': int)
    requires Valid(a) && Valid(b)
    requires UnixFromCivil(a, h, m, s).Some? && UnixFromCivil(b, h', m', s').Some?
    ensures UnixFromCivil(a, h, m, s).value < UnixFromCivil(b, h', m', s').value
       <==> (Before(a, b) && !SameMoment(a, h, m, s, b, h', m', s'))
            || (a == b && h * 3_600 + m * 60 + s < h' * 3_600 + m' * 60 + s')
  {
    hide DaysFromCivil, NextDay, DaysIn;
    OrderPreserved(a, b);
    OrderPreserved(b, a);
    SuccessorIsOneMore(a);
    OrderPreserved(b, NextDay(a));
    OrderPreserved(NextDay(a), b);
  }

  // ---------- Reading a stamp ----------

  /** `str::parse` for an integer type: an optional sign, then digits, within bounds. */
  function ParseInteger(s: string, signed: bool, lo: int, hi: int): Option<int> {
    var negative := s != "" && s[0] == '-';
    var digits := if s != "" && (s[0] == '+' || (signed && s[0] == '-')) then s[1..] else s;
    if digits == "" || !AllDigits(digits) then None
    else
      var magnitude: int := DigitsValue(digits);
      var v := if negative then -magnitude else magnitude;
      if lo <= v <= hi then Some(v) else None
  }

  function ParseU32(s: string): Option<int> { ParseInteger(s, false, 0, TWO_32 - 1) }

  function ParseI32(s: string): Option<int> { ParseInteger(s, true, -0x8000_0000, 0x7fff_ffff) }

  function ParseI64(s: string): Option<int> { ParseInteger(s, true, I64_MIN, I64_MAX) }

  /** A sign is read where the type has one, a plus everywhere. */
  lemma SignsRead(s: string)
    requires s != "" && AllDigits(s) && DigitsValue(s) <= 2_147_483_647
    ensures var v: int := DigitsValue(s);
      && ParseI64(s) == ParseI64("+" + s) == Some(v) && ParseI64("-" + s) == Some(-v)
      && ParseI32(s) == ParseI32("+" + s) == Some(v) && ParseI32("-" + s) == Some(-v)
      && ParseU32(s) == ParseU32("+" + s) == Some(v) && ParseU32("-" + s) == None
  {
    hide DigitsValue;
    assert ("+" + s)[1..] == s && ("-" + s)[1..] == s;
    assert IsDigit(s[0]);
    assert !IsDigit(("-" + s)[0]);
  }

  /** Digits for `v`, behind a plus, or behind a minus for its opposite. */
  ghost predicate SpellsInteger(s: string, digits: string, v: int) {
    && digits != "" && AllDigits(digits)
    && (((s == digits || s == "+" + digits) && v == DigitsValue(digits))
        || (s == "-" + digits && -v == DigitsValue(digits)))
  }

  /** What the number readers read: what the text says, if the type holds it. */
  lemma IntegersExactly(s: string, v: int)
    ensures ParseI64(s) == Some(v) <==> -9_223_372_036_854_775_808 <= v <= 9_223_372_036_854_775_807
                                        && exists digits :: SpellsInteger(s, digits, v)
    ensures ParseI32(s) == Some(v) <==> -2_147_483_648 <= v <= 2_147_483_647
                                        && exists digits :: SpellsInteger(s, digits, v)
    ensures ParseU32(s) == Some(v) ==> 0 <= v <= 4_294_967_295 && exists digits :: SpellsInteger(s, digits, v)
  {
    hide DigitsValue, AllDigits;
    ReadSpells(s, v);
    forall digits | SpellsInteger(s, digits, v) ensures SignedRead(s, v) { SpelledReads(s, digits, v); }
  }

  /** `v` is read from `s` by every signed type that holds it. */
  ghost predicate SignedRead(s: string, v: int) {
    forall lo, hi :: ParseInteger(s, true, lo, hi) == if lo <= v <= hi then Some(v) else None
  }

  lemma SpelledReads(s: string, digits: string, v: int)
    requires SpellsInteger(s, digits, v)
    ensures SignedRead(s, v)
  {
    hide DigitsValue;
    assert IsDigit(digits[0]);
    assert ("+" + digits)[1..] == digits && ("-" + digits)[1..] == digits;
  }

  lemma ReadSpells(s: string, v: int)
    ensures forall signed, lo, hi :: ParseInteger(s, signed, lo, hi) == Some(v) ==>
              lo <= v <= hi && exists digits :: SpellsInteger(s, digits, v)
  {
    hide DigitsValue;
    if s != "" {
      assert s == [s[0]] + s[1..];
      if AllDigits(s) { assert IsDigit(s[0]); }
      forall signed, lo, hi | ParseInteger(s, signed, lo, hi) == Some(v)
        ensures exists digits :: SpellsInteger(s, digits, v)
      {
        assert SpellsInteger(s, if s[0] == '+' || (signed && s[0] == '-') then s[1..] else s, v);
      }
    }
  }

  function EndsWith(s: string, suffix: string): bool {
    |s| >= |suffix| && s[|s| - |suffix|..] == suffix
  }

  function StripZone(s: string): Option<string> {
    if EndsWith(s, "Z") then Some(s[..|s| - 1])
    else if EndsWith(s, "+00:00") then Some(s[..|s| - 6])
    else None
  }

  /** The first three pieces of a split, if there are three; further ones are ignored. */
  function SplitThree(s: string, c: char): Option<(string, string, string)> {
    var (a, rest) := SplitOnce(s, c);
    if c !in s || c !in rest then None
    else
      var (b, tail) := SplitOnce(rest, c);
      Some((a, b, SplitOnce(tail, c).0))
  }

  /** `parse_rfc3339_utc`: `2020-02-26T19:29:16Z`, a fraction of a second dropped. */
  function ParseStamp(text: string): Option<int> {
    var s :- StripZone(Trim(text));
    if 'T' !in s then None
    else
      var (date, time) := SplitOnce(s, 'T');
      var d :- SplitThree(date, '-');
      var year :- ParseI32(d.0);
      var month :- ParseU32(d.1);
      var day :- ParseU32(d.2);
      var t :- SplitThree(SplitOnce(time, '.').0, ':');
      var hour :- ParseU32(t.0);
      var minute :- ParseU32(t.1);
      var second :- ParseU32(t.2);
      UnixFromCivil(Date(year, month, day), hour, minute, second)
  }

  function DateText(d: Date): string
    requires 0 <= d.year && 0 <= d.month && 0 <= d.day
  {
    FixedText(d.year, 4) + "-" + FixedText(d.month, 2) + "-" + FixedText(d.day, 2)
  }

  function TimeText(h: nat, m: nat, s: nat): string {
    FixedText(h, 2) + ":" + FixedText(m, 2) + ":" + FixedText(s, 2)
  }

  lemma ParseFixed(n: nat, k: nat)
    requires 0 < k <= 9 && n < Pow10(k)
    ensures ParseU32(FixedText(n, k)) == Some(n) && (n < 10_000 ==> ParseI32(FixedText(n, k)) == Some(n))
  {
    hide FixedText, DigitsValue, Pow10;
    FixedTextValue(n, k);
    var t := FixedText(n, k);
    assert IsDigit(t[0]);
    Pow10Bound(k);
  }

  lemma Pow10Bound(k: nat)
    requires k <= 9
    ensures Pow10(k) <= 1_000_000_000
  {
    assert Pow10(3) == 1_000 && Pow10(6) == 1_000_000 && Pow10(9) == 1_000_000_000 by {
      assert Pow10(3) == 1_000;
      assert Pow10(6) == 1_000_000;
    }
    if k < 9 { Pow10Grows(k, 9); }
  }

  lemma {:induction false} Pow10Grows(a: nat, b: nat)
    requires a <= b
    ensures Pow10(a) <= Pow10(b)
  {
    if a < b { Pow10Grows(a, b - 1); }
  }

  lemma SeparatorFree(s: string, c: char)
    requires AllDigits(s) && !IsDigit(c)
    ensures c !in s
  {
  }

  lemma SplitThreeOf(a: string, b: string, d: string, c: char)
    requires AllDigits(a) && AllDigits(b) && AllDigits(d) && !IsDigit(c)
    ensures SplitThree(a + [c] + b + [c] + d, c) == Some((a, b, d))
  {
    SeparatorFree(a, c);
    SeparatorFree(b, c);
    SeparatorFree(d, c);
    var s := a + [c] + b + [c] + d;
    var rest := b + [c] + d;
    assert s == a + [c] + rest;
    SplitOnceOf(a, rest, c);
    SplitOnceOf(b, d, c);
    SplitOnceOf(d, "", c);
    assert s[|a|] == c && rest[|b|] == c;
  }

  predicate Utc(zone: string) { zone == "Z" || zone == "+00:00" }

  lemma StripsZone(body: string, zone: string)
    requires body != "" && !IsSpace(body[0]) && Utc(zone)
    ensures StripZone(Trim(body + zone)) == Some(body)
  {
    var s := body + zone;
    assert s[0] == body[0] && s[|s| - 1] == zone[|zone| - 1];
    assert TrimLeft(s) == s && TrimRight(s) == s;
    assert s[..|s| - |zone|] == body && s[|s| - |zone|..] == zone;
    if zone == "+00:00" { assert s[|s| - 1..] == "0"; }
  }

  lemma DateParses(d: Date)
    requires Valid(d) && 0 <= d.year < 10_000
    ensures SplitThree(DateText(d), '-') == Some((FixedText(d.year, 4), FixedText(d.month, 2), FixedText(d.day, 2)))
    ensures ParseI32(FixedText(d.year, 4)) == Some(d.year)
    ensures ParseU32(FixedText(d.month, 2)) == Some(d.month) && ParseU32(FixedText(d.day, 2)) == Some(d.day)
    ensures 'T' !in DateText(d) && DateText(d) != "" && !IsSpace(DateText(d)[0])
  {
    var y, m, n := FixedText(d.year, 4), FixedText(d.month, 2), FixedText(d.day, 2);
    assert Pow10(4) == 10_000 && Pow10(2) == 100;
    ParseFixed(d.year, 4);
    ParseFixed(d.month, 2);
    ParseFixed(d.day, 2);
    SplitThreeOf(y, m, n, '-');
    SeparatorFree(y, 'T');
    SeparatorFree(m, 'T');
    SeparatorFree(n, 'T');
    assert DateText(d) == y + ['-'] + m + ['-'] + n;
    assert DateText(d)[0] == y[0] && IsDigit(y[0]);
  }

  lemma TimeParses(h: nat, m: nat, s: nat)
    requires h < 100 && m < 100 && s < 100
    ensures '.' !in TimeText(h, m, s)
    ensures SplitThree(TimeText(h, m, s), ':') == Some((FixedText(h, 2), FixedText(m, 2), FixedText(s, 2)))
    ensures ParseU32(FixedText(h, 2)) == Some(h) && ParseU32(FixedText(m, 2)) == Some(m)
    ensures ParseU32(FixedText(s, 2)) == Some(s)
  {
    var a, b, c := FixedText(h, 2), FixedText(m, 2), FixedText(s, 2);
    assert Pow10(2) == 100;
    ParseFixed(h, 2);
    ParseFixed(m, 2);
    ParseFixed(s, 2);
    SplitThreeOf(a, b, c, ':');
    assert TimeText(h, m, s) == a + [':'] + b + [':'] + c;
    SeparatorFree(a, '.');
    SeparatorFree(b, '.');
    SeparatorFree(c, '.');
  }

  lemma StampFromPieces(text: string, body: string, date: string, time: string,
                        d: (string, string, string), t: (string, string, string),
                        day: Date, h: int, m: int, s: int)
    requires StripZone(Trim(text)) == Some(body) && 'T' in body && SplitOnce(body, 'T') == (date, time)
    requires SplitThree(date, '-') == Some(d) && SplitThree(SplitOnce(time, '.').0, ':') == Some(t)
    requires ParseI32(d.0) == Some(day.year) && ParseU32(d.1) == Some(day.month) && ParseU32(d.2) == Some(day.day)
    requires ParseU32(t.0) == Some(h) && ParseU32(t.1) == Some(m) && ParseU32(t.2) == Some(s)
    ensures ParseStamp(text) == UnixFromCivil(day, h, m, s)
  {
    hide ParseI32, ParseU32, SplitThree, SplitOnce, StripZone, Trim, UnixFromCivil;
  }

  lemma DropsFraction(time: string, fraction: string)
    requires '.' !in time && (fraction == "" || fraction[0] == '.')
    ensures SplitOnce(time + fraction, '.').0 == time
  {
    if fraction == "" {
      assert time + fraction == time;
      SplitOnceOf(time, "", '.');
    } else {
      assert time + fraction == time + ['.'] + fraction[1..];
      SplitOnceOf(time, fraction[1..], '.');
    }
  }

  /**
   * Every stamp of the years 0 to 9999, leap seconds included, with or without a fraction, in either
   * spelling of UTC, reads as its date's day number in seconds plus the time of day.
   */
  lemma StampReads(d: Date, h: nat, m: nat, s: nat, fraction: string, zone: string)
    requires Valid(d) && 0 <= d.year < 10_000 && h < 24 && m < 60 && s <= 60
    requires (fraction == "" || fraction[0] == '.') && Utc(zone)
    ensures ParseStamp(DateText(d) + "T" + TimeText(h, m, s) + fraction + zone)
         == Some(DaysFromCivil(d) * 86_400 + h * 3_600 + m * 60 + s)
  {
    hide DateText, TimeText, ParseI32, ParseU32, SplitThree, StripZone, Trim, FixedText, ParseStamp;
    hide DaysFromCivil, SplitOnce, IsSpace;
    var date, time := DateText(d), TimeText(h, m, s);
    DateParses(d);
    TimeParses(h, m, s);
    DropsFraction(time, fraction);
    var body := date + "T" + time + fraction;
    assert body == date + ['T'] + (time + fraction) && body[0] == date[0] && body[|date|] == 'T';
    SplitOnceOf(date, time + fraction, 'T');
    StripsZone(body, zone);
    StampFromPieces(body + zone, body, date, time + fraction,
                    (FixedText(d.year, 4), FixedText(d.month, 2), FixedText(d.day, 2)),
                    (FixedText(h, 2), FixedText(m, 2), FixedText(s, 2)), d, h, m, s);
  }
}
