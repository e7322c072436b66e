// Amounts as text: Horizon's seven-decimal strings, read by the service and by the SDK.
module Decimal {
  import opened Prelude

  const STROOPS_PER_UNIT: nat := 10_000_000

  predicate IsDigit(c: char) { '0' <= c <= '9' }

  predicate AllDigits(s: string) { forall i :: 0 <= i < |s| ==> IsDigit(s[i]) }

  function DigitValue(c: char): nat
    requires IsDigit(c)
  {
    (c - '0') as nat
  }

  function Pow10(n: nat): nat { if n == 0 then 1 else 10 * Pow10(n - 1) }

  /** The number a run of decimal digits spells. */
  function DigitsValue(s: string): nat
    requires AllDigits(s)
  {
    if s == "" then 0 else 10 * DigitsValue(s[..|s| - 1]) + DigitValue(s[|s| - 1])
  }

  lemma ShiftDistributes(x: int, p: int, y: int, d: int)
    ensures 10 * (x * p + y) + d == x * (10 * p) + (10 * y + d)
  {
  }

  lemma {:induction false} DigitsValueConcat(a: string, b: string)
    requires AllDigits(a) && AllDigits(b)
    ensures AllDigits(a + b)
    ensures DigitsValue(a + b) == DigitsValue(a) * Pow10(|b|) + DigitsValue(b)
  {
    if b == "" {
      assert a + b == a;
    } else {
      var b0 := b[..|b| - 1];
      DigitsValueConcat(a, b0);
      assert (a + b)[..|a + b| - 1] == a + b0;
      ShiftDistributes(DigitsValue(a), Pow10(|b0|), DigitsValue(b0), DigitValue(b[|b| - 1]));
    }
  }

  lemma {:induction false} DigitsBelowPow10(s: string)
    requires AllDigits(s)
    ensures DigitsValue(s) < Pow10(|s|)
  {
    if s != "" { DigitsBelowPow10(s[..|s| - 1]); }
  }

  function Zeros(n: nat): (z: string)
    ensures |z| == n && forall i :: 0 <= i < n ==> z[i] == '0'
  {
    seq(n, _ => '0')
  }

  lemma {:induction false} ZerosWorthNothing(n: nat)
    ensures DigitsValue(Zeros(n)) == 0
  {
    if n == 0 {
    } else {
      ZerosWorthNothing(n - 1);
      assert Zeros(n)[..n - 1] == Zeros(n - 1);
    }
  }

  lemma Pow10Seven()
    ensures Pow10(7) == STROOPS_PER_UNIT
  {
    assert Pow10(3) == 1000;
    assert Pow10(5) == 100000;
  }

  // ---------- The service's reader and writer ----------

  function IndexOf(s: string, c: char): (i: nat)
    ensures i <= |s|
    ensures forall j :: 0 <= j < i ==> s[j] != c
    ensures i < |s| ==> s[i] == c
  {
    if s == "" || s[0] == c then 0 else 1 + IndexOf(s[1..], c)
  }

  /** Rust's `split_once`, with the whole text and nothing when `c` does not occur. */
  function SplitOnce(s: string, c: char): (string, string) {
    var i := IndexOf(s, c);
    if i < |s| then (s[..i], s[i + 1..]) else (s, "")
  }

  lemma SplitOnceOf(a: string, b: string, c: char)
    requires c !in a
    ensures SplitOnce(a + [c] + b, c) == (a, b)
    ensures SplitOnce(a, c) == (a, "")
  {
    var s := a + [c] + b;
    var i := IndexOf(s, c);
    assert i == |a| by { assert s[|a|] == c; }
    assert s[..i] == a && s[i + 1..] == b;
  }

  /** `str::parse::<i64>` on a text already known to hold only digits. */
  function ParseDigits(s: string): Option<int>
    requires AllDigits(s)
  {
    if s == "" || DigitsValue(s) > I64_MAX then None else Some(DigitsValue(s))
  }

  /** `format!("{frac:0<7}")`. */
  function PadSeven(frac: string): string
    requires |frac| <= 7
  {
    frac + Zeros(7 - |frac|)
  }

  function ParseAmountStroops(amount: string): Option<int> {
    var (whole, frac) := SplitOnce(amount, '.');
    if |frac| > 7 || !AllDigits(whole) || !AllDigits(frac) then None
    else
      var w :- ParseDigits(whole);
      var f :- ParseDigits(PadSeven(frac));
      if w * STROOPS_PER_UNIT + f > I64_MAX then None else Some(w * STROOPS_PER_UNIT + f)
  }

  /** What a decimal text means, with no reference to how it is read: the point moved right. */
  ghost predicate SpellsStroops(amount: string, whole: string, frac: string, v: int) {
    && (amount == whole + "." + frac || (amount == whole && frac == ""))
    && whole != "" && AllDigits(whole) && AllDigits(frac) && |frac| <= 7
    && AllDigits(whole + frac)
    && v * Pow10(|frac|) == DigitsValue(whole + frac) * STROOPS_PER_UNIT
  }

  lemma {:induction false} Pow10Split(n: nat, m: nat)
    ensures Pow10(n + m) == Pow10(n) * Pow10(m)
  {
    if n == 0 {
    } else {
      Pow10Split(n - 1, m);
      assert Pow10(n + m) == 10 * Pow10(n + m - 1);
      assert 10 * (Pow10(n - 1) * Pow10(m)) == (10 * Pow10(n - 1)) * Pow10(m);
    }
  }

  lemma CancelPow10(n: nat, a: int, b: int)
    ensures a * Pow10(n) == b * Pow10(n) <==> a == b
  {
    if n > 0 {
      CancelPow10(n - 1, a, b);
      assert a * Pow10(n) == 10 * (a * Pow10(n - 1));
      assert b * Pow10(n) == 10 * (b * Pow10(n - 1));
    }
  }

  /** Padding on the right is multiplying: the fraction in stroops. */
  lemma PadSevenValue(frac: string)
    requires AllDigits(frac) && |frac| <= 7
    ensures AllDigits(PadSeven(frac))
    ensures DigitsValue(PadSeven(frac)) == DigitsValue(frac) * Pow10(7 - |frac|)
  {
    hide DigitsValue, Pow10, Zeros;
    var z := Zeros(7 - |frac|);
    ZerosWorthNothing(7 - |frac|);
    DigitsValueConcat(frac, z);
    assert PadSeven(frac) == frac + z;
  }

  lemma PadSevenBelowUnit(frac: string)
    requires AllDigits(frac) && |frac| <= 7
    ensures AllDigits(PadSeven(frac)) && DigitsValue(PadSeven(frac)) < STROOPS_PER_UNIT
  {
    PadSevenValue(frac);
    DigitsBelowPow10(PadSeven(frac));
    Pow10Seven();
  }

  lemma PointMoves(w: int, f: int, p: int, q: int)
    requires p * q == STROOPS_PER_UNIT
    ensures (w * STROOPS_PER_UNIT + f * q) * p == (w * p + f) * STROOPS_PER_UNIT
  {
    calc {
      (w * STROOPS_PER_UNIT + f * q) * p;
      w * STROOPS_PER_UNIT * p + f * q * p;
      { assert f * q * p == f * (p * q); }
      w * STROOPS_PER_UNIT * p + f * STROOPS_PER_UNIT;
      { assert w * STROOPS_PER_UNIT * p == w * p * STROOPS_PER_UNIT; }
      (w * p + f) * STROOPS_PER_UNIT;
    }
  }

  lemma WholeAndFractionValue(whole: string, frac: string, v: int)
    requires AllDigits(whole) && AllDigits(frac) && |frac| <= 7
    ensures AllDigits(PadSeven(frac)) && AllDigits(whole + frac)
    ensures v * Pow10(|frac|) == DigitsValue(whole + frac) * STROOPS_PER_UNIT
       <==> v == DigitsValue(whole) * STROOPS_PER_UNIT + DigitsValue(PadSeven(frac))
  {
    var k := |frac|;
    var w, f, p, q := DigitsValue(whole), DigitsValue(frac), Pow10(k), Pow10(7 - k);
    PadSevenValue(frac);
    DigitsValueConcat(whole, frac);
    assert p * q == STROOPS_PER_UNIT by { Pow10Split(k, 7 - k); Pow10Seven(); }
    PointMoves(w, f, p, q);
    CancelPow10(k, v, w * STROOPS_PER_UNIT + f * q);
  }

  /**
   * The reader accepts exactly the texts with a non-empty run of digits and at most seven
   * decimals whose exact value fits an `i64`, and returns that value.
   */
  lemma ParseAmountExact(amount: string, v: int)
    ensures ParseAmountStroops(amount) == Some(v)
       <==> 0 <= v <= I64_MAX && exists whole, frac :: SpellsStroops(amount, whole, frac, v)
  {
    if ParseAmountStroops(amount) == Some(v) {
      var (whole, frac) := SplitOnce(amount, '.');
      ParsedIsSpelled(amount, v);
      assert SpellsStroops(amount, whole, frac, v);
    }
    forall w, f | 0 <= v <= I64_MAX && SpellsStroops(amount, w, f, v)
      ensures ParseAmountStroops(amount) == Some(v)
    {
      SpelledIsParsed(amount, w, f, v);
    }
  }

  lemma ParsedIsSpelled(amount: string, v: int)
    requires ParseAmountStroops(amount) == Some(v)
    ensures 0 <= v <= I64_MAX
    ensures SpellsStroops(amount, SplitOnce(amount, '.').0, SplitOnce(amount, '.').1, v)
  {
    var (whole, frac) := SplitOnce(amount, '.');
    WholeAndFractionValue(whole, frac, v);
    assert amount == whole + "." + frac || (amount == whole && frac == "");
  }

  lemma SpelledIsParsed(amount: string, whole: string, frac: string, v: int)
    requires SpellsStroops(amount, whole, frac, v) && 0 <= v <= I64_MAX
    ensures ParseAmountStroops(amount) == Some(v)
  {
    NoPointInDigits(whole);
    SplitOnceOf(whole, frac, '.');
    assert SplitOnce(amount, '.') == (whole, frac);
    WholeAndFractionValue(whole, frac, v);
    PadSevenBelowUnit(frac);
  }

  function NatText(n: nat): (s: string)
    ensures s != "" && AllDigits(s)
  {
    if n < 10 then ['0' + n as char] else NatText(n / 10) + ['0' + (n % 10) as char]
  }

  /** Exactly `k` digits, with leading zeros: `{:07}` and `padStart(7, "0")` for `k` = 7. */
  function FixedText(n: nat, k: nat): (s: string)
    ensures |s| == k && AllDigits(s)
  {
    if k == 0 then "" else FixedText(n / 10, k - 1) + ['0' + (n % 10) as char]
  }

  lemma {:induction false} NatTextValue(n: nat)
    ensures DigitsValue(NatText(n)) == n
  {
    if n >= 10 {
      NatTextValue(n / 10);
      assert NatText(n)[..|NatText(n)| - 1] == NatText(n / 10);
    }
  }

  lemma {:induction false} FixedTextValue(n: nat, k: nat)
    requires n < Pow10(k)
    ensures DigitsValue(FixedText(n, k)) == n
  {
    if k == 0 {
    } else {
      FixedTextValue(n / 10, k - 1);
      assert FixedText(n, k)[..k - 1] == FixedText(n / 10, k - 1);
    }
  }

  function Abs(x: int): nat { if x < 0 then -x else x }

  /** The service's `format_stroops`; the SDK's `stroopsToAmount` spells the same text. */
  function FormatStroops(stroops: int): string {
    (if stroops < 0 then "-" else "")
    + NatText(Abs(stroops) / STROOPS_PER_UNIT) + "." + FixedText(Abs(stroops) % STROOPS_PER_UNIT, 7)
  }

  lemma FormatParts(stroops: int)
    ensures DigitsValue(NatText(Abs(stroops) / STROOPS_PER_UNIT)) == Abs(stroops) / STROOPS_PER_UNIT
    ensures DigitsValue(FixedText(Abs(stroops) % STROOPS_PER_UNIT, 7)) == Abs(stroops) % STROOPS_PER_UNIT
    ensures '.' !in NatText(Abs(stroops) / STROOPS_PER_UNIT)
    ensures '.' !in FixedText(Abs(stroops) % STROOPS_PER_UNIT, 7)
  {
    NatTextValue(Abs(stroops) / STROOPS_PER_UNIT);
    Pow10Seven();
    FixedTextValue(Abs(stroops) % STROOPS_PER_UNIT, 7);
    NoPointInDigits(NatText(Abs(stroops) / STROOPS_PER_UNIT));
    NoPointInDigits(FixedText(Abs(stroops) % STROOPS_PER_UNIT, 7));
  }

  lemma NoPointInDigits(s: string)
    requires AllDigits(s)
    ensures '.' !in s
  {
  }

  /** Reading back what was written, for every amount the chain can hold; never for a negative. */
  lemma FormatParseRoundTrip(v: int)
    requires IsI64(v)
    ensures ParseAmountStroops(FormatStroops(v)) == if v >= 0 then Some(v) else None
  {
    FormatParts(v);
    var whole := NatText(Abs(v) / STROOPS_PER_UNIT);
    var frac := FixedText(Abs(v) % STROOPS_PER_UNIT, 7);
    if v < 0 {
      assert FormatStroops(v) == "-" + whole + "." + frac;
      SignIsRefused(whole, frac);
    } else {
      assert FormatStroops(v) == whole + "." + frac;
      PiecesAreParsed(whole, frac);
    }
  }

  lemma SignIsRefused(whole: string, frac: string)
    requires '.' !in whole
    ensures ParseAmountStroops("-" + whole + "." + frac) == None
  {
    SplitOnceOf("-" + whole, frac, '.');
    assert ("-" + whole)[0] == '-';
    assert !AllDigits("-" + whole);
  }

  lemma PiecesAreParsed(whole: string, frac: string)
    requires '.' !in whole && whole != "" && AllDigits(whole) && AllDigits(frac) && |frac| == 7
    requires DigitsValue(whole) * STROOPS_PER_UNIT + DigitsValue(frac) <= I64_MAX
    ensures ParseAmountStroops(whole + "." + frac)
         == Some(DigitsValue(whole) * STROOPS_PER_UNIT + DigitsValue(frac))
  {
    hide DigitsValue, SplitOnce, PadSeven;
    SplitOnceOf(whole, frac, '.');
    FullIsKept(frac);
    assert frac != "";
  }

  lemma FullIsKept(frac: string)
    requires |frac| == 7
    ensures PadSeven(frac) == frac
  {
  }

  // ---------- The SDK's readers ----------

  predicate IsSpace(c: char) { c == ' ' || ('\t' <= c <= '\r') }

  function Trim(s: string): string { TrimRight(TrimLeft(s)) }

  function TrimLeft(s: string): string { if s != "" && IsSpace(s[0]) then TrimLeft(s[1..]) else s }

  function TrimRight(s: string): string {
    if s != "" && IsSpace(s[|s| - 1]) then TrimRight(s[..|s| - 1]) else s
  }

  /** First two pieces of `split(".")`, absent ones defaulting as in `[whole = "0", frac = ""]`. */
  function SplitTwo(s: string): (string, string) {
    var (first, rest) := SplitOnce(s, '.');
    (first, SplitOnce(rest, '.').0)
  }

  /** `padEnd(7, "0").slice(0, 7)`. */
  function SevenPlaces(frac: string): string {
    if |frac| <= 7 then PadSeven(frac) else frac[..7]
  }

  function HexDigit(c: char): Option<nat> {
    if '0' <= c <= '9' then Some((c - '0') as nat)
    else if 'a' <= c <= 'f' then Some((c - 'a') as nat + 10)
    else if 'A' <= c <= 'F' then Some((c - 'A') as nat + 10)
    else None
  }

  function RadixValue(s: string, radix: nat): Option<int> {
    if s == "" then Some(0)
    else
      var high :- RadixValue(s[..|s| - 1], radix);
      var low :- HexDigit(s[|s| - 1]);
      if low < radix then Some(high * radix + low) else None
  }

  function Radix(c: char): Option<nat> {
    match c
    case 'x' => Some(16) case 'X' => Some(16)
    case 'o' => Some(8) case 'O' => Some(8)
    case 'b' => Some(2) case 'B' => Some(2)
    case _ => None
  }

  /** JavaScript's `BigInt(text)`; no value means a `SyntaxError`. */
  function BigInt(text: string): Option<int> {
    var s := Trim(text);
    if AllDigits(s) then Some(DigitsValue(s))
    else if s[0] == '-' || s[0] == '+' then
      if |s| > 1 && AllDigits(s[1..]) then
        var magnitude: int := DigitsValue(s[1..]);
        Some(if s[0] == '-' then -magnitude else magnitude)
      else None
    else if |s| > 2 && s[0] == '0' && Radix(s[1]).Some? then
      var n :- RadixValue(s[2..], Radix(s[1]).value);
      Some(n)
    else None
  }

  /** The reader inside `sameAmount`: it takes any text `BigInt` takes and drops further decimals. */
  function ToStroops(s: string): Option<int> {
    var (whole, frac) := SplitTwo(s);
    var w :- BigInt(whole);
    var f :- BigInt(SevenPlaces(frac));
    Some(w * STROOPS_PER_UNIT + f)
  }

  /** Both texts readable and equal; an unreadable text throws, which refuses to sign as well. */
  predicate SameAmount(a: string, b: string) {
    ToStroops(a).Some? && ToStroops(a) == ToStroops(b)
  }

  /** `/^-?\d+(\.\d+)?$/`, cut at the point. */
  function AmountToStroops(amount: string): Option<nat> {
    var trimmed := Trim(amount);
    var unsigned := if trimmed != "" && trimmed[0] == '-' then trimmed[1..] else trimmed;
    var (whole, frac) := SplitOnce(unsigned, '.');
    if whole == "" || !AllDigits(whole) || !AllDigits(frac) || (frac == "" && '.' in unsigned) then None
    else if unsigned != trimmed then None
    else
      Some(DigitsValue(whole) * STROOPS_PER_UNIT + SevenPlacesValue(frac))
  }

  function SevenPlacesValue(frac: string): nat
    requires AllDigits(frac)
  {
    DigitsValue(SevenPlaces(frac))
  }

  /** Tab, line feed, vertical tab, form feed, carriage return, space. */
  predicate Blank(s: string) {
    forall i :: 0 <= i < |s| ==> s[i] in [' ', '\t', '\n', '\U{b}', '\U{c}', '\r']
  }

  lemma BlankOne(c: char)
    ensures Blank([c]) <==> IsSpace(c)
  {
    assert [c][0] == c;
  }

  lemma BlankJoin(a: string, b: string)
    requires Blank(a) && Blank(b)
    ensures Blank(a + b)
  {
  }

  /** Trimming takes the blanks from both ends, all of them and nothing else. */
  lemma TrimTakesBlanks(s: string) returns (left: string, right: string)
    ensures s == left + Trim(s) + right && Blank(left) && Blank(right)
    ensures Trim(s) != "" ==> !Blank(Trim(s)[..1]) && !Blank(Trim(s)[|Trim(s)| - 1..])
  {
    hide Blank, IsSpace, TrimLeft, TrimRight;
    left := LeftBlanks(s);
    right := RightBlanks(TrimLeft(s));
    var t := Trim(s);
    assert left + (t + right) == left + t + right;
    if t != "" {
      assert t[0] == TrimLeft(s)[0];
      BlankOne(t[0]);
      BlankOne(t[|t| - 1]);
      assert t[..1] == [t[0]] && t[|t| - 1..] == [t[|t| - 1]];
    }
  }

  lemma {:induction false} LeftBlanks(s: string) returns (left: string)
    ensures s == left + TrimLeft(s) && Blank(left) && (TrimLeft(s) != "" ==> !IsSpace(TrimLeft(s)[0]))
  {
    hide Blank, IsSpace;
    if s != "" && IsSpace(s[0]) {
      var rest := LeftBlanks(s[1..]);
      left := [s[0]] + rest;
      BlankOne(s[0]);
      BlankJoin([s[0]], rest);
      assert s == [s[0]] + s[1..];
      assert left + TrimLeft(s) == [s[0]] + (rest + TrimLeft(s[1..]));
    } else {
      left := "";
      NothingIsBlank();
      assert "" + s == s;
    }
  }

  lemma {:induction false} RightBlanks(s: string) returns (right: string)
    ensures s == TrimRight(s) + right && Blank(right)
    ensures TrimRight(s) != "" ==> !IsSpace(TrimRight(s)[|TrimRight(s)| - 1])
  {
    hide Blank, IsSpace;
    if s != "" && IsSpace(s[|s| - 1]) {
      var front, last := s[..|s| - 1], s[|s| - 1];
      var rest := RightBlanks(front);
      right := rest + [last];
      BlankOne(last);
      BlankJoin(rest, [last]);
      assert s == front + [last];
      assert TrimRight(s) + right == (TrimRight(front) + rest) + [last];
    } else {
      right := "";
      NothingIsBlank();
      assert s + "" == s;
    }
  }

  lemma NothingIsBlank()
    ensures Blank("")
  {
  }

  lemma {:induction false} TrimLeftPast(left: string, s: string)
    requires Blank(left)
    ensures TrimLeft(left + s) == TrimLeft(s)
  {
    if left == "" {
      assert left + s == s;
    } else {
      assert (left + s)[1..] == left[1..] + s;
      TrimLeftPast(left[1..], s);
    }
  }

  lemma {:induction false} TrimRightPast(s: string, right: string)
    requires Blank(right)
    ensures TrimRight(s + right) == TrimRight(s)
  {
    if right == "" {
      assert s + right == s;
    } else {
      assert (s + right)[..|s + right| - 1] == s + right[..|right| - 1];
      TrimRightPast(s, right[..|right| - 1]);
    }
  }

  lemma TrimPadded(left: string, digits: string, right: string)
    requires Blank(left) && Blank(right) && AllDigits(digits) && digits != ""
    ensures Trim(left + digits + right) == digits
  {
    assert left + digits + right == left + (digits + right);
    TrimLeftPast(left, digits + right);
    assert TrimLeft(digits + right) == digits + right;
    TrimRightPast(digits, right);
    TrimKeepsDigits(digits);
  }

  lemma TrimKeepsDigits(s: string)
    requires AllDigits(s)
    ensures Trim(s) == s
  {
  }

  lemma TrimKeepsSigned(s: string)
    requires AllDigits(s) && s != ""
    ensures Trim("-" + s) == "-" + s && Trim("+" + s) == "+" + s
  {
    assert ("-" + s)[|s|] == s[|s| - 1] && ("+" + s)[|s|] == s[|s| - 1];
  }

  lemma BigIntOfDigits(s: string)
    requires AllDigits(s)
    ensures BigInt(s) == Some(DigitsValue(s))
  {
    TrimKeepsDigits(s);
  }

  lemma BigIntOfNegative(s: string)
    requires AllDigits(s) && s != ""
    ensures BigInt("-" + s) == Some(0 - DigitsValue(s))
  {
    TrimKeepsSigned(s);
    assert ("-" + s)[1..] == s;
    assert !IsDigit(("-" + s)[0]);
  }

  /** Whatever the service reads, the SDK's comparison reads the same. */
  lemma ToStroopsAgreesWithParse(s: string)
    requires ParseAmountStroops(s).Some?
    ensures ToStroops(s) == ParseAmountStroops(s)
  {
    var (whole, frac) := SplitOnce(s, '.');
    NoPointInDigits(frac);
    SplitOnceOf(frac, "", '.');
    BigIntOfDigits(whole);
    PadSevenValue(frac);
    BigIntOfDigits(PadSeven(frac));
  }

  /** `amountToStroops` and `parse_amount_stroops` never read one text as two amounts. */
  lemma AmountReadersAgree(s: string)
    requires ParseAmountStroops(s).Some? && AmountToStroops(s).Some?
    ensures ParseAmountStroops(s).value == AmountToStroops(s).value
  {
    var (whole, frac) := SplitOnce(s, '.');
    TrimKeepsAmount(s);
    assert s[0] != '-' by { assert s[0] == whole[0] && IsDigit(whole[0]); }
    hide DigitsValue, SplitOnce, Trim, PadSeven;
  }

  lemma TrimKeepsAmount(s: string)
    requires ParseAmountStroops(s).Some?
    ensures s != "" && Trim(s) == s
  {
    var (whole, frac) := SplitOnce(s, '.');
    assert s[0] == whole[0] && IsDigit(whole[0]);
    assert !IsSpace(s[|s| - 1]) by {
      if frac != "" { assert s[|s| - 1] == frac[|frac| - 1]; }
    }
  }

  /** The first seven decimals in stroops; what is past them is dropped. */
  function SevenDecimals(frac: string): int
    requires AllDigits(frac)
  {
    if |frac| <= 7 then DigitsValue(frac) * Pow10(7 - |frac|)
    else
      Pow10Positive(|frac| - 7);
      DigitsValue(frac) / Pow10(|frac| - 7)
  }

  lemma Pow10Positive(n: nat)
    ensures Pow10(n) > 0
  {
  }

  lemma SevenPlacesExactly(frac: string)
    requires AllDigits(frac)
    ensures AllDigits(SevenPlaces(frac)) && |SevenPlaces(frac)| == 7
    ensures DigitsValue(SevenPlaces(frac)) == SevenDecimals(frac)
  {
    if |frac| <= 7 {
      PadSevenValue(frac);
    } else {
      var high, low := frac[..7], frac[7..];
      assert frac == high + low;
      DigitsValueConcat(high, low);
      DigitsBelowPow10(low);
      HighPart(DigitsValue(high), DigitsValue(low), Pow10(|low|));
      hide DigitsValue, Pow10;
    }
  }

  lemma HighPart(high: nat, low: nat, p: nat)
    requires low < p
    ensures (high * p + low) / p == high
  {
    var q := (high * p + low) / p;
    assert q * p <= high * p + low < q * p + p;
    if q < high {
      TimesLess(q + 1, high, p);
      assert false;
    }
    if q > high {
      TimesLess(high + 1, q, p);
      assert false;
    }
  }

  lemma TimesLess(a: nat, b: nat, p: nat)
    requires a <= b
    ensures a * p <= b * p
  {
  }

  /** Digits, a point and digits: read in full up to seven decimals. */
  lemma ToStroopsOfDecimal(whole: string, frac: string)
    requires AllDigits(whole) && AllDigits(frac)
    ensures ToStroops(whole + "." + frac) == Some(DigitsValue(whole) * 10_000_000 + SevenDecimals(frac))
    ensures ToStroops(whole) == Some(DigitsValue(whole) * 10_000_000)
  {
    hide DigitsValue, SevenDecimals, SevenPlaces, SplitTwo, BigInt;
    SevenPlacesExactly(frac);
    SevenPlacesExactly("");
    SplitsInTwo(whole, frac);
    BigIntOfDigits(whole);
    BigIntOfDigits(SevenPlaces(frac));
    BigIntOfDigits(SevenPlaces(""));
    NoDecimals();
  }

  lemma NoDecimals()
    ensures SevenDecimals("") == 0
  {
  }

  lemma SplitsInTwo(whole: string, frac: string)
    requires AllDigits(whole) && AllDigits(frac)
    ensures SplitTwo(whole + "." + frac) == (whole, frac) && SplitTwo(whole) == (whole, "")
  {
    NoPointInDigits(whole);
    NoPointInDigits(frac);
    assert whole + "." + frac == whole + ['.'] + frac;
    SplitOnceOf(whole, frac, '.');
    SplitOnceOf(frac, "", '.');
    SplitOnceOf(whole, "", '.');
    SplitOnceOf("", "", '.');
  }

  /** Blanks, digits, and if there is a point digits after it. */
  ghost predicate WritesAmount(amount: string, left: string, whole: string, frac: string, right: string, v: int) {
    && amount == left + (if frac == "" then whole else whole + "." + frac) + right && Blank(left) && Blank(right)
    && whole != "" && AllDigits(whole) && AllDigits(frac) && v == DigitsValue(whole) * 10_000_000 + SevenDecimals(frac)
  }

  /** `amountToStroops` reads exactly the texts of that form, as what they say. */
  lemma AmountToStroopsExactly(amount: string, v: nat)
    ensures AmountToStroops(amount) == Some(v)
       <==> exists left, whole, frac, right :: WritesAmount(amount, left, whole, frac, right, v)
  {
    hide Trim, DigitsValue, SevenDecimals, SevenPlaces;
    if AmountToStroops(amount) == Some(v) {
      var left, right := TrimTakesBlanks(amount);
      var trimmed := Trim(amount);
      var (whole, frac) := SplitOnce(trimmed, '.');
      SplitOnceOf(whole, frac, '.');
      SevenPlacesExactly(frac);
      assert WritesAmount(amount, left, whole, frac, right, v);
    }
    forall left, whole, frac, right | WritesAmount(amount, left, whole, frac, right, v)
      ensures AmountToStroops(amount) == Some(v)
    {
      WrittenIsRead(amount, left, whole, frac, right, v);
    }
  }

  lemma WrittenIsRead(amount: string, left: string, whole: string, frac: string, right: string, v: nat)
    requires WritesAmount(amount, left, whole, frac, right, v)
    ensures AmountToStroops(amount) == Some(v)
  {
    hide Trim, DigitsValue, SevenDecimals, SevenPlaces;
    var text := if frac == "" then whole else whole + "." + frac;
    TrimAround(left, text, right);
    SevenPlacesExactly(frac);
    NoPointInDigits(whole);
    if frac != "" {
      assert text == whole + ['.'] + frac;
      SplitOnceOf(whole, frac, '.');
    } else {
      SplitOnceOf(whole, "", '.');
    }
    assert text[0] == whole[0] && IsDigit(text[0]);
  }

  lemma TrimAround(left: string, text: string, right: string)
    requires Blank(left) && Blank(right) && text != "" && !IsSpace(text[0]) && !IsSpace(text[|text| - 1])
    ensures Trim(left + text + right) == text
  {
    assert left + text + right == left + (text + right);
    TrimLeftPast(left, text + right);
    assert (text + right)[0] == text[0];
    TrimRightPast(text, right);
  }

  /** Spellings `BigInt` takes besides digits: nothing for zero, a sign, and another radix behind its mark. */
  lemma OtherSpellings(s: string)
    requires AllDigits(s) && s != ""
    ensures BigInt("") == Some(0) && BigInt("-") == None && BigInt("+") == None
    ensures BigInt("+" + s) == Some(DigitsValue(s)) && BigInt("-" + s) == Some(0 - DigitsValue(s))
  {
    hide DigitsValue;
    BigIntOfNegative(s);
    TrimKeepsSigned(s);
    assert ("+" + s)[1..] == s;
    assert !IsDigit(("+" + s)[0]) && !IsDigit("-"[0]) && !IsDigit("+"[0]);
    BigIntOfDigits("");
    EmptyIsZero();
  }

  lemma EmptyIsZero()
    ensures DigitsValue("") == 0
  {
  }

  /** Behind one of the six marks a text is read in that radix. */
  lemma RadixSpelling(mark: char, s: string)
    requires s != "" && !IsSpace(s[|s| - 1]) && mark in "xXoObB"
    ensures BigInt(['0', mark] + s) == RadixValue(s, if mark in "xX" then 16 else if mark in "oO" then 8 else 2)
  {
    hide RadixValue, BigInt, Trim;
    var text := ['0', mark] + s;
    MarkedIsTrimmed(mark, s);
    assert text[0] == '0' && text[1] == mark && text[2..] == s;
    MarkedIsRead(text);
  }

  lemma MarkedIsRead(text: string)
    requires Trim(text) == text && |text| > 2 && text[0] == '0' && Radix(text[1]).Some?
    ensures BigInt(text) == RadixValue(text[2..], Radix(text[1]).value)
  {
    hide RadixValue, DigitsValue, Trim;
    assert !IsDigit(text[1]) && !AllDigits(text);
  }

  lemma MarkedIsTrimmed(mark: char, s: string)
    requires s != "" && !IsSpace(s[|s| - 1])
    ensures Trim(['0', mark] + s) == ['0', mark] + s
  {
    assert (['0', mark] + s)[|s| + 1] == s[|s| - 1];
  }

  /** A text has a value in a radix exactly when each character is a digit below the radix. */
  lemma {:induction false} RadixReadsExactly(s: string, radix: nat)
    ensures RadixValue(s, radix).Some?
       <==> forall i :: 0 <= i < |s| ==> HexDigit(s[i]).Some? && HexDigit(s[i]).value < radix
  {
    if s != "" {
      var front := s[..|s| - 1];
      RadixReadsExactly(front, radix);
      assert s == front + [s[|s| - 1]];
    }
  }

  /** Texts that cannot be read are never the same amount, not even as each other. */
  lemma UnreadableNeverSame(a: string, b: string)
    requires SameAmount(a, b)
    ensures exists v :: ToStroops(a) == Some(v) && ToStroops(b) == Some(v)
  {
    assert ToStroops(a) == Some(ToStroops(a).value);
  }

  /** How an amount rendered by `FormatStroops` reads back through `sameAmount`. */
  function Shown(n: int): int {
    if n >= 0 then n
    else -(Abs(n) / STROOPS_PER_UNIT) * STROOPS_PER_UNIT + Abs(n) % STROOPS_PER_UNIT
  }

  lemma RenderedReadsAsShown(n: int)
    ensures ToStroops(FormatStroops(n)) == Some(Shown(n))
  {
    hide DigitsValue, NatText, FixedText, SplitTwo, BigInt, SevenPlaces;
    var whole := NatText(Abs(n) / STROOPS_PER_UNIT);
    var frac := FixedText(Abs(n) % STROOPS_PER_UNIT, 7);
    var sign := if n < 0 then "-" else "";
    FormatParts(n);
    RenderedSplits(sign, whole, frac);
    SignedWhole(sign, whole);
    BigIntOfDigits(frac);
  }

  lemma RenderedSplits(sign: string, whole: string, frac: string)
    requires sign == "-" || sign == ""
    requires AllDigits(whole) && AllDigits(frac)
    ensures SplitTwo(sign + whole + "." + frac) == (sign + whole, frac)
    ensures |frac| == 7 ==> SevenPlaces(frac) == frac
  {
    NoPointInDigits(whole);
    NoPointInDigits(frac);
    SplitOnceOf(sign + whole, frac, '.');
    SplitOnceOf(frac, "", '.');
  }

  lemma SignedWhole(sign: string, whole: string)
    requires sign == "-" || sign == ""
    requires whole != "" && AllDigits(whole)
    ensures BigInt(sign + whole) == Some((if sign == "-" then -1 else 1) * DigitsValue(whole))
  {
    if sign == "-" {
      BigIntOfNegative(whole);
    } else {
      assert sign + whole == whole;
      BigIntOfDigits(whole);
    }
  }

  /**
   * Rendered amounts compare equal exactly when they are the same number, except that a negative
   * amount of less than one unit also passes for its opposite: `BigInt("-0")` loses the sign.
   */
  lemma SameAmountRendered(x: int, y: int)
    ensures SameAmount(FormatStroops(x), FormatStroops(y))
       <==> x == y || (x == -y && Abs(x) < STROOPS_PER_UNIT)
  {
    RenderedReadsAsShown(x);
    RenderedReadsAsShown(y);
    ShownCollides(x, y);
  }

  lemma ShownCollides(x: int, y: int)
    ensures Shown(x) == Shown(y) <==> x == y || (x == -y && Abs(x) < STROOPS_PER_UNIT)
  {
  }
}
