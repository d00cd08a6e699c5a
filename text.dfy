/** Text formatting used by the invoice domain: Python's str() of an integer,
    the ".2f" money format of an amount held in cents, the hex digits of a
    uuid, and str() of a date. Each printer has a parser beside it and a
    lemma that the parser reads back what the printer wrote. */
module Text {
  import opened Wrappers

  // ---------------------------------------------------------------- decimal

  predicate IsDigit(c: char) { '0' <= c <= '9' }

  predicate AllDigits(s: string) { forall i | 0 <= i < |s| :: IsDigit(s[i]) }

  function DigitChar(d: nat): (c: char)
    requires d < 10
    ensures IsDigit(c)
  {
    ('0' as int + d) as char
  }

  function DigitValue(c: char): (d: nat)
    requires IsDigit(c)
    ensures d < 10 && DigitChar(d) == c
  {
    c as int - '0' as int
  }

  /** str(n) for a non-negative integer: no leading zeros, "0" for zero. */
  function NatToString(n: nat): (s: string)
    decreases n
  {
    if n < 10 then [DigitChar(n)] else NatToString(n / 10) + [DigitChar(n % 10)]
  }

  /** The value of a string of decimal digits, most significant first. */
  function ParseDigits(s: string): nat
    requires AllDigits(s)
  {
    if s == [] then 0 else ParseDigits(s[..|s| - 1]) * 10 + DigitValue(s[|s| - 1])
  }

  lemma {:induction false} NatToStringRoundTrip(n: nat)
    ensures |NatToString(n)| >= 1 && AllDigits(NatToString(n))
    ensures ParseDigits(NatToString(n)) == n
    ensures NatToString(n)[0] == '0' <==> n == 0
    decreases n
  {
    if n >= 10 {
      NatToStringRoundTrip(n / 10);
      var s := NatToString(n);
      assert s[..|s| - 1] == NatToString(n / 10);
      assert s[0] == NatToString(n / 10)[0];
    }
  }

  /** str(i) for any integer: a minus sign before the digits of a negative number. */
  function IntToString(i: int): string
  {
    if i < 0 then "-" + NatToString(-i) else NatToString(i)
  }

  /** int(s) restricted to what IntToString can produce: an optional minus
      sign followed by at least one digit. */
  function ParseInt(s: string): (r: Option<int>)
  {
    if |s| >= 2 && s[0] == '-' && AllDigits(s[1..]) then Some(0 - ParseDigits(s[1..]))
    else if |s| >= 1 && AllDigits(s) then Some(ParseDigits(s))
    else None
  }

  lemma IntToStringRoundTrip(i: int)
    ensures ParseInt(IntToString(i)) == Some(i)
  {
    var s := IntToString(i);
    if i < 0 {
      NatToStringRoundTrip(-i);
      assert s[1..] == NatToString(-i);
    } else {
      NatToStringRoundTrip(i);
      assert IsDigit(s[0]);
    }
  }

  // ------------------------------------------------------------------ money

  /** The two digits of a number of cents below one hundred, "05" for 5. */
  function TwoDigits(t: nat): string
    requires t < 100
  {
    [DigitChar(t / 10), DigitChar(t % 10)]
  }

  /** f"{x:.2f}" of the amount x = cents / 100: the sign, the whole units,
      a point and exactly two digits of cents. */
  function Money(cents: int): string
  {
    var a := if cents < 0 then -cents else cents;
    (if cents < 0 then "-" else "") + NatToString(a / 100) + "." + TwoDigits(a % 100)
  }

  /** Reads an unsigned amount "<digits>.<two digits>" back into cents. */
  function ParseUnsignedMoney(s: string): Option<nat>
  {
    if |s| >= 4 && s[|s| - 3] == '.' && AllDigits(s[..|s| - 3]) && AllDigits(s[|s| - 2..])
    then Some(ParseDigits(s[..|s| - 3]) * 100 + ParseDigits(s[|s| - 2..]))
    else None
  }

  /** Reads a Money string back into cents. */
  function ParseMoney(s: string): Option<int>
  {
    if |s| >= 1 && s[0] == '-' then
      match ParseUnsignedMoney(s[1..])
      case Some(v) => Some(0 - v)
      case None => None
    else
      match ParseUnsignedMoney(s)
      case Some(v) => Some(v)
      case None => None
  }

  lemma TwoDigitsRoundTrip(t: nat)
    requires t < 100
    ensures AllDigits(TwoDigits(t)) && ParseDigits(TwoDigits(t)) == t
  {
    var f := TwoDigits(t);
    assert f[..1] == [DigitChar(t / 10)];
    assert f[..1][..0] == [];
    assert DigitValue(f[0]) == t / 10 && DigitValue(f[1]) == t % 10;
    assert ParseDigits(f[..1]) == t / 10;
  }

  lemma UnsignedMoneyShape(w: string, f: string)
    requires |w| >= 1 && AllDigits(w) && |f| == 2 && AllDigits(f)
    ensures ParseUnsignedMoney(w + "." + f) == Some(ParseDigits(w) * 100 + ParseDigits(f))
  {
    MoneyFields(w, f);
    var s := w + "." + f;
    assert AllDigits(s[..|s| - 3]) && ParseDigits(s[..|s| - 3]) == ParseDigits(w);
    assert AllDigits(s[|s| - 2..]) && ParseDigits(s[|s| - 2..]) == ParseDigits(f);
  }

  /** The two fields of "<w>.<f>" sit at fixed distances from its end. */
  lemma MoneyFields(w: string, f: string)
    requires |f| == 2
    ensures var s := w + "." + f;
      && |s| == |w| + 3 && s[|s| - 3] == '.' && s[..|s| - 3] == w && s[|s| - 2..] == f
  {
  }

  lemma UnsignedMoneyRoundTrip(a: nat)
    ensures ParseUnsignedMoney(NatToString(a / 100) + "." + TwoDigits(a % 100)) == Some(a)
  {
    NatToStringRoundTrip(a / 100);
    TwoDigitsRoundTrip(a % 100);
    UnsignedMoneyShape(NatToString(a / 100), TwoDigits(a % 100));
  }

  lemma MoneyRoundTrip(cents: int)
    ensures ParseMoney(Money(cents)) == Some(cents)
  {
    var a := if cents < 0 then -cents else cents;
    var u := NatToString(a / 100) + "." + TwoDigits(a % 100);
    UnsignedMoneyRoundTrip(a);
    NatToStringRoundTrip(a / 100);
    if cents < 0 {
      assert Money(cents) == "-" + u;
      assert Money(cents)[1..] == u;
    } else {
      assert Money(cents) == u;
      assert u[0] != '-';
    }
  }

  // -------------------------------------------------------------------- hex

  function Pow16(k: nat): (p: nat)
    ensures p >= 1
  {
    if k == 0 then 1 else 16 * Pow16(k - 1)
  }

  /** A lower-case hex digit, as in uuid.hex. */
  function HexDigit(d: nat): char
    requires d < 16
  {
    if d < 10 then ('0' as int + d) as char else ('a' as int + d - 10) as char
  }

  /** The last `width` lower-case hex digits of n, zero-padded, most significant first. */
  function LowerHex(n: int, width: nat): (s: string)
    ensures |s| == width
    decreases width
  {
    if width == 0 then [] else LowerHex(n / 16, width - 1) + [HexDigit(n % 16)]
  }

  /** str.upper() on one character (ASCII letters only). */
  function UpperChar(c: char): char
  {
    if 'a' <= c <= 'z' then (c as int - 32) as char else c
  }

  function Upper(s: string): (u: string)
    ensures |u| == |s|
  {
    seq(|s|, i requires 0 <= i < |s| => UpperChar(s[i]))
  }

  predicate IsUpperHex(c: char) { '0' <= c <= '9' || 'A' <= c <= 'F' }

  function HexValue(c: char): nat
    requires IsUpperHex(c)
  {
    if c <= '9' then c as int - '0' as int else c as int - 'A' as int + 10
  }

  predicate AllUpperHex(s: string) { forall i | 0 <= i < |s| :: IsUpperHex(s[i]) }

  /** The value of a string of upper-case hex digits, most significant first. */
  function ParseHex(s: string): nat
    requires AllUpperHex(s)
  {
    if s == [] then 0 else ParseHex(s[..|s| - 1]) * 16 + HexValue(s[|s| - 1])
  }

  lemma MulAtLeast(d: int, x: int)
    requires d > 0 && x >= 1
    ensures d * x >= d
    decreases x
  {
    if x > 1 {
      MulAtLeast(d, x - 1);
      assert d * x == d * (x - 1) + d;
    }
  }

  lemma DivUnique(n: int, d: int, q: int, r: int)
    requires d > 0 && 0 <= r < d && n == d * q + r
    ensures n / d == q && n % d == r
  {
    var q', r' := n / d, n % d;
    assert n == d * q' + r';
    if q < q' {
      assert d * (q' - q) == r - r' by { assert d * (q' - q) == d * q' - d * q; }
      MulAtLeast(d, q' - q);
    } else if q > q' {
      assert d * (q - q') == r' - r by { assert d * (q - q') == d * q - d * q'; }
      MulAtLeast(d, q - q');
    }
  }

  /** Splitting n into its last hex digit and the rest, then the rest by p. */
  lemma DivModStep(n: int, p: nat)
    requires p > 0
    ensures (n / 16) / p == n / (16 * p)
    ensures (n / 16) % p * 16 + n % 16 == n % (16 * p)
  {
    var q, r := n / 16, n % 16;
    var a, b := q / p, q % p;
    assert n == (16 * p) * a + (16 * b + r) by {
      assert n == 16 * q + r;
      assert q == p * a + b;
      assert 16 * q == 16 * (p * a) + 16 * b;
      assert 16 * (p * a) == (16 * p) * a;
    }
    assert 16 * b + r < 16 * p by {
      assert b <= p - 1;
      assert 16 * b <= 16 * (p - 1);
    }
    DivUnique(n, 16 * p, a, 16 * b + r);
  }

  /** The first k of the `width` digits of n are the digits of n with the
      last width - k digits shifted off. */
  lemma {:induction false} LowerHexPrefix(n: int, width: nat, k: nat)
    requires k <= width
    ensures LowerHex(n, width)[..k] == LowerHex(n / Pow16(width - k), k)
    decreases width
  {
    if k < width {
      LowerHexPrefix(n / 16, width - 1, k);
      DivModStep(n, Pow16(width - 1 - k));
      assert LowerHex(n, width)[..k] == LowerHex(n / 16, width - 1)[..k];
    }
  }

  /** Only the last `width` digits of n show: n and n modulo 16^width print alike. */
  lemma {:induction false} LowerHexMod(n: int, width: nat)
    ensures LowerHex(n, width) == LowerHex(n % Pow16(width), width)
    decreases width
  {
    if width > 0 {
      var p := Pow16(width - 1);
      var m := n % Pow16(width);
      LowerHexMod(n / 16, width - 1);
      DivModStep(n, p);
      DivUnique(m, 16, (n / 16) % p, n % 16);
    }
  }

  lemma UpperHexDigit(d: nat)
    requires d < 16
    ensures IsUpperHex(UpperChar(HexDigit(d))) && HexValue(UpperChar(HexDigit(d))) == d
  {
  }

  /** Upper-casing the hex digits of n and reading them back gives n modulo 16^width. */
  lemma {:induction false} UpperHexRoundTrip(n: int, width: nat)
    ensures AllUpperHex(Upper(LowerHex(n, width)))
    ensures ParseHex(Upper(LowerHex(n, width))) == n % Pow16(width)
    decreases width
  {
    if width > 0 {
      var p := Pow16(width - 1);
      var rest := Upper(LowerHex(n / 16, width - 1));
      var c := UpperChar(HexDigit(n % 16));
      UpperHexRoundTrip(n / 16, width - 1);
      UpperHexDigit(n % 16);
      var s := Upper(LowerHex(n, width));
      assert s == rest + [c];
      assert AllUpperHex(s);
      assert s[..|s| - 1] == rest;
      assert ParseHex(s) == (n / 16) % p * 16 + n % 16;
      DivModStep(n, p);
      assert Pow16(width) == 16 * p;
    }
  }

  /** The first k of the `width` hex digits of n, upper-cased, read back
      as the value of those digits. */
  lemma HexPrefixValue(n: int, width: nat, k: nat)
    requires k <= width
    ensures AllUpperHex(Upper(LowerHex(n, width)[..k]))
    ensures ParseHex(Upper(LowerHex(n, width)[..k])) == n / Pow16(width - k) % Pow16(k)
  {
    var p := Pow16(width - k);
    var x := n / p;
    LowerHexPrefix(n, width, k);
    assert LowerHex(n, width)[..k] == LowerHex(x, k);
    UpperHexRoundTrip(x, k);
  }

  /** The first k of the `width` hex digits of two numbers agree when the
      values of those digits do. */
  lemma HexPrefixDigits(n: int, m: int, width: nat, k: nat)
    requires k <= width
    requires n / Pow16(width - k) % Pow16(k) == m / Pow16(width - k) % Pow16(k)
    ensures LowerHex(n, width)[..k] == LowerHex(m, width)[..k]
  {
    var p := Pow16(width - k);
    var x, y := n / p, m / p;
    LowerHexPrefix(n, width, k);
    LowerHexPrefix(m, width, k);
    LowerHexMod(x, k);
    LowerHexMod(y, k);
    assert LowerHex(n, width)[..k] == LowerHex(x % Pow16(k), k);
  }

  // ------------------------------------------------------------------- dates

  const DaysBeforeMonth: seq<int> := [-1, 0, 31, 59, 90, 120, 151, 181, 212, 243, 273, 304, 334]
  const DaysInMonth: seq<int> := [-1, 31, 28, 31, 30, 31, 30, 31, 31, 30, 31, 30, 31]

  /** Python's date.fromordinal: year, month and day of a proleptic Gregorian
      ordinal, where day 1 is 0001-01-01. The days before it are split into
      whole 400-, 100-, 4- and 1-year cycles and the day within the year. */
  function OrdinalToDate(ordinal: int): (ymd: (nat, nat, nat))
    requires ordinal >= 1
  {
    var n0 := ordinal - 1;
    var n400, r400 := n0 / 146097, n0 % 146097;
    var n100, r100 := r400 / 36524, r400 % 36524;
    var n4, r4 := r100 / 1461, r100 % 1461;
    var n1, n := r4 / 365, r4 % 365;
    FromCycles(n400, n100, n4, n1, n)
  }

  /** The date after n400, n100, n4 and n1 whole cycles and n more days. A
      fourth 100-year or 1-year cycle can only be the leap day that closes
      the cycle above it: December 31st of the year before. */
  function FromCycles(n400: int, n100: int, n4: int, n1: int, n: int): (ymd: (nat, nat, nat))
    requires n400 >= 0 && 0 <= n100 <= 4 && 0 <= n4 <= 24 && 0 <= n1 <= 4 && 0 <= n < 365
  {
    var year := n400 * 400 + 1 + n100 * 100 + n4 * 4 + n1;
    if n1 == 4 || n100 == 4 then (year - 1, 12, 31)
    else
      var leap := n1 == 3 && (n4 != 24 || n100 == 3);
      var (month, day) := MonthDay(n, leap);
      (year, month, day)
  }

  /** Month and day of the n-th day (from 0) of a year: the month is first
      estimated as (n + 50) / 32, then moved back one if that month starts
      after day n. */
  function MonthDay(n: int, leap: bool): (md: (int, int))
    requires 0 <= n < 365
    ensures 1 <= md.0 <= 12
    ensures 1 <= md.1 <= DaysInMonth[md.0] + (if md.0 == 2 && leap then 1 else 0)
    ensures DaysBeforeMonth[md.0] + (if md.0 > 2 && leap then 1 else 0) + md.1 == n + 1
  {
    var month := (n + 50) / 32;
    MonthEstimate(n, month, leap);
    var preceding := DaysBeforeMonth[month] + (if month > 2 && leap then 1 else 0);
    if preceding > n then
      var m := month - 1;
      MonthTable(m);
      var p := preceding - (DaysInMonth[m] + (if m == 2 && leap then 1 else 0));
      (m, n - p + 1)
    else
      MonthTable(month);
      (month, n - preceding + 1)
  }

  /** The month estimate (n + 50) / 32 is never more than one month late:
      the day of the year n falls on or after the start of the month before it. */
  lemma MonthEstimate(n: int, month: int, leap: bool)
    requires 0 <= n < 365 && month == (n + 50) / 32
    ensures 1 <= month <= 12
    ensures month >= 2 ==> DaysBeforeMonth[month - 1] + (if month - 1 > 2 && leap then 1 else 0) <= n
    ensures month < 12 ==> n < DaysBeforeMonth[month + 1]
  {
  }

  /** A month starts where the month before it ends; December ends on day 365. */
  lemma MonthTable(m: int)
    requires 1 <= m <= 12
    ensures DaysBeforeMonth[m] + DaysInMonth[m] == if m == 12 then 365 else DaysBeforeMonth[m + 1]
  {
  }

  /** "%0<width>d": left-pads with zeros up to `width` characters. */
  function ZeroPad(s: string, width: nat): (r: string)
    decreases width - |s|
  {
    if |s| >= width then s else ZeroPad("0" + s, width)
  }

  /** "%04d-%02d-%02d" of a year, month and day. */
  function DateText(y: nat, m: nat, d: nat): string
  {
    ZeroPad(NatToString(y), 4) + "-" + ZeroPad(NatToString(m), 2) + "-" + ZeroPad(NatToString(d), 2)
  }

  /** str(date): "YYYY-MM-DD". */
  function IsoDate(ordinal: int): string
    requires ordinal >= 1
  {
    var (y, m, d) := OrdinalToDate(ordinal);
    DateText(y, m, d)
  }

  predicate IsLeap(year: int)
  {
    year % 4 == 0 && (year % 100 != 0 || year % 400 == 0)
  }

  function MonthLength(year: int, month: int): int
    requires 1 <= month <= 12
  {
    DaysInMonth[month] + (if month == 2 && IsLeap(year) then 1 else 0)
  }

  /** Days before January 1st of a year, counted from 0001-01-01. */
  function DaysBeforeYear(year: int): int
    requires year >= 1
  {
    var z := year - 1;
    z * 365 + z / 4 - z / 100 + z / 400
  }

  /** date(year, month, day).toordinal(). */
  function DateToOrdinal(year: int, month: int, day: int): int
    requires year >= 1 && 1 <= month <= 12
  {
    DaysBeforeYear(year) + DaysBeforeMonth[month] + (if month > 2 && IsLeap(year) then 1 else 0) + day
  }

  /** The calendar of a year given by its place in the 400/100/4/1-year cycles. */
  lemma YearInCycles(a: int, b: int, c: int, e: int)
    requires a >= 0 && 0 <= b <= 3 && 0 <= c <= 24 && 0 <= e <= 3
    ensures var year := 400 * a + 100 * b + 4 * c + e + 1;
      && DaysBeforeYear(year) == 146097 * a + 36524 * b + 1461 * c + 365 * e
      && (IsLeap(year) <==> e == 3 && (c != 24 || b == 3))
  {
    var z := 400 * a + 100 * b + 4 * c + e;
    DivUnique(z, 4, 100 * a + 25 * b + c, e);
    DivUnique(z, 100, 4 * a + b, 4 * c + e);
    DivUnique(z, 400, a, 100 * b + 4 * c + e);
    var year := z + 1;
    if e == 3 {
      DivUnique(year, 4, 100 * a + 25 * b + c + 1, 0);
    } else {
      DivUnique(year, 4, 100 * a + 25 * b + c, e + 1);
    }
    if c == 24 && e == 3 {
      DivUnique(year, 100, 4 * a + b + 1, 0);
    } else {
      DivUnique(year, 100, 4 * a + b, 4 * c + e + 1);
    }
    if b == 3 && c == 24 && e == 3 {
      DivUnique(year, 400, a + 1, 0);
    } else {
      DivUnique(year, 400, a, 100 * b + 4 * c + e + 1);
    }
  }

  /** date.fromordinal yields a real calendar date, and toordinal of that
      date is the ordinal it came from. */
  lemma OrdinalToDateRoundTrip(ordinal: int)
    requires ordinal >= 1
    ensures var (y, m, d) := OrdinalToDate(ordinal);
      && y >= 1 && 1 <= m <= 12 && 1 <= d <= MonthLength(y, m)
      && DateToOrdinal(y, m, d) == ordinal
  {
    var n0 := ordinal - 1;
    var n400, r400 := n0 / 146097, n0 % 146097;
    var n100, r100 := r400 / 36524, r400 % 36524;
    var n4, r4 := r100 / 1461, r100 % 1461;
    var n1, n := r4 / 365, r4 % 365;
    assert n0 == 146097 * n400 + 36524 * n100 + 1461 * n4 + 365 * n1 + n;
    assert OrdinalToDate(ordinal) == FromCycles(n400, n100, n4, n1, n);
    FromCyclesRoundTrip(n400, n100, n4, n1, n);
  }

  lemma FromCyclesRoundTrip(a: int, b: int, c: int, e: int, n: int)
    requires a >= 0 && 0 <= b <= 4 && 0 <= c <= 24 && 0 <= e <= 4 && 0 <= n < 365
    requires b == 4 ==> c == 0 && e == 0 && n == 0
    requires e == 4 ==> c < 24 && n == 0
    ensures var (y, m, d) := FromCycles(a, b, c, e, n);
      && y >= 1 && 1 <= m <= 12 && 1 <= d <= MonthLength(y, m)
      && DateToOrdinal(y, m, d) == 146097 * a + 36524 * b + 1461 * c + 365 * e + n + 1
  {
    if b == 4 {
      CycleEnd(a, 3, 24);
      assert FromCycles(a, b, c, e, n) == (400 * a + 400, 12, 31);
    } else if e == 4 {
      CycleEnd(a, b, c);
      assert FromCycles(a, b, c, e, n) == (400 * a + 100 * b + 4 * c + 4, 12, 31);
    } else {
      DayInYear(a, b, c, e, n);
    }
  }

  /** December 31st of the leap year that closes a 4-year (or 400-year) cycle. */
  lemma CycleEnd(a: int, b: int, c: int)
    requires a >= 0 && 0 <= b <= 3 && 0 <= c <= 24 && (c != 24 || b == 3)
    ensures var year := 400 * a + 100 * b + 4 * c + 4;
      IsLeap(year) && DateToOrdinal(year, 12, 31) == 146097 * a + 36524 * b + 1461 * c + 1461
  {
    YearInCycles(a, b, c, 3);
  }

  /** Day n (from 0) of a year that is not the last day of a leap year. */
  lemma DayInYear(a: int, b: int, c: int, e: int, n: int)
    requires a >= 0 && 0 <= b <= 3 && 0 <= c <= 24 && 0 <= e <= 3 && 0 <= n < 365
    ensures var year := 400 * a + 100 * b + 4 * c + e + 1;
      var md := MonthDay(n, e == 3 && (c != 24 || b == 3));
      && FromCycles(a, b, c, e, n) == (year, md.0, md.1)
      && 1 <= md.1 <= MonthLength(year, md.0)
      && DateToOrdinal(year, md.0, md.1) == 146097 * a + 36524 * b + 1461 * c + 365 * e + n + 1
  {
    YearInCycles(a, b, c, e);
  }

  /** The reader of IsoDate's output: digits, '-', two digits, '-', two
      digits, naming a real date, read back as its ordinal (what
      date.toordinal gives). Unlike date.fromisoformat it also accepts a year
      of five or more digits, which IsoDate writes for ordinals past 9999-12-31. */
  function ParseIsoDate(s: string): Option<int>
  {
    if |s| >= 10 && s[|s| - 6] == '-' && s[|s| - 3] == '-'
       && AllDigits(s[..|s| - 6]) && AllDigits(s[|s| - 5..|s| - 3]) && AllDigits(s[|s| - 2..])
    then
      var (y, m, d) := (ParseDigits(s[..|s| - 6]), ParseDigits(s[|s| - 5..|s| - 3]), ParseDigits(s[|s| - 2..]));
      if y >= 1 && 1 <= m <= 12 && 1 <= d <= MonthLength(y, m) then Some(DateToOrdinal(y, m, d)) else None
    else None
  }

  lemma {:induction false} ZeroPadDigits(s: string, width: nat)
    requires AllDigits(s)
    ensures var r := ZeroPad(s, width);
      && AllDigits(r) && ParseDigits(r) == ParseDigits(s)
      && |r| == (if |s| >= width then |s| else width)
    decreases width - |s|
  {
    if |s| < width {
      ZeroPadDigits("0" + s, width);
      LeadingZero(s);
    }
  }

  lemma {:induction false} LeadingZero(s: string)
    requires AllDigits(s)
    ensures AllDigits("0" + s) && ParseDigits("0" + s) == ParseDigits(s)
    decreases |s|
  {
    if s != [] {
      var t := "0" + s;
      assert t[..|t| - 1] == "0" + s[..|s| - 1];
      LeadingZero(s[..|s| - 1]);
    }
  }

  /** The digits of a field printed with "%02d" from a value below 100. */
  lemma PaddedField(v: nat)
    requires v < 100
    ensures var r := ZeroPad(NatToString(v), 2);
      && |r| == 2 && AllDigits(r) && ParseDigits(r) == v
  {
    NatToStringRoundTrip(v);
    assert |NatToString(v)| <= 2;
    ZeroPadDigits(NatToString(v), 2);
  }

  /** The text of a real date reads back as that date's ordinal. */
  lemma DateTextReadBack(y: nat, m: nat, d: nat)
    requires y >= 1 && 1 <= m <= 12 && 1 <= d <= MonthLength(y, m)
    ensures ParseIsoDate(DateText(y, m, d)) == Some(DateToOrdinal(y, m, d))
  {
    var ys, ms, ds := ZeroPad(NatToString(y), 4), ZeroPad(NatToString(m), 2), ZeroPad(NatToString(d), 2);
    NatToStringRoundTrip(y);
    ZeroPadDigits(NatToString(y), 4);
    PaddedField(m);
    PaddedField(d);
    DateFields(ys, ms, ds);
  }

  /** The three fields of "Y-MM-DD" sit at fixed distances from its end. */
  lemma DateFields(ys: string, ms: string, ds: string)
    requires |ms| == 2 && |ds| == 2
    ensures var s := ys + "-" + ms + "-" + ds;
      && |s| == |ys| + 6 && s[|s| - 6] == '-' && s[|s| - 3] == '-'
      && s[..|s| - 6] == ys && s[|s| - 5..|s| - 3] == ms && s[|s| - 2..] == ds
  {
  }

  /** The printed date reads back as the ordinal it was printed from. */
  lemma IsoDateRoundTrip(ordinal: int)
    requires ordinal >= 1
    ensures ParseIsoDate(IsoDate(ordinal)) == Some(ordinal)
  {
    OrdinalToDateRoundTrip(ordinal);
    var (y, m, d) := OrdinalToDate(ordinal);
    DateTextReadBack(y, m, d);
  }
}
