/**
 The day key of the daily history: the local year, the 1-based month and the
 day of the month of a file's modification time, written `YYYY-MM-DD` with
 month and day padded to two digits. The year is written as the plain
 decimal number, so only four-digit years give ten-character keys.
 */
module DayKeys {

  datatype Option<T> = None | Some(value: T)

  /** A local calendar date as `Date` reports it: `getFullYear()`, `getMonth()` (0-based) and `getDate()`. */
  datatype LocalDate = LocalDate(year: int, month0: int, date: int)

  /** A date `Date` can report, with a four-digit year. */
  predicate FourDigitDate(d: LocalDate)
  {
    1000 <= d.year <= 9999 && 0 <= d.month0 <= 11 && 1 <= d.date <= 31
  }

  predicate IsDigit(c: char)
  {
    '0' <= c <= '9'
  }

  function DigitChar(d: nat): (c: char)
    requires d < 10
    ensures IsDigit(c)
  {
    ('0' as int + d) as char
  }

  function DigitValue(c: char): (d: nat)
    requires IsDigit(c)
    ensures d < 10 && DigitChar(d) == c
  {
    c as int - '0' as int
  }

  /** The decimal numeral of `n`, most significant digit first, without leading zeros. */
  function NatToString(n: nat): (s: string)
    ensures 1 <= |s|
    ensures forall i :: 0 <= i < |s| ==> IsDigit(s[i])
  {
    if n < 10 then [DigitChar(n)] else NatToString(n / 10) + [DigitChar(n % 10)]
  }

  /** `toString()` of an integral number. */
  function IntToString(n: int): string
  {
    if n < 0 then "-" + NatToString(-n) else NatToString(n)
  }

  /** `padStart(2, '0')`: prefix zeros until the string has two characters. */
  function PadStart2(s: string): (r: string)
    ensures |r| == if |s| < 2 then 2 else |s|
  {
    if |s| == 0 then "00" else if |s| == 1 then "0" + s else s
  }

  /** The key a file modified on `d` is counted under. */
  function DayKey(d: LocalDate): (key: string)
    ensures var year := IntToString(d.year);
      && |key| >= |year| + 6
      && key[..|year|] == year && key[|year|] == '-'
  {
    IntToString(d.year) + "-" + PadStart2(IntToString(d.month0 + 1)) + "-" + PadStart2(IntToString(d.date))
  }

  /** The number a string of decimal digits denotes. */
  function Numeral(s: string): nat
    requires forall i :: 0 <= i < |s| ==> IsDigit(s[i])
  {
    if s == [] then 0 else Numeral(s[..|s| - 1]) * 10 + DigitValue(s[|s| - 1])
  }

  /** Reads a ten-character `YYYY-MM-DD` key back into the date it names. */
  function ParseDayKey(key: string): Option<LocalDate>
  {
    if |key| == 10 && key[4] == '-' && key[7] == '-'
       && (forall i :: 0 <= i < 10 && i != 4 && i != 7 ==> IsDigit(key[i]))
    then Some(LocalDate(Numeral(key[..4]), Numeral(key[5..7]) - 1, Numeral(key[8..])))
    else None
  }

  lemma {:induction false} NumeralOfNatToString(n: nat)
    ensures Numeral(NatToString(n)) == n
  {
    if n >= 10 {
      var s := NatToString(n);
      assert s[..|s| - 1] == NatToString(n / 10);
      NumeralOfNatToString(n / 10);
    }
  }

  lemma {:induction false} NatToStringLength(n: nat, k: nat)
    requires k >= 1
    requires Pow10(k - 1) <= n < Pow10(k)
    ensures |NatToString(n)| == k
  {
    if k > 1 {
      NatToStringLength(n / 10, k - 1);
    }
  }

  function Pow10(k: nat): (p: nat)
    ensures p >= 1
  {
    if k == 0 then 1 else 10 * Pow10(k - 1)
  }

  /** A number below 100 padded to two digits reads back as itself. */
  lemma TwoDigitField(n: nat)
    requires n < 100
    ensures |PadStart2(NatToString(n))| == 2
    ensures forall i :: 0 <= i < 2 ==> IsDigit(PadStart2(NatToString(n))[i])
    ensures Numeral(PadStart2(NatToString(n))) == n
  {
    var s := NatToString(n);
    NumeralOfNatToString(n);
    if n < 10 {
      var p := PadStart2(s);
      assert p == ['0', DigitChar(n)];
      assert p[..1] == ['0'];
      assert Numeral(['0']) == 0 by { assert ['0'][..0] == []; }
      assert s[..0] == [];
    } else {
      NatToStringLength(n, 2);
    }
  }

  /** Where the three fields and the two dashes of `y-m-d` sit when the fields have widths 4, 2 and 2. */
  lemma KeyLayout(y: string, m: string, dd: string)
    requires |y| == 4 && |m| == 2 && |dd| == 2
    ensures var key := y + "-" + m + "-" + dd;
      && |key| == 10 && key[4] == '-' && key[7] == '-'
      && key[..4] == y && key[5..7] == m && key[8..] == dd
      && (forall i :: 0 <= i < 4 ==> key[i] == y[i])
      && (forall i :: 5 <= i < 7 ==> key[i] == m[i - 5])
      && (forall i :: 8 <= i < 10 ==> key[i] == dd[i - 8])
  {
  }

  /** A year of four digits is written with four digits that read back as the year. */
  lemma FourDigitYear(year: int)
    requires 1000 <= year <= 9999
    ensures |IntToString(year)| == 4
    ensures forall i :: 0 <= i < 4 ==> IsDigit(IntToString(year)[i])
    ensures Numeral(IntToString(year)) == year
  {
    assert Pow10(3) == 1000 && Pow10(4) == 10000 by {
      assert Pow10(1) == 10 && Pow10(2) == 100;
    }
    NatToStringLength(year, 4);
    NumeralOfNatToString(year);
  }

  /**
   For a four-digit year, the key has the shape `YYYY-MM-DD`: ten characters,
   dashes at positions 4 and 7, and the year, the 1-based month and the day
   written in the digit fields.
   */
  lemma DayKeyShape(d: LocalDate)
    requires FourDigitDate(d)
    ensures var key := DayKey(d);
      && |key| == 10 && key[4] == '-' && key[7] == '-'
      && (forall i :: 0 <= i < 10 && i != 4 && i != 7 ==> IsDigit(key[i]))
      && key[..4] == IntToString(d.year)
      && Numeral(key[..4]) == d.year
      && Numeral(key[5..7]) == d.month0 + 1
      && Numeral(key[8..]) == d.date
  {
    var y, m, dd := IntToString(d.year), PadStart2(IntToString(d.month0 + 1)), PadStart2(IntToString(d.date));
    FourDigitYear(d.year);
    TwoDigitField(d.month0 + 1);
    TwoDigitField(d.date);
    KeyLayout(y, m, dd);
  }

  /** Parsing a key gives back the date it was formed from. */
  lemma ParseDayKeyRoundTrip(d: LocalDate)
    requires FourDigitDate(d)
    ensures ParseDayKey(DayKey(d)) == Some(d)
  {
    DayKeyShape(d);
  }

  /** Distinct dates with four-digit years never share a key. */
  lemma DayKeyInjective(d1: LocalDate, d2: LocalDate)
    requires FourDigitDate(d1) && FourDigitDate(d2)
    requires DayKey(d1) == DayKey(d2)
    ensures d1 == d2
  {
    ParseDayKeyRoundTrip(d1);
    ParseDayKeyRoundTrip(d2);
  }
}
