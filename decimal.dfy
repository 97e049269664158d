/**
 * Decimal text as Rust's `format!` writes integers (`{}` and `{:02}`),
 * with the inverse parse used to state round trips.
 */
module Decimal {

  predicate IsDigit(c: char) {
    '0' <= c <= '9'
  }

  predicate IsDigits(s: string) {
    forall i :: 0 <= i < |s| ==> IsDigit(s[i])
  }

  /** A non-empty run of digits: what a formatted field looks like. */
  predicate IsField(s: string) {
    |s| >= 1 && IsDigits(s)
  }

  function DigitChar(d: nat): (c: char)
    requires d < 10
    ensures IsDigit(c) && c as int - '0' as int == d
  {
    ('0' as int + d) as char
  }

  /** The value of a run of digits (leading zeros allowed). */
  function DecimalValue(s: string): nat
    requires IsDigits(s)
    decreases |s|
  {
    if s == [] then 0
    else DecimalValue(s[..|s| - 1]) * 10 + (s[|s| - 1] as int - '0' as int)
  }

  /** The shortest decimal spelling of `n`, without sign or padding. */
  function NatToDecimal(n: nat): (s: string)
    ensures IsField(s)
    ensures n < 10 <==> |s| == 1
    ensures 10 <= n < 100 ==> |s| == 2
    ensures n >= 100 ==> |s| >= 3
    ensures |s| > 1 ==> s[0] != '0'
    decreases n
  {
    if n < 10 then [DigitChar(n)] else NatToDecimal(n / 10) + [DigitChar(n % 10)]
  }

  /** Rust's `{}` on a signed integer: a minus sign, then the magnitude. */
  function IntToDecimal(i: int): string {
    if i < 0 then "-" + NatToDecimal(-i) else NatToDecimal(i)
  }

  /**
   * Rust's `{:02}`: zero-padded to width two; the sign counts toward the
   * width, so a negative value is never padded.
   */
  function Pad2(i: int): string {
    if i < 0 then "-" + NatToDecimal(-i)
    else if i < 10 then "0" + NatToDecimal(i)
    else NatToDecimal(i)
  }

  /** `{}` writes a sign exactly for negative values, then digits that read back as the magnitude. */
  lemma IntToDecimalReadsBack(i: int)
    ensures var s := IntToDecimal(i);
      && |s| >= 1
      && (s[0] == '-' <==> i < 0)
      && (i >= 0 ==> IsField(s) && DecimalValue(s) == i)
      && (i < 0 ==> IsField(s[1..]) && DecimalValue(s[1..]) == -i)
  {
    var s := IntToDecimal(i);
    NatToDecimalRoundTrip(if i < 0 then -i else i);
    if i < 0 {
      assert s[1..] == NatToDecimal(-i);
    }
  }

  /**
   * `{:02}` writes at least two characters, exactly two digits for values
   * below 100, and for non-negative values digits that read back as the value.
   */
  lemma Pad2ReadsBack(i: int)
    ensures var s := Pad2(i);
      && |s| >= 2
      && (0 <= i < 100 <==> |s| == 2 && IsDigits(s))
      && (i >= 0 ==> IsField(s) && DecimalValue(s) == i)
  {
    var s := Pad2(i);
    NatToDecimalRoundTrip(if i < 0 then -i else i);
    if i < 0 {
      assert !IsDigit(s[0]);
    } else if i < 10 {
      LeadingZero(NatToDecimal(i));
    }
  }

  lemma {:induction false} NatToDecimalRoundTrip(n: nat)
    ensures DecimalValue(NatToDecimal(n)) == n
    decreases n
  {
    if n >= 10 {
      var s := NatToDecimal(n);
      NatToDecimalRoundTrip(n / 10);
      assert s[..|s| - 1] == NatToDecimal(n / 10);
    }
  }

  /** A leading zero does not change the value of a run of digits. */
  lemma {:induction false} LeadingZero(s: string)
    requires IsDigits(s)
    ensures IsDigits("0" + s) && DecimalValue("0" + s) == DecimalValue(s)
    decreases |s|
  {
    if s != [] {
      var t := "0" + s;
      assert t[..|t| - 1] == "0" + s[..|s| - 1];
      LeadingZero(s[..|s| - 1]);
    }
  }

  /** The pieces of `s` between occurrences of `sep` (Rust's `str::split`). */
  function Split(s: string, sep: char): (fields: seq<string>)
    ensures |fields| >= 1
    decreases |s|
  {
    if s == [] then [[]]
    else
      var rest := Split(s[1..], sep);
      if s[0] == sep then [[]] + rest else [[s[0]] + rest[0]] + rest[1..]
  }

  lemma {:induction false} SplitNoSeparator(f: string, sep: char)
    requires sep !in f
    ensures Split(f, sep) == [f]
    decreases |f|
  {
    if f != [] {
      SplitNoSeparator(f[1..], sep);
      assert [f[0]] + f[1..] == f;
    }
  }

  /** Splitting a separator-free field followed by the separator peels off that field. */
  lemma {:induction false} SplitJoin(f: string, sep: char, rest: string)
    requires sep !in f
    ensures Split(f + [sep] + rest, sep) == [f] + Split(rest, sep)
    decreases |f|
  {
    var s := f + [sep] + rest;
    if f == [] {
      assert s[1..] == rest;
    } else {
      assert s[1..] == f[1..] + [sep] + rest;
      SplitJoin(f[1..], sep, rest);
      assert [f[0]] + f[1..] == f;
    }
  }

  lemma DigitsExcludeSeparator(f: string, sep: char)
    requires IsDigits(f) && !IsDigit(sep)
    ensures sep !in f
  {
  }

  /** Splitting three separator-free fields joined by `sep` gives them back. */
  lemma SplitThree(a: string, b: string, c: string, sep: char)
    requires sep !in a && sep !in b && sep !in c
    ensures Split(a + [sep] + b + [sep] + c, sep) == [a, b, c]
  {
    assert a + [sep] + b + [sep] + c == a + [sep] + (b + [sep] + c);
    SplitJoin(a, sep, b + [sep] + c);
    SplitJoin(b, sep, c);
    SplitNoSeparator(c, sep);
  }

  /** Splitting two separator-free fields joined by `sep` gives them back. */
  lemma SplitTwo(a: string, b: string, sep: char)
    requires sep !in a && sep !in b
    ensures Split(a + [sep] + b, sep) == [a, b]
  {
    SplitJoin(a, sep, b);
    SplitNoSeparator(b, sep);
  }
}
