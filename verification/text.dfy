/** Text rendering used by the command builder: Python's `str()` of an
    integer (decimal, no leading zeros, a leading '-' when negative) and
    `str.join` with a one-character separator, each with the inverse that
    shows it loses nothing. */
module Text {

  predicate IsDigit(c: char) {
    '0' <= c <= '9'
  }

  predicate AllDigits(s: string) {
    forall i :: 0 <= i < |s| ==> IsDigit(s[i])
  }

  /** The character of one decimal digit. */
  function DigitChar(d: nat): (c: char)
    requires d < 10
    ensures IsDigit(c) && c as int - '0' as int == d
  {
    ('0' as int + d) as char
  }

  /** `str(n)` for a non-negative Python int: at least one digit, and no
      leading zero unless the number is zero itself. */
  function NatToString(n: nat): (s: string)
    ensures |s| >= 1 && AllDigits(s)
    ensures s[0] == '0' ==> n == 0
    decreases n
  {
    if n < 10 then [DigitChar(n)] else NatToString(n / 10) + [DigitChar(n % 10)]
  }

  /** `str(i)` for any Python int. */
  function IntToString(i: int): string {
    if i < 0 then "-" + NatToString(-i) else NatToString(i)
  }

  /** The number a string of decimal digits denotes (the reading `int(s)` gives). */
  function DecimalValue(s: string): nat
    requires AllDigits(s)
  {
    if s == [] then 0 else 10 * DecimalValue(s[..|s| - 1]) + (s[|s| - 1] as int - '0' as int)
  }

  /** Reading back the decimal rendering gives the number again. */
  lemma {:induction false} DecimalRoundTrip(n: nat)
    ensures DecimalValue(NatToString(n)) == n
  {
    if n >= 10 {
      var s := NatToString(n);
      assert s[..|s| - 1] == NatToString(n / 10);
      DecimalRoundTrip(n / 10);
    }
  }

  /** Distinct numbers have distinct renderings. */
  lemma NatToStringInjective(m: nat, n: nat)
    ensures NatToString(m) == NatToString(n) <==> m == n
  {
    if NatToString(m) == NatToString(n) {
      DecimalRoundTrip(m);
      DecimalRoundTrip(n);
    }
  }

  /** `sep.join(parts)` for a one-character separator. */
  function Join(parts: seq<string>, sep: char): string {
    if parts == [] then ""
    else if |parts| == 1 then parts[0]
    else parts[0] + [sep] + Join(parts[1..], sep)
  }

  /** `s.split(sep)`: always at least one piece. */
  function Split(s: string, sep: char): (parts: seq<string>)
    ensures |parts| >= 1
  {
    if s == [] then [""]
    else
      var rest := Split(s[1..], sep);
      if s[0] == sep then [""] + rest else [[s[0]] + rest[0]] + rest[1..]
  }

  /** A prefix free of the separator sticks to the first piece of what follows it. */
  lemma {:induction false} SplitFreePrefix(a: string, b: string, sep: char)
    requires sep !in a
    ensures Split(a + b, sep) == [a + Split(b, sep)[0]] + Split(b, sep)[1..]
  {
    if a == [] {
      var s := Split(b, sep);
      assert a + b == b && a + s[0] == s[0];
      assert s == [s[0]] + s[1..];
    } else {
      assert (a + b)[0] == a[0] && a[0] != sep;
      assert (a + b)[1..] == a[1..] + b;
      SplitFreePrefix(a[1..], b, sep);
      var rest := Split(a[1..] + b, sep);
      assert rest == [a[1..] + Split(b, sep)[0]] + Split(b, sep)[1..];
      assert Split(a + b, sep) == [[a[0]] + rest[0]] + rest[1..];
      assert [a[0]] + (a[1..] + Split(b, sep)[0]) == a + Split(b, sep)[0];
    }
  }

  /** A separator followed by more text: an empty first piece, then the pieces of the rest. */
  lemma SplitAfterSeparator(b: string, sep: char)
    ensures Split([sep] + b, sep) == [""] + Split(b, sep)
  {
    assert ([sep] + b)[1..] == b;
  }

  /** Joining pieces free of the separator and splitting the result at the
      separator gives the same pieces back, in the same order. */
  lemma {:induction false} SplitJoinRoundTrip(parts: seq<string>, sep: char)
    requires |parts| >= 1
    requires forall i :: 0 <= i < |parts| ==> sep !in parts[i]
    ensures Split(Join(parts, sep), sep) == parts
  {
    if |parts| == 1 {
      SplitFreePrefix(parts[0], "", sep);
      assert parts[0] + "" == parts[0];
    } else {
      var tail := Join(parts[1..], sep);
      assert Join(parts, sep) == parts[0] + ([sep] + tail);
      SplitFreePrefix(parts[0], [sep] + tail, sep);
      SplitAfterSeparator(tail, sep);
      SplitJoinRoundTrip(parts[1..], sep);
      assert parts[0] + "" == parts[0];
    }
  }
}
