/**
 * Decimal text of integers as .NET writes them, with '-' as the negative sign: `ToString()`
 * and the "D2" format, which pads the digits with zeros to at least two but never
 * truncates. Also the reading back of such text, used to state round trips.
 */
module DecimalText {
  import opened Wrappers
  import opened NumberPattern

  function DigitChar(d: nat): (c: char)
    requires d < 10
    ensures IsDigit(c)
  {
    ('0' as int + d) as char
  }

  /** The shortest decimal digits of n. */
  function NatText(n: nat): (s: string)
    ensures |s| > 0 && AllDigits(s)
    decreases n
  {
    if n < 10 then [DigitChar(n)] else NatText(n / 10) + [DigitChar(n % 10)]
  }

  /** `int.ToString()`: a minus sign for negatives, then the digits of the magnitude. */
  function IntText(n: int): string {
    if n < 0 then "-" + NatText(-n) else NatText(n)
  }

  /** Zeros in front of s up to the given width. */
  function PadZeros(s: string, width: nat): (r: string)
    ensures |r| >= width && |r| >= |s|
  {
    if |s| >= width then s else seq(width - |s|, _ => '0') + s
  }

  /** `int.ToString("D2")`: at least two digits, the sign in front of the padding. */
  function FormatD2(n: int): string {
    if n < 0 then "-" + PadZeros(NatText(-n), 2) else PadZeros(NatText(n), 2)
  }

  /** The number a string of decimal digits denotes. */
  function DigitsValue(s: string): nat
    requires AllDigits(s)
  {
    if |s| == 0 then 0 else DigitsValue(s[..|s| - 1]) * 10 + (s[|s| - 1] as int - '0' as int)
  }

  /** Reads an optionally signed decimal integer; None when s is not one. */
  function ParseInt(s: string): Option<int> {
    if |s| > 1 && s[0] == '-' && AllDigits(s[1..]) then Some(-(DigitsValue(s[1..]) as int))
    else if |s| > 0 && AllDigits(s) then Some(DigitsValue(s))
    else None
  }

  /** `string.Split(sep)`: the pieces between occurrences of sep, empty pieces kept. */
  function Split(s: string, sep: char): (parts: seq<string>)
    ensures |parts| > 0
  {
    if |s| == 0 then [""]
    else
      var rest := Split(s[1..], sep);
      if s[0] == sep then [""] + rest else [[s[0]] + rest[0]] + rest[1..]
  }

  lemma {:induction false} NatTextValue(n: nat)
    ensures DigitsValue(NatText(n)) == n
    decreases n
  {
    if n >= 10 {
      NatTextValue(n / 10);
      var s := NatText(n / 10) + [DigitChar(n % 10)];
      assert s[..|s| - 1] == NatText(n / 10);
    }
  }

  lemma {:induction false} LeadingZerosValue(z: nat, s: string)
    requires AllDigits(s)
    ensures AllDigits(seq(z, _ => '0') + s)
    ensures DigitsValue(seq(z, _ => '0') + s) == DigitsValue(s)
    decreases |s|
  {
    var t := seq(z, _ => '0') + s;
    if |s| == 0 {
      assert t == seq(z, _ => '0');
      ZerosValue(z);
    } else {
      LeadingZerosValue(z, s[..|s| - 1]);
      assert t[..|t| - 1] == seq(z, _ => '0') + s[..|s| - 1];
    }
  }

  lemma {:induction false} ZerosValue(z: nat)
    ensures AllDigits(seq(z, _ => '0'))
    ensures DigitsValue(seq(z, _ => '0')) == 0
    decreases z
  {
    if z > 0 {
      ZerosValue(z - 1);
      assert seq(z, _ => '0')[..z - 1] == seq(z - 1, _ => '0');
    }
  }

  /** D2 keeps every digit of the magnitude at the end and only adds zeros and a sign in front. */
  lemma FormatD2Shape(n: int)
    ensures var digits := NatText(if n < 0 then -n else n);
      var r := FormatD2(n);
      && |r| >= 2
      && |r| >= |digits|
      && r[|r| - |digits|..] == digits
      && (n >= 0 ==> AllDigits(r))
      && (n < 0 ==> r[0] == '-' && AllDigits(r[1..]))
  {
    var digits := NatText(if n < 0 then -n else n);
    var p := PadZeros(digits, 2);
    if |digits| < 2 {
      LeadingZerosValue(2 - |digits|, digits);
    }
    assert p[|p| - |digits|..] == digits;
    if n < 0 {
      assert ("-" + p)[1..] == p;
    }
  }

  /** Reading back the D2 text of any integer gives the integer. */
  lemma FormatD2RoundTrip(n: int)
    ensures ParseInt(FormatD2(n)) == Some(n)
  {
    var m := if n < 0 then -n else n;
    var digits := NatText(m);
    var p := PadZeros(digits, 2);
    NatTextValue(m);
    if |digits| < 2 {
      LeadingZerosValue(2 - |digits|, digits);
    }
    assert AllDigits(p) && DigitsValue(p) == m;
    if n < 0 {
      assert ("-" + p)[1..] == p;
    } else {
      assert p[0] != '-' by { assert IsDigit(p[0]); }
    }
  }

  /** Reading back the `ToString()` text of any integer gives the integer. */
  lemma IntTextRoundTrip(n: int)
    ensures ParseInt(IntText(n)) == Some(n)
  {
    var m := if n < 0 then -n else n;
    NatTextValue(m);
    if n < 0 {
      assert ("-" + NatText(m))[1..] == NatText(m);
    } else {
      assert NatText(m)[0] != '-' by { assert IsDigit(NatText(m)[0]); }
    }
  }

  lemma {:induction false} SplitWithoutSeparator(a: string, sep: char)
    requires sep !in a
    ensures Split(a, sep) == [a]
    decreases |a|
  {
    if |a| > 0 {
      SplitWithoutSeparator(a[1..], sep);
      assert [a[0]] + a[1..] == a;
    }
  }

  /** Splitting at the first separator peels off the piece before it. */
  lemma {:induction false} SplitAtFirstSeparator(a: string, sep: char, b: string)
    requires sep !in a
    ensures Split(a + [sep] + b, sep) == [a] + Split(b, sep)
    decreases |a|
  {
    var s := a + [sep] + b;
    if |a| == 0 {
      assert s[1..] == b;
    } else {
      assert s[1..] == a[1..] + [sep] + b;
      SplitAtFirstSeparator(a[1..], sep, b);
      assert [a[0]] + a[1..] == a;
    }
  }
}
