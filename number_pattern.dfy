/**
 * The "numbers only" test of the request validator: a match of the .NET regular
 * expression ^-?[0-9]+(?:\.[0-9]+)?$ anywhere in the input.
 *
 * Two .NET details decide the language:
 *  - `[0-9]` is a character range, so only the ASCII digits match;
 *  - without the Multiline option, `$` matches at the end of the input OR just
 *    before a line feed that ends the input, so "12\n" matches too.
 *
 * The recogniser below is a deterministic automaton over the pattern; the
 * reference definition says in words which strings the pattern describes, and
 * IsNumbersOnlyMatchesPattern proves the two agree on every string.
 */
module NumberPattern {

  predicate IsDigit(c: char) {
    '0' <= c <= '9'
  }

  predicate AllDigits(s: string) {
    forall i :: 0 <= i < |s| ==> IsDigit(s[i])
  }

  /** `[0-9]+(?:\.[0-9]+)?`: digits, then optionally a point followed by digits. */
  ghost predicate UnsignedNumber(t: string) {
    || (|t| > 0 && AllDigits(t))
    || exists k :: 0 < k < |t| - 1 && t[k] == '.' && AllDigits(t[..k]) && AllDigits(t[k + 1..])
  }

  /** `-?[0-9]+(?:\.[0-9]+)?` over the whole string. */
  ghost predicate NumberLiteral(s: string) {
    if |s| > 0 && s[0] == '-' then UnsignedNumber(s[1..]) else UnsignedNumber(s)
  }

  /** The language of the anchored pattern under .NET's `$`. */
  ghost predicate MatchesPattern(s: string) {
    || NumberLiteral(s)
    || (|s| > 0 && s[|s| - 1] == '\n' && NumberLiteral(s[..|s| - 1]))
  }

  /** States of the automaton: where the scan is within the pattern. */
  datatype State = Start | AfterSign | IntegerPart | AfterPoint | Fraction | Dead

  predicate Accepting(q: State) {
    q == IntegerPart || q == Fraction
  }

  function Step(q: State, c: char): State {
    match q
    case Start => if c == '-' then AfterSign else if IsDigit(c) then IntegerPart else Dead
    case AfterSign => if IsDigit(c) then IntegerPart else Dead
    case IntegerPart => if IsDigit(c) then IntegerPart else if c == '.' then AfterPoint else Dead
    case AfterPoint => if IsDigit(c) then Fraction else Dead
    case Fraction => if IsDigit(c) then Fraction else Dead
    case Dead => Dead
  }

  /** The state reached from q after reading all of s. */
  function Run(q: State, s: string): State
    decreases |s|
  {
    if |s| == 0 then q else Run(Step(q, s[0]), s[1..])
  }

  /** Scans s from q; a final line feed is accepted wherever the pattern could end. */
  function Scan(q: State, s: string): bool
    decreases |s|
  {
    if |s| == 0 then Accepting(q)
    else if s == "\n" && Accepting(q) then true
    else Scan(Step(q, s[0]), s[1..])
  }

  /** `Regex.IsMatch(value)` for the validator's pattern. */
  predicate IsNumbersOnly(value: string) {
    Scan(Start, value)
  }

  lemma {:induction false} DeadStaysDead(s: string)
    ensures Run(Dead, s) == Dead
    decreases |s|
  {
    if |s| > 0 {
      DeadStaysDead(s[1..]);
    }
  }

  /** Scan accepts exactly what Run accepts, with or without one final line feed. */
  lemma {:induction false} ScanIsRunWithFinalLineFeed(q: State, s: string)
    ensures Scan(q, s) <==>
      || Accepting(Run(q, s))
      || (|s| > 0 && s[|s| - 1] == '\n' && Accepting(Run(q, s[..|s| - 1])))
    decreases |s|
  {
    if |s| == 0 {
    } else if |s| == 1 {
      if s == "\n" {
        assert Run(q, s) == Run(Dead, s[1..]) by {
          assert Step(q, '\n') == Dead;
        }
        DeadStaysDead(s[1..]);
        assert s[..0] == [];
      } else {
        assert Run(q, s) == Step(q, s[0]);
      }
    } else {
      var q' := Step(q, s[0]);
      ScanIsRunWithFinalLineFeed(q', s[1..]);
      assert s[1..][..|s| - 2] == s[..|s| - 1][1..];
      assert Run(q, s[..|s| - 1]) == Run(q', s[..|s| - 1][1..]);
    }
  }

  /** From Fraction, the automaton accepts exactly the all-digit strings. */
  lemma {:induction false} FractionLanguage(t: string)
    ensures Accepting(Run(Fraction, t)) <==> AllDigits(t)
    decreases |t|
  {
    if |t| > 0 {
      if IsDigit(t[0]) {
        FractionLanguage(t[1..]);
        assert AllDigits(t) <==> AllDigits(t[1..]) by {
          if AllDigits(t[1..]) {
            forall i | 0 <= i < |t| ensures IsDigit(t[i]) {
              if i > 0 { assert t[i] == t[1..][i - 1]; }
            }
          }
        }
      } else {
        DeadStaysDead(t[1..]);
      }
    }
  }

  /** `(?:\.[0-9]+)?` after at least one digit, as the automaton reads it from IntegerPart. */
  ghost predicate IntegerTail(t: string) {
    || AllDigits(t)
    || exists k :: 0 <= k < |t| - 1 && t[k] == '.' && AllDigits(t[..k]) && AllDigits(t[k + 1..])
  }

  lemma {:induction false} IntegerPartLanguage(t: string)
    ensures Accepting(Run(IntegerPart, t)) <==> IntegerTail(t)
    decreases |t|
  {
    if |t| == 0 {
    } else if IsDigit(t[0]) {
      IntegerPartLanguage(t[1..]);
      IntegerTailShift(t);
    } else if t[0] == '.' {
      FractionAfterPoint(t[1..]);
      PointTail(t);
    } else {
      DeadStaysDead(t[1..]);
    }
  }

  lemma FractionAfterPoint(t: string)
    ensures Accepting(Run(AfterPoint, t)) <==> |t| > 0 && AllDigits(t)
  {
    if |t| == 0 {
    } else if IsDigit(t[0]) {
      FractionLanguage(t[1..]);
      assert AllDigits(t) <==> AllDigits(t[1..]) by {
        if AllDigits(t[1..]) {
          forall i | 0 <= i < |t| ensures IsDigit(t[i]) {
            if i > 0 { assert t[i] == t[1..][i - 1]; }
          }
        }
      }
    } else {
      DeadStaysDead(t[1..]);
    }
  }

  /** A leading digit does not change whether the rest is an integer tail. */
  lemma IntegerTailShift(t: string)
    requires |t| > 0 && IsDigit(t[0])
    ensures IntegerTail(t) <==> IntegerTail(t[1..])
  {
    var u := t[1..];
    if AllDigits(u) {
      forall i | 0 <= i < |t| ensures IsDigit(t[i]) {
        if i > 0 { assert t[i] == u[i - 1]; }
      }
    }
    if k :| 0 <= k < |u| - 1 && u[k] == '.' && AllDigits(u[..k]) && AllDigits(u[k + 1..]) {
      assert t[k + 1] == '.';
      assert t[k + 2..] == u[k + 1..];
      var p := t[..k + 1];
      forall i | 0 <= i < |p| ensures IsDigit(p[i]) {
        if i > 0 { assert p[i] == u[..k][i - 1]; }
      }
    }
    if k :| 0 <= k < |t| - 1 && t[k] == '.' && AllDigits(t[..k]) && AllDigits(t[k + 1..]) {
      assert k > 0;
      assert u[k - 1] == '.';
      assert u[k..] == t[k + 1..];
      var p := u[..k - 1];
      forall i | 0 <= i < |p| ensures IsDigit(p[i]) {
        assert p[i] == t[..k][i + 1];
      }
    }
  }

  /** A leading point is an integer tail exactly when digits follow it. */
  lemma PointTail(t: string)
    requires |t| > 0 && t[0] == '.'
    ensures IntegerTail(t) <==> |t| > 1 && AllDigits(t[1..])
  {
    assert !IsDigit(t[0]);
    if |t| > 1 && AllDigits(t[1..]) {
      assert t[..0] == [];
      assert 0 <= 0 < |t| - 1 && t[0] == '.' && AllDigits(t[..0]) && AllDigits(t[0 + 1..]);
    }
    if k :| 0 <= k < |t| - 1 && t[k] == '.' && AllDigits(t[..k]) && AllDigits(t[k + 1..]) {
      if k > 0 { assert t[..k][0] == '.'; }
    }
  }

  /** From Start (and after the sign), the automaton accepts exactly the unsigned numbers. */
  lemma UnsignedLanguage(q: State, t: string)
    requires q == Start || q == AfterSign
    requires |t| == 0 || t[0] != '-'
    ensures Accepting(Run(q, t)) <==> UnsignedNumber(t)
  {
    if |t| == 0 {
    } else if IsDigit(t[0]) {
      IntegerPartLanguage(t[1..]);
      UnsignedFromTail(t);
    } else {
      DeadStaysDead(t[1..]);
    }
  }

  /** An unsigned number is a digit followed by an integer tail. */
  lemma UnsignedFromTail(t: string)
    requires |t| > 0 && IsDigit(t[0])
    ensures UnsignedNumber(t) <==> IntegerTail(t[1..])
  {
    IntegerTailShift(t);
    if k :| 0 <= k < |t| - 1 && t[k] == '.' && AllDigits(t[..k]) && AllDigits(t[k + 1..]) {
      assert k != 0;
    }
  }

  lemma UnsignedStartsWithDigit(t: string)
    ensures UnsignedNumber(t) ==> |t| > 0 && IsDigit(t[0])
  {
    forall k | 0 < k < |t| - 1 && AllDigits(t[..k])
      ensures IsDigit(t[0])
    {
      assert t[..k][0] == t[0];
    }
  }

  /** The automaton from Start accepts exactly the number literals (before `$` is considered). */
  lemma RunMatchesLiteral(s: string)
    ensures Accepting(Run(Start, s)) <==> NumberLiteral(s)
  {
    if |s| > 0 && s[0] == '-' {
      var t := s[1..];
      assert Run(Start, s) == Run(AfterSign, t);
      if |t| > 0 && t[0] == '-' {
        DeadStaysDead(t[1..]);
        assert !IsDigit(t[0]);
        UnsignedStartsWithDigit(t);
      } else {
        UnsignedLanguage(AfterSign, t);
      }
    } else {
      UnsignedLanguage(Start, s);
    }
  }

  /** IsNumbersOnly accepts exactly the strings the anchored pattern describes. */
  lemma IsNumbersOnlyMatchesPattern(s: string)
    ensures IsNumbersOnly(s) <==> MatchesPattern(s)
  {
    ScanIsRunWithFinalLineFeed(Start, s);
    RunMatchesLiteral(s);
    if |s| > 0 {
      RunMatchesLiteral(s[..|s| - 1]);
    }
  }

  /** A non-empty run of ASCII digits always passes. */
  lemma DigitsPass(s: string)
    requires |s| > 0 && AllDigits(s)
    ensures IsNumbersOnly(s)
  {
    IsNumbersOnlyMatchesPattern(s);
    assert !(s[0] == '-') by { assert IsDigit(s[0]); }
  }

  /** A character that is neither a digit, '-', '.' nor a line feed sends the automaton to Dead. */
  lemma {:induction false} ForeignCharacterKills(q: State, s: string, i: nat)
    requires i < |s| && !IsDigit(s[i]) && s[i] !in "-.\n"
    ensures Run(q, s) == Dead
    decreases |s|
  {
    if i == 0 {
      DeadStaysDead(s[1..]);
    } else {
      ForeignCharacterKills(Step(q, s[0]), s[1..], i - 1);
    }
  }

  /** Any character outside digits, '-', '.' and line feed makes the test fail. */
  lemma ForeignCharacterFails(s: string, i: nat)
    requires i < |s| && !IsDigit(s[i]) && s[i] !in "-.\n"
    ensures !IsNumbersOnly(s)
  {
    ScanIsRunWithFinalLineFeed(Start, s);
    ForeignCharacterKills(Start, s, i);
    if i < |s| - 1 {
      ForeignCharacterKills(Start, s[..|s| - 1], i);
    }
  }

  /** Signs and decimal points are part of the pattern; letters and the empty string are not. */
  lemma IsNumbersOnlyExamples()
    ensures IsNumbersOnly("-12") && IsNumbersOnly("1.5") && IsNumbersOnly("123")
    ensures !IsNumbersOnly("") && !IsNumbersOnly("12E") && !IsNumbersOnly("1.") && !IsNumbersOnly("-")
  {
  }
}
