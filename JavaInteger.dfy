/**
 * The two pieces of java.lang.Integer the tool relies on: `parseInt` (an
 * optional sign, at least one decimal digit, a value within 32 bits) and
 * `toString` (the canonical decimal form).
 */
module JavaInteger {
  import opened Outcomes

  const MIN_VALUE: int := -0x8000_0000
  const MAX_VALUE: int := 0x7FFF_FFFF

  predicate InRange(n: int) { MIN_VALUE <= n <= MAX_VALUE }

  predicate IsDigit(c: char) { '0' <= c <= '9' }

  predicate AllDigits(s: string) { forall k :: 0 <= k < |s| ==> IsDigit(s[k]) }

  function DigitValue(c: char): (d: nat)
    requires IsDigit(c)
    ensures d < 10
  {
    c as int - '0' as int
  }

  function Digit(d: nat): (c: char)
    requires d < 10
    ensures IsDigit(c) && DigitValue(c) == d
  {
    ('0' as int + d) as char
  }

  /** The number a string of decimal digits denotes, read most significant digit first. */
  function DigitsValue(s: string): nat
    requires AllDigits(s)
  {
    if s == [] then 0 else DigitsValue(s[..|s| - 1]) * 10 + DigitValue(s[|s| - 1])
  }

  /** The decimal digits of `n` without leading zeros, each read back to `n`. */
  function NatToString(n: nat): (r: string)
    ensures |r| >= 1 && AllDigits(r) && (|r| > 1 ==> r[0] != '0')
    ensures DigitsValue(r) == n
  {
    if n < 10 then [Digit(n)]
    else
      var r := NatToString(n / 10) + [Digit(n % 10)];
      assert r[..|r| - 1] == NatToString(n / 10);
      r
  }

  /** Integer.toString: a minus sign for negative values, then the digits. */
  function IntToString(n: int): (r: string)
    ensures Canonical(r)
    ensures r[0] == '-' <==> n < 0
  {
    if n < 0 then
      var d := NatToString(-n);
      var r := "-" + d;
      assert r[1..] == d;
      r
    else NatToString(n)
  }

  /** Integer.parseInt: `None` where Java throws NumberFormatException. */
  function ParseInt(s: string): (r: Option<int>)
    ensures r.Some? ==> InRange(r.value)
  {
    if |s| == 0 then None
    else
      var negative := s[0] == '-';
      var digits := if s[0] == '-' || s[0] == '+' then s[1..] else s;
      if |digits| == 0 || !AllDigits(digits) then None
      else
        var v: int := if negative then -(DigitsValue(digits) as int) else DigitsValue(digits);
        if InRange(v) then Some(v) else None
  }

  /** A string is in canonical form when Integer.toString could have produced it. */
  predicate Canonical(s: string)
  {
    var digits := if |s| > 0 && s[0] == '-' then s[1..] else s;
    |digits| >= 1 && AllDigits(digits) && (|digits| > 1 ==> digits[0] != '0')
      && (|s| > 0 && s[0] == '-' ==> digits != "0")
  }

  /** parseInt reads back what toString writes, for every 32-bit value. */
  lemma ParseIntToString(n: int)
    requires InRange(n)
    ensures ParseInt(IntToString(n)) == Some(n)
    ensures Canonical(IntToString(n))
  {
    var s := IntToString(n);
    if n < 0 {
      var d := NatToString(-n);
      assert s[0] == '-' && s[1..] == d;
    } else {
      var d := NatToString(n);
      assert s == d && IsDigit(s[0]);
    }
  }

  /** A canonical digit string is the one toString writes for its value. */
  lemma {:induction false} CanonicalDigits(s: string)
    requires |s| >= 1 && AllDigits(s) && (|s| > 1 ==> s[0] != '0')
    ensures NatToString(DigitsValue(s)) == s
  {
    var n := DigitsValue(s);
    if |s| == 1 {
      assert s[..0] == [];
    } else {
      var p := s[..|s| - 1];
      assert p[0] == s[0];
      CanonicalDigits(p);
      if DigitsValue(p) == 0 {
        // a non-empty canonical digit string other than "0" has a positive value
        CanonicalNonZero(p);
      }
      assert n / 10 == DigitsValue(p) && n % 10 == DigitValue(s[|s| - 1]);
      assert s == p + [s[|s| - 1]];
    }
  }

  lemma {:induction false} CanonicalNonZero(s: string)
    requires |s| >= 1 && AllDigits(s) && s[0] != '0'
    ensures DigitsValue(s) > 0
  {
    if |s| > 1 {
      var p := s[..|s| - 1];
      assert p[0] == s[0];
      CanonicalNonZero(p);
    }
  }

  /**
   * toString inverts parseInt on canonical input: a string that parses and is
   * canonical is exactly what toString prints for the parsed value.
   */
  lemma CanonicalRoundTrip(s: string)
    requires ParseInt(s).Some? && Canonical(s)
    ensures IntToString(ParseInt(s).value) == s
  {
    if s[0] == '-' {
      var d := s[1..];
      CanonicalDigits(d);
      CanonicalNonZeroOrZero(d);
      assert s == "-" + d;
    } else {
      CanonicalDigits(s);
    }
  }

  lemma CanonicalNonZeroOrZero(d: string)
    requires |d| >= 1 && AllDigits(d) && (|d| > 1 ==> d[0] != '0') && d != "0"
    ensures DigitsValue(d) > 0
  {
    if |d| == 1 {
      assert d[..0] == [];
      assert d[0] != '0';
    } else {
      CanonicalNonZero(d);
    }
  }

  /** The text `parseInt` reads after an optional leading sign. */
  function Unsigned(s: string): string
  {
    if |s| > 0 && (s[0] == '-' || s[0] == '+') then s[1..] else s
  }

  /** The signed value of a sign followed by digits. */
  function SignedValue(s: string): int
    requires |s| >= 1 && AllDigits(Unsigned(s))
  {
    if s[0] == '-' then -(DigitsValue(Unsigned(s)) as int) else DigitsValue(Unsigned(s))
  }

  /**
   * What parseInt accepts: an optional sign and then at least one digit, read
   * as a decimal number and negated after a minus sign.
   */
  lemma ParseIntSyntax(s: string)
    requires ParseInt(s).Some?
    ensures |Unsigned(s)| >= 1 && AllDigits(Unsigned(s))
    ensures ParseInt(s).value == SignedValue(s)
  {
  }

  /** Conversely, a sign followed by digits is accepted whenever its value fits in 32 bits. */
  lemma ParseIntAccepts(s: string)
    requires |Unsigned(s)| >= 1 && AllDigits(Unsigned(s))
    requires InRange(SignedValue(s))
    ensures ParseInt(s) == Some(SignedValue(s))
  {
  }

  /** A character that is not a digit, anywhere except as the leading sign, makes parseInt fail. */
  lemma ParseIntNonDigit(s: string, k: nat)
    requires k < |s| && !IsDigit(s[k])
    requires k == 0 ==> s[0] != '-' && s[0] != '+'
    ensures ParseInt(s).None?
  {
    if s[0] == '-' || s[0] == '+' {
      assert Unsigned(s)[k - 1] == s[k];
    } else {
      assert Unsigned(s)[k] == s[k];
    }
  }

  /** A single decimal digit parses to its value. */
  lemma ParseDigit(c: char)
    requires IsDigit(c)
    ensures ParseInt([c]) == Some(DigitValue(c))
    ensures ParseInt(['+', c]) == Some(DigitValue(c))
    ensures ParseInt(['0', c]) == Some(DigitValue(c))
  {
    assert [c][..0] == [];
    assert DigitsValue([c]) == DigitValue(c);
    assert !([c][0] == '-' || [c][0] == '+');
    assert ['+', c][1..] == [c];
    assert ['0', c][..1] == ['0'] && ['0'][..0] == [];
    assert DigitsValue(['0']) == 0;
    assert DigitsValue(['0', c]) == DigitValue(c);
  }

  /** Leading zeros and a plus sign are dropped: "007" and "+7" both read as 7. */
  lemma ParseIntDropsZerosAndSign()
    ensures ParseInt("007") == Some(7) && IntToString(7) == "7"
    ensures ParseInt("+7") == Some(7)
  {
    assert "007"[..2] == "00" && "00"[..1] == "0" && "0"[..0] == "";
    assert "+7"[1..] == "7";
  }

  /** A minus sign negates; Integer.toString writes it back. */
  lemma ParseIntNegative()
    ensures ParseInt("-42") == Some(-42) && IntToString(-42) == "-42"
  {
    assert "-42"[1..] == "42" && "42"[..1] == "4";
    assert NatToString(42) == NatToString(4) + [Digit(2)];
  }

  /** No digits, or a character that is not a digit, is rejected. */
  lemma ParseIntRejects()
    ensures ParseInt("") == None && ParseInt("+") == None && ParseInt("-") == None
    ensures ParseInt("abc") == None && ParseInt("4x") == None
  {
    assert !IsDigit("abc"[0]);
    assert !IsDigit("4x"[1]);
  }
}
