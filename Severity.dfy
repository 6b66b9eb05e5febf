/** OnmsSeverity: a numeric severity code, given as text, resolved to its OpenNMS name. */
module Severity {
  import opened Outcomes
  import opened JavaInteger
  import C = Constants

  const UNDEF: int := 0
  const INDETERMINATE: int := 1
  const CLEARED: int := 2
  const NORMAL: int := 3
  const WARNING: int := 4
  const MINOR: int := 5
  const MAJOR: int := 6
  const CRITICAL: int := 7

  /** The eight severity names, indexed by their code: the reference table. */
  const Names: seq<string> := [
    C.SEVERITY_UNDEF, C.SEVERITY_INDETERMINATE, C.SEVERITY_CLEARED, C.SEVERITY_NORMAL,
    C.SEVERITY_WARNING, C.SEVERITY_MINOR, C.SEVERITY_MAJOR, C.SEVERITY_CRITICAL]

  predicate IsCode(n: int) { UNDEF <= n <= CRITICAL }

  /**
   * resolvSeverity: parse the text as Integer.parseInt does, reject a value
   * outside 0..7, and map the code through the switch. Every failure is a
   * ParameterException (a NumberFormatException is caught and rethrown as one).
   */
  function ResolvSeverity(s: string): (r: Result<string>)
    ensures r.Ok? <==> ParseInt(s).Some? && IsCode(ParseInt(s).value)
    ensures r.Ok? ==> r.value == Names[ParseInt(s).value]
    ensures r.Ok? ==> r.value in Names
    ensures r.Fail? ==> r.error == ParameterException
  {
    match ParseInt(s)
    case None => Fail(ParameterException)
    case Some(sevInt) =>
      if !(sevInt >= UNDEF && sevInt <= CRITICAL) then Fail(ParameterException)
      else
        Ok(match sevInt
           case 0 => C.SEVERITY_UNDEF
           case 1 => C.SEVERITY_INDETERMINATE
           case 2 => C.SEVERITY_CLEARED
           case 3 => C.SEVERITY_NORMAL
           case 4 => C.SEVERITY_WARNING
           case 5 => C.SEVERITY_MINOR
           case 6 => C.SEVERITY_MAJOR
           case 7 => C.SEVERITY_CRITICAL
           case _ => C.SEVERITY_UNDEF)
  }

  /** Each code 0..7, written as Integer.toString would write it, gives its name. */
  lemma ResolvTable(code: int)
    requires IsCode(code)
    ensures ResolvSeverity(IntToString(code)) == Ok(Names[code])
  {
    ParseIntToString(code);
  }

  /** A single digit 0..7 gives the name at that code. */
  lemma ResolvDigit(c: char)
    requires IsDigit(c) && DigitValue(c) <= CRITICAL
    ensures ResolvSeverity([c]) == Ok(Names[DigitValue(c)])
  {
    ParseDigit(c);
  }

  /** The table in full. */
  lemma ResolvNames()
    ensures ResolvSeverity("0") == Ok("undef")
    ensures ResolvSeverity("1") == Ok("Indeterminate")
    ensures ResolvSeverity("2") == Ok("Cleared")
    ensures ResolvSeverity("3") == Ok("Normal")
    ensures ResolvSeverity("4") == Ok("Warning")
    ensures ResolvSeverity("5") == Ok("Minor")
    ensures ResolvSeverity("6") == Ok("Major")
    ensures ResolvSeverity("7") == Ok("Critical")
  {
    ResolvDigit('0'); assert "0" == ['0'];
    ResolvDigit('1'); assert "1" == ['1'];
    ResolvDigit('2'); assert "2" == ['2'];
    ResolvDigit('3'); assert "3" == ['3'];
    ResolvDigit('4'); assert "4" == ['4'];
    ResolvDigit('5'); assert "5" == ['5'];
    ResolvDigit('6'); assert "6" == ['6'];
    ResolvDigit('7'); assert "7" == ['7'];
  }

  /** Acceptance depends only on the parsed value: "+3", "03" and "3" are all Normal. */
  lemma ResolvByValue(s: string, t: string)
    requires ParseInt(s) == ParseInt(t)
    ensures ResolvSeverity(s) == ResolvSeverity(t)
  {
  }

  lemma ResolvSignAndZeros()
    ensures ResolvSeverity("+3") == Ok(C.SEVERITY_NORMAL)
    ensures ResolvSeverity("03") == Ok(C.SEVERITY_NORMAL)
    ensures ResolvSeverity("3") == Ok(C.SEVERITY_NORMAL)
  {
    ParseDigit('3');
    assert "+3" == ['+', '3'] && "03" == ['0', '3'];
  }

  /** An integer outside 0..7 is refused, and so is text parseInt refuses. */
  lemma ResolvRejects(s: string)
    requires ParseInt(s).None? || !IsCode(ParseInt(s).value)
    ensures ResolvSeverity(s) == Fail(ParameterException)
  {
  }

  lemma ResolvOutOfRange()
    ensures ResolvSeverity("8") == Fail(ParameterException)
    ensures ResolvSeverity("-1") == Fail(ParameterException)
    ensures ResolvSeverity("three") == Fail(ParameterException)
  {
    assert "-1"[1..] == "1";
    assert !IsDigit("three"[0]);
  }

  /**
   * Distinct codes give distinct names, and neither the initial "0" of the
   * local variable nor anything outside the table is ever returned.
   */
  lemma ResolvInjective(s: string, t: string)
    requires ResolvSeverity(s).Ok? && ResolvSeverity(t).Ok?
    requires ParseInt(s) != ParseInt(t)
    ensures ResolvSeverity(s).value != ResolvSeverity(t).value
  {
    var a, b := ParseInt(s).value, ParseInt(t).value;
    assert Names[a] != Names[b] by {
      NamesDistinct(a, b);
    }
  }

  lemma NamesDistinct(a: int, b: int)
    requires IsCode(a) && IsCode(b) && a != b
    ensures Names[a] != Names[b]
  {
    assert |Names[0]| == 5 && Names[0][0] == 'u';
  }

  lemma ResolvNeverZero(s: string)
    requires ResolvSeverity(s).Ok?
    ensures ResolvSeverity(s).value != "0"
  {
    assert "0" !in Names by {
      forall k | 0 <= k < |Names| ensures Names[k] != "0" {
        assert |Names[k]| != 1;
      }
    }
  }
}
