/**
 * ArgumentMap: the command-line tokens read into the argument map (a
 * HashMap from switch to value) and the map of user event parameters.
 */
module Arguments {
  import opened Outcomes
  import opened JavaInteger
  import C = Constants

  /** The argument map; `None` is the null the lexer stores for "-p". */
  type Args = map<string, Option<string>>

  /** What the lexer has read so far: the argument map and the event parameters. */
  datatype Lexed = Lexed(args: Args, parms: map<string, string>)

  /** The constructor seeds the host and the Eventd port before reading any token. */
  function Defaults(): (d: Lexed)
    ensures d.args == map[C.PARM_HOST := Some(C.DEFAULT_OPENNMS_SERVER), C.PARM_PORT_EVENTD := Some("5817")]
    ensures d.parms == map[]
  {
    var port := IntToString(C.DEFAULT_EVENT_PORT);
    assert port == "5817" by {
      assert NatToString(5817) == NatToString(581) + ['7'];
      assert NatToString(581) == NatToString(58) + ['1'];
      assert NatToString(58) == NatToString(5) + ['8'];
    }
    Lexed(map[C.PARM_HOST := Some(C.DEFAULT_OPENNMS_SERVER), C.PARM_PORT_EVENTD := Some(port)], map[])
  }

  /**
   * The lexer on the tokens not yet read. "-v" takes no value and stores "";
   * "-p" stores null, puts the next two tokens into the parameters, and moves
   * on by ONE token only, so the parameter's key and value are read again as
   * an ordinary switch and its value; any other token is a switch that takes
   * the next token as its value. A missing token makes the lexer exit.
   */
  function Lex(rest: seq<string>, st: Lexed): (r: Result<Lexed>)
    ensures r.Fail? ==> r.error == ArgumentsNotCorrect
  {
    if rest == [] then Ok(st)
    else if rest[0] == C.PARM_VERBOSE then
      Lex(rest[1..], st.(args := st.args[rest[0] := Some("")]))
    else if rest[0] == C.PARM_ARG then
      if |rest| < 3 then Fail(ArgumentsNotCorrect)
      else Lex(rest[1..], Lexed(st.args[rest[0] := None], st.parms[rest[1] := rest[2]]))
    else
      if |rest| < 2 then Fail(ArgumentsNotCorrect)
      else Lex(rest[2..], st.(args := st.args[rest[0] := Some(rest[1])]))
  }

  /** checkArguments: "-i" and then "-u" must be present. */
  function Check(args: Args): (o: Outcome)
    ensures o == Pass <==> C.PARM_INTERFACE in args && C.PARM_UEI in args
    ensures o.Failed? ==> o.error == ParameterException
  {
    if C.PARM_INTERFACE !in args then Failed(ParameterException)
    else if C.PARM_UEI !in args then Failed(ParameterException)
    else Pass
  }

  /**
   * The shape every map the lexer builds from the defaults has: host and port
   * are present, only "-p" holds null, "-v" holds "", and "-p" is present
   * only together with at least one parameter.
   */
  predicate WellFormed(st: Lexed)
  {
    && C.PARM_HOST in st.args && C.PARM_PORT_EVENTD in st.args
    && (forall k :: k in st.args ==> (st.args[k].None? <==> k == C.PARM_ARG))
    && (C.PARM_VERBOSE in st.args ==> st.args[C.PARM_VERBOSE] == Some(""))
    && (C.PARM_ARG in st.args <==> st.parms != map[])
  }

  // ----- Properties of the lexer -----

  /** Lexing keeps the shape above. */
  lemma {:induction false} LexWellFormed(rest: seq<string>, st: Lexed)
    requires WellFormed(st) && Lex(rest, st).Ok?
    ensures WellFormed(Lex(rest, st).value)
  {
    if rest == [] {
    } else if rest[0] == C.PARM_VERBOSE {
      LexWellFormed(rest[1..], st.(args := st.args[rest[0] := Some("")]));
    } else if rest[0] == C.PARM_ARG {
      assert rest[1] in st.parms[rest[1] := rest[2]];
      LexWellFormed(rest[1..], Lexed(st.args[rest[0] := None], st.parms[rest[1] := rest[2]]));
    } else {
      LexWellFormed(rest[2..], st.(args := st.args[rest[0] := Some(rest[1])]));
    }
  }

  /** Reading two token lists in a row is reading them one after the other. */
  lemma {:induction false} LexAppend(a: seq<string>, b: seq<string>, st: Lexed)
    requires Lex(a, st).Ok?
    ensures Lex(a + b, st) == Lex(b, Lex(a, st).value)
  {
    if a == [] {
      assert a + b == b;
    } else if a[0] == C.PARM_VERBOSE {
      assert (a + b)[1..] == a[1..] + b;
      LexAppend(a[1..], b, st.(args := st.args[a[0] := Some("")]));
    } else if a[0] == C.PARM_ARG {
      assert (a + b)[1..] == a[1..] + b;
      LexAppend(a[1..], b, Lexed(st.args[a[0] := None], st.parms[a[1] := a[2]]));
    } else {
      assert (a + b)[2..] == a[2..] + b;
      LexAppend(a[2..], b, st.(args := st.args[a[0] := Some(a[1])]));
    }
  }

  /** A switch read again keeps the last value, whatever it held before (defaults included). */
  lemma LastValueWins(a: seq<string>, key: string, value: string, st: Lexed)
    requires Lex(a, st).Ok? && key != C.PARM_VERBOSE && key != C.PARM_ARG
    ensures Lex(a + [key, value], st) == Ok(Lex(a, st).value.(args := Lex(a, st).value.args[key := Some(value)]))
  {
    LexAppend(a, [key, value], st);
    assert [key, value][2..] == [];
  }

  /** "-v" consumes no value and stores "". */
  lemma VerboseFlag(a: seq<string>, st: Lexed)
    requires Lex(a, st).Ok?
    ensures Lex(a + [C.PARM_VERBOSE], st) == Ok(Lex(a, st).value.(args := Lex(a, st).value.args[C.PARM_VERBOSE := Some("")]))
  {
    LexAppend(a, [C.PARM_VERBOSE], st);
    assert [C.PARM_VERBOSE][1..] == [];
  }

  /**
   * "-p k v": "-p" is stored with null, parms[k] = v, and then k and v are
   * read again as a switch and its value.
   */
  lemma ParameterReadTwice(a: seq<string>, key: string, value: string, st: Lexed)
    requires Lex(a, st).Ok? && key != C.PARM_VERBOSE && key != C.PARM_ARG
    ensures var s1 := Lex(a, st).value;
      Lex(a + [C.PARM_ARG, key, value], st) ==
        Ok(Lexed(s1.args[C.PARM_ARG := None][key := Some(value)], s1.parms[key := value]))
  {
    LexAppend(a, [C.PARM_ARG, key, value], st);
    var s1 := Lex(a, st).value;
    var t := [C.PARM_ARG, key, value];
    var s2 := Lexed(s1.args[C.PARM_ARG := None], s1.parms[key := value]);
    assert t[1..] == [key, value] && [key, value][2..] == [];
    assert Lex(t, s1) == Lex([key, value], s2);
    assert Lex([key, value], s2) == Lex([], s2.(args := s2.args[key := Some(value)]));
  }

  /** A switch without a following token, or "-p" with fewer than two, makes lexing fail. */
  lemma MissingOperand(a: seq<string>, key: string, x: string, st: Lexed)
    requires Lex(a, st).Ok? && key != C.PARM_VERBOSE
    ensures Lex(a + [key], st) == Fail(ArgumentsNotCorrect)
    ensures Lex(a + [C.PARM_ARG, x], st) == Fail(ArgumentsNotCorrect)
  {
    LexAppend(a, [key], st);
    LexAppend(a, [C.PARM_ARG, x], st);
  }

  /** How far the loop's index moves past the token at `i`: one for "-v" and "-p", two otherwise. */
  function Width(arg: seq<string>, i: nat): nat
    requires i < |arg|
  {
    if arg[i] == C.PARM_VERBOSE || arg[i] == C.PARM_ARG then 1 else 2
  }

  /** The indices the loop reads a switch at, starting from `i`, in order. */
  function Visited(arg: seq<string>, i: nat): (r: seq<nat>)
    ensures forall k :: 0 <= k < |r| ==> i <= r[k] < |arg|
    decreases |arg| - i
  {
    if i >= |arg| then [] else [i] + Visited(arg, i + Width(arg, i))
  }

  /** The switch at `i` lacks an operand: "-p" needs two more tokens, any switch but "-v" one. */
  predicate MissingOperandAt(arg: seq<string>, i: nat)
  {
    && i < |arg|
    && (if arg[i] == C.PARM_ARG then i + 2 >= |arg|
        else arg[i] != C.PARM_VERBOSE && i + 1 >= |arg|)
  }

  /**
   * Lexing fails exactly when one of the positions the loop reads holds a
   * switch without its operand, whatever the map held before.
   */
  lemma {:induction false} LexFails(arg: seq<string>, i: nat, st: Lexed)
    requires i <= |arg|
    ensures Lex(arg[i..], st).Fail? <==> exists j :: j in Visited(arg, i) && MissingOperandAt(arg, j)
    decreases |arg| - i
  {
    var v := Visited(arg, i);
    if i == |arg| {
      assert arg[i..] == [];
    } else {
      var rest := arg[i..];
      assert rest[0] == arg[i];
      var next := i + Width(arg, i);
      assert v == [i] + Visited(arg, next);
      if MissingOperandAt(arg, i) {
        assert i in v;
      } else {
        assert next <= |arg|;
        assert rest[Width(arg, i)..] == arg[next..];
        var st' := if arg[i] == C.PARM_VERBOSE then st.(args := st.args[arg[i] := Some("")])
                   else if arg[i] == C.PARM_ARG then Lexed(st.args[arg[i] := None], st.parms[arg[i + 1] := arg[i + 2]])
                   else st.(args := st.args[arg[i] := Some(arg[i + 1])]);
        assert Lex(rest, st) == Lex(arg[next..], st');
        LexFails(arg, next, st');
        assert forall j :: j in v && j != i ==> j in Visited(arg, next);
      }
    }
  }

  /** A string that never occurs among the tokens keeps its entry, or its absence, untouched. */
  lemma {:induction false} LexUntouched(rest: seq<string>, st: Lexed, k: string)
    requires Lex(rest, st).Ok? && k !in rest
    ensures k in Lex(rest, st).value.args <==> k in st.args
    ensures k in st.args ==> Lex(rest, st).value.args[k] == st.args[k]
  {
    if rest == [] {
    } else if rest[0] == C.PARM_VERBOSE {
      LexUntouched(rest[1..], st.(args := st.args[rest[0] := Some("")]), k);
    } else if rest[0] == C.PARM_ARG {
      LexUntouched(rest[1..], Lexed(st.args[rest[0] := None], st.parms[rest[1] := rest[2]]), k);
    } else {
      assert rest[0] in rest;
      LexUntouched(rest[2..], st.(args := st.args[rest[0] := Some(rest[1])]), k);
    }
  }

  /** Unless "-h" or "-t" occurs among the tokens, the default host and port are kept. */
  lemma DefaultsKept(arg: seq<string>)
    requires Lex(arg, Defaults()).Ok?
    ensures C.PARM_HOST !in arg ==>
      C.PARM_HOST in Lex(arg, Defaults()).value.args && Lex(arg, Defaults()).value.args[C.PARM_HOST] == Some("localhost")
    ensures C.PARM_PORT_EVENTD !in arg ==>
      C.PARM_PORT_EVENTD in Lex(arg, Defaults()).value.args && Lex(arg, Defaults()).value.args[C.PARM_PORT_EVENTD] == Some("5817")
  {
    if C.PARM_HOST !in arg { LexUntouched(arg, Defaults(), C.PARM_HOST); }
    if C.PARM_PORT_EVENTD !in arg { LexUntouched(arg, Defaults(), C.PARM_PORT_EVENTD); }
  }

  /** A typical command line. */
  lemma LexExample()
    ensures Lex(["-i", "10.0.0.1", "-u", "uei.example/test", "-p", "url", "http://x"], Defaults())
      == Ok(Lexed(map["-h" := Some("localhost"), "-t" := Some("5817"), "-i" := Some("10.0.0.1"),
                      "-u" := Some("uei.example/test"), "-p" := None, "url" := Some("http://x")],
                  map["url" := "http://x"]))
  {
    var arg := ["-i", "10.0.0.1", "-u", "uei.example/test", "-p", "url", "http://x"];
    var d := Defaults();
    var s1 := d.(args := d.args["-i" := Some("10.0.0.1")]);
    var s2 := s1.(args := s1.args["-u" := Some("uei.example/test")]);
    var s3 := Lexed(s2.args["-p" := None], s2.parms["url" := "http://x"]);
    var s4 := s3.(args := s3.args["url" := Some("http://x")]);
    assert arg[2..] == ["-u", "uei.example/test", "-p", "url", "http://x"];
    assert arg[2..][2..] == ["-p", "url", "http://x"];
    assert arg[2..][2..][1..] == ["url", "http://x"];
    assert arg[2..][2..][1..][2..] == [];
    assert Lex(arg, d) == Lex(arg[2..], s1);
    assert Lex(arg[2..], s1) == Lex(arg[2..][2..], s2);
    assert Lex(arg[2..][2..], s2) == Lex(arg[2..][2..][1..], s3);
    assert Lex(arg[2..][2..][1..], s3) == Lex([], s4);
    assert s4.args == map["-h" := Some("localhost"), "-t" := Some("5817"), "-i" := Some("10.0.0.1"),
                      "-u" := Some("uei.example/test"), "-p" := None, "url" := Some("http://x")];
  }

  // ----- The argument map object -----

  class ArgumentMap {
    /** The map this object is (it extends HashMap); `None` is a stored null. */
    var entries: Args
    /** m_onmsEventParms */
    var onmsEventParms: map<string, string>

    function State(): Lexed
      reads this
    {
      Lexed(entries, onmsEventParms)
    }

    /** The first half of the constructor: an empty parameter map and the two defaults. */
    constructor Seeded()
      ensures State() == Defaults()
    {
      onmsEventParms := map[];
      entries := map[C.PARM_HOST := Some(C.DEFAULT_OPENNMS_SERVER)];
      new;
      entries := entries[C.PARM_PORT_EVENTD := Some(IntToString(C.DEFAULT_EVENT_PORT))];
    }

    /**
     * The whole constructor: seed, read the tokens, check the required
     * switches. The lexer's exit and the ParameterException of the check
     * are failures.
     */
    static method Create(arg: seq<string>) returns (r: Result<ArgumentMap>)
      ensures match Lex(arg, Defaults())
        case Fail(e) => r == Fail(e)
        case Ok(st) =>
          match Check(st.args)
          case Failed(e) => r == Fail(e)
          case Pass => r.Ok? && fresh(r.value) && r.value.State() == st
    {
      var m := new ArgumentMap.Seeded();
      var ok := m.Initialize(arg);
      if !ok {
        return Fail(ArgumentsNotCorrect);
      }
      var checked := m.CheckArguments();
      if checked.Failed? {
        return Fail(checked.error);
      }
      return Ok(m);
    }

    /** addArgument: put, replacing an earlier value. */
    method AddArgument(k: string, v: string)
      modifies this
      ensures entries == old(entries)[k := Some(v)] && onmsEventParms == old(onmsEventParms)
    {
      entries := entries[k := Some(v)];
    }

    /** getArgument: ParameterException when absent; a stored null fails on its toString. */
    method GetArgument(k: string) returns (r: Result<string>)
      ensures k !in entries ==> r == Fail(ParameterException)
      ensures k in entries && entries[k].None? ==> r == Fail(NullPointerException)
      ensures k in entries && entries[k].Some? ==> r == Ok(entries[k].value)
    {
      if k !in entries {
        return Fail(ParameterException);
      }
      var v := entries[k];
      if v.None? {
        return Fail(NullPointerException);
      }
      return Ok(v.value);
    }

    /** addOnmsEventParm: an existing key is refused and nothing changes; otherwise it is inserted. */
    method AddOnmsEventParm(k: string, v: string) returns (o: Outcome)
      modifies this
      ensures entries == old(entries)
      ensures k in old(onmsEventParms) ==> o == Failed(ParameterException) && onmsEventParms == old(onmsEventParms)
      ensures k !in old(onmsEventParms) ==> o == Pass && onmsEventParms == old(onmsEventParms)[k := v]
    {
      if k in onmsEventParms {
        return Failed(ParameterException);
      }
      onmsEventParms := onmsEventParms[k := v];
      return Pass;
    }

    /** getOnmsEventParms */
    method GetOnmsEventParms() returns (p: map<string, string>)
      ensures p == onmsEventParms
    {
      p := onmsEventParms;
    }

    /** checkArguments */
    method CheckArguments() returns (o: Outcome)
      ensures o == Check(entries)
    {
      if C.PARM_INTERFACE !in entries {
        return Failed(ParameterException);
      }
      if C.PARM_UEI !in entries {
        return Failed(ParameterException);
      }
      return Pass;
    }

    /**
     * initialize: the index loop over the tokens. It returns false where the
     * source prints "Arguments not correct." and exits.
     */
    method Initialize(arg: seq<string>) returns (ok: bool)
      modifies this
      ensures ok <==> Lex(arg, old(State())).Ok?
      ensures ok ==> State() == Lex(arg, old(State())).value
    {
      var i := 0;
      while i < |arg|
        invariant 0 <= i <= |arg|
        invariant Lex(arg, old(State())) == Lex(arg[i..], State())
      {
        if arg[i] == C.PARM_VERBOSE {
          AddArgument(arg[i], "");
          assert arg[i..][1..] == arg[i + 1..];
        } else if arg[i] == C.PARM_ARG {
          if i + 2 >= |arg| {
            return false;
          }
          entries := entries[arg[i] := None];
          onmsEventParms := onmsEventParms[arg[i + 1] := arg[i + 2]];
          assert arg[i..][1..] == arg[i + 1..];
        } else {
          if i + 1 >= |arg| {
            return false;
          }
          i := i + 1;
          AddArgument(arg[i - 1], arg[i]);
          assert arg[i - 1..][2..] == arg[i + 1..];
        }
        i := i + 1;
      }
      assert arg[i..] == [];
      return true;
    }
  }
}
