# JSendEvent in Dafny

JSendEvent is a command-line tool from OpenNMS. It builds one OpenNMS event as
an XML document from command-line switches and hands it to a sender, which
delivers it to Eventd. This project models the part that decides what that
event contains, and in which order:

- **Severity resolution** (`OnmsSeverity.resolvSeverity`), in `Severity.dfy`.
  A numeric code given as text is parsed as `Integer.parseInt` parses it
  (`JavaInteger.dfy`). It is then mapped to one of the eight OpenNMS severity
  names, or fails with a `ParameterException`. It is a pure function, so
  equal inputs always give equal results.
- **The event document** (`OnmsEventXml`), in `EventXml.dfy`.
  - The DOM tree is modelled as `Node` values.
  - `EventState` holds the children of `event` and the position of the lazily
    created `parms` element (the source's `m_tag_parms`, `None` while null).
  - Every setter and `addParm` is a function on states. The predicate `Wf`
    is the invariant those functions keep: six text-only fixed children first,
    then appended text-only elements and at most one `parms` element.
  - The class `OnmsEventXml` holds the same two fields. Its methods change them
    in place and are proved against those functions.
- **The argument map** (`ArgumentMap`), in `Arguments.dfy`.
  - `Lex` describes the token loop: the seeded defaults, the value-less `-v`,
    the `-p key value` form that moves on by one token only, and the exit on a
    missing operand.
  - `Check` describes `checkArguments`.
  - The class `ArgumentMap` runs the index loop and is proved equal to `Lex`.
- **Event building and the run** (`Controller.initialize` and `main`), in `Controller.dfy`.
  - `Build` describes `initialize` on states: the guarded setter calls in
    source order, then one `addParm` per parameter.
  - The method `Initialize` drives a fresh `OnmsEventXml` through the same
    calls, split into the helper methods `SetFields`, `SetToNodeId`,
    `SetFromInterface`, `SetFromSeverity` and `AddParms`. It is proved to
    produce `Build`'s state.
  - `RunSpec` and the method `Run` describe `main` up to the point where the
    destination and the document go to the sender.

Java's `null` is `Option.None`. An exception, or a `System.exit` after an
error, is a `Fail`/`Failed` value carrying the kind of error. Tag names,
switches, severity names and defaults are the constants of
`JSendEventConstants.java`, in `Constants.dfy`.

## Model

| member | source | states |
|---|---|---|
| JavaInteger.ParseInt | JSendEvent/src/org/opennms/jsendevent/utils/OnmsEventXml.java:222 | A value `Integer.parseInt` returns always lies in the 32-bit range. Its syntax is stated by `ParseIntSyntax`, `ParseIntAccepts` and `ParseIntNonDigit`. |
| JavaInteger.ParseIntSyntax | JSendEvent/src/org/opennms/jsendevent/utils/OnmsEventXml.java:222 | Whatever parses is an optional sign followed by at least one decimal digit. Its value is the digits read in decimal, negated after a minus sign. |
| JavaInteger.ParseIntAccepts | JSendEvent/src/org/opennms/jsendevent/utils/OnmsEventXml.java:222 | Conversely, an optional sign followed by digits parses to its signed value whenever that value fits in 32 bits. |
| JavaInteger.ParseIntNonDigit | JSendEvent/src/org/opennms/jsendevent/utils/OnmsSeverity.java:82 | A character that is not a digit, at any position other than a leading sign, makes parsing fail. |
| JavaInteger.IntToString | JSendEvent/src/org/opennms/jsendevent/utils/OnmsEventXml.java:223 | `Integer.toString` writes canonical text (no leading zero, no "-0"), starting with a minus sign exactly for negative values. `ParseIntToString` and `CanonicalRoundTrip` pair it with `parseInt`. |
| JavaInteger.NatToString | JSendEvent/src/org/opennms/jsendevent/utils/OnmsEventXml.java:223 | The decimal form of a natural number is non-empty, all digits, has no leading zero, and reads back to the number. |
| JavaInteger.ParseIntToString | JSendEvent/src/org/opennms/jsendevent/utils/OnmsEventXml.java:222-223 | For every 32-bit value, `parseInt` reads back what `toString` writes, and the written form is canonical. |
| JavaInteger.CanonicalRoundTrip | JSendEvent/src/org/opennms/jsendevent/utils/OnmsEventXml.java:222-223 | A canonical string that parses is exactly what `toString` prints for the parsed value. |
| JavaInteger.ParseDigit | JSendEvent/src/org/opennms/jsendevent/utils/OnmsSeverity.java:82 | A single digit, or the digit after "+" or "0", parses to its value. |
| JavaInteger.ParseIntDropsZerosAndSign | JSendEvent/src/org/opennms/jsendevent/utils/OnmsEventXml.java:222-223 | "007" and "+7" both parse to 7, which is written back as "7". |
| JavaInteger.ParseIntNegative | JSendEvent/src/org/opennms/jsendevent/utils/OnmsEventXml.java:222-223 | "-42" parses to -42 and is written back unchanged. |
| JavaInteger.ParseIntRejects | JSendEvent/src/org/opennms/jsendevent/utils/OnmsSeverity.java:82 | The examples "", "+", "-", "abc" and "4x" are refused. |
| Severity.ResolvSeverity | JSendEvent/src/org/opennms/jsendevent/utils/OnmsSeverity.java:76-127 | Succeeds exactly when the text parses to a code in 0..7. The name is then the table entry for the code, and always one of the eight names. Every failure is a ParameterException. |
| Severity.ResolvTable | JSendEvent/src/org/opennms/jsendevent/utils/OnmsSeverity.java:92-117 | Every code 0..7, written in decimal, resolves to its table name. |
| Severity.ResolvDigit | JSendEvent/src/org/opennms/jsendevent/utils/OnmsSeverity.java:82-117 | A single digit 0..7 resolves to the name at that code. |
| Severity.ResolvNames | JSendEvent/src/org/opennms/jsendevent/utils/OnmsSeverity.java:92-117 | "0".."7" give undef, Indeterminate, Cleared, Normal, Warning, Minor, Major, Critical. |
| Severity.ResolvByValue | JSendEvent/src/org/opennms/jsendevent/utils/OnmsSeverity.java:82-104 | Two texts that parse to the same value resolve alike. |
| Severity.ResolvSignAndZeros | JSendEvent/src/org/opennms/jsendevent/utils/OnmsSeverity.java:82-104 | "+3", "03" and "3" all resolve to Normal. |
| Severity.ResolvRejects | JSendEvent/src/org/opennms/jsendevent/utils/OnmsSeverity.java:82-125 | Text that does not parse, or parses outside 0..7, fails with ParameterException. |
| Severity.ResolvOutOfRange | JSendEvent/src/org/opennms/jsendevent/utils/OnmsSeverity.java:85-89 | "8", "-1" and "three" are refused. |
| Severity.ResolvInjective | JSendEvent/src/org/opennms/jsendevent/utils/OnmsSeverity.java:92-121 | Texts with different parsed codes resolve to different names. |
| Severity.ResolvNeverZero | JSendEvent/src/org/opennms/jsendevent/utils/OnmsSeverity.java:78 | The initial "0" of the local variable is never returned. |
| EventXml.WithText | JSendEvent/src/org/opennms/jsendevent/utils/OnmsEventXml.java:157 | `setTextContent` keeps tag and attributes, the text content becomes the given text, and at most one text node remains. |
| EventXml.Parm | JSendEvent/src/org/opennms/jsendevent/utils/OnmsEventXml.java:332-349 | A parm is parmName(CDATA key) then value(type="string", encoding="text", CDATA value). The CDATA holds the value, not the placeholder "value". |
| EventXml.Parms | JSendEvent/src/org/opennms/jsendevent/utils/OnmsEventXml.java:332-360 | One parm element per entry, in entry order. |
| EventXml.Initial | JSendEvent/src/org/opennms/jsendevent/utils/OnmsEventXml.java:138-177 | The constructor's children are uei, source, nodeid, time, host and interface, in that order. Source holds "jsendevent" and time holds the given string; the others are empty. There is no `parms`. |
| EventXml.SetText | JSendEvent/src/org/opennms/jsendevent/utils/OnmsEventXml.java:186-235 | Overwriting a fixed child sets only its text. The child count, its tag and every other child stay the same. |
| EventXml.Append | JSendEvent/src/org/opennms/jsendevent/utils/OnmsEventXml.java:243-310 | An appending setter adds one element with its tag and text after all existing children. The earlier children and the parms are unchanged. |
| EventXml.WithNodeId | JSendEvent/src/org/opennms/jsendevent/utils/OnmsEventXml.java:220-224 | Fails with NumberFormatException exactly when `parseInt` fails, and then nothing changes. Otherwise nodeid gets the decimal form of the parsed value. |
| EventXml.WithSeverity | JSendEvent/src/org/opennms/jsendevent/utils/OnmsEventXml.java:275-282 | Succeeds exactly when the severity resolves, appending one severity element with the name. A failed resolution appends nothing. |
| EventXml.WithParm | JSendEvent/src/org/opennms/jsendevent/utils/OnmsEventXml.java:330-361 | The parm list grows by one parm at its end. The first call appends `parms` after the existing children; later calls move no child. |
| EventXml.WithParms | JSendEvent/src/org/opennms/jsendevent/utils/OnmsEventXml.java:330-361 | A sequence of addParm calls keeps the document invariant. |
| EventXml.NodeIdCanonical | JSendEvent/src/org/opennms/jsendevent/utils/OnmsEventXml.java:220-224 | The stored node id is canonical and parses to the same number as the input ("007" is stored as "7"). |
| EventXml.DocumentOf | JSendEvent/src/org/opennms/jsendevent/utils/OnmsEventXml.java:138-169 | The document is the constructor's skeleton `log > events > event`, and its `event` element holds exactly the event's children. |
| EventXml.OnmsEventXml.EventDoc | JSendEvent/src/org/opennms/jsendevent/utils/OnmsEventXml.java:317-320 | `getEventDoc` returns the skeleton document whose `event` element holds this object's current children. |
| EventXml.CountParms | JSendEvent/src/org/opennms/jsendevent/utils/OnmsEventXml.java:351-360 | Under the invariant there is one `parms` child once it was created, and none before. |
| EventXml.AppendTwice | JSendEvent/src/org/opennms/jsendevent/utils/OnmsEventXml.java:243-310 | Calling an appending setter twice yields two siblings with the tag, in call order, after the old children. |
| EventXml.WithParmsLayout | JSendEvent/src/org/opennms/jsendevent/utils/OnmsEventXml.java:351-360 | After N >= 1 addParm calls there is exactly one `parms` child. It sits where the child list ended and holds the N parms in call order. |
| EventXml.WithParmsOrder | JSendEvent/src/org/opennms/jsendevent/utils/OnmsEventXml.java:330-360 | The parm list grows by the added entries, in call order. |
| EventXml.OnmsEventXml.constructor | JSendEvent/src/org/opennms/jsendevent/utils/OnmsEventXml.java:112-178 | The new document is the constructor layout with the given time. |
| EventXml.OnmsEventXml.SetUei | JSendEvent/src/org/opennms/jsendevent/utils/OnmsEventXml.java:186-189 | The new state is the old one with uei's text overwritten. |
| EventXml.OnmsEventXml.SetSource | JSendEvent/src/org/opennms/jsendevent/utils/OnmsEventXml.java:197-200 | The new state is the old one with source's text overwritten. |
| EventXml.OnmsEventXml.SetInterface | JSendEvent/src/org/opennms/jsendevent/utils/OnmsEventXml.java:207-210 | The new state is the old one with interface's text overwritten. |
| EventXml.OnmsEventXml.SetNodeId | JSendEvent/src/org/opennms/jsendevent/utils/OnmsEventXml.java:220-224 | The state becomes `WithNodeId`'s result. On NumberFormatException it is left as it was. |
| EventXml.OnmsEventXml.SetTime | JSendEvent/src/org/opennms/jsendevent/utils/OnmsEventXml.java:232-235 | The new state is the old one with time's text overwritten. |
| EventXml.OnmsEventXml.SetHost | JSendEvent/src/org/opennms/jsendevent/utils/OnmsEventXml.java:243-249 | A second host element is appended; the constructor's empty one is not filled. |
| EventXml.OnmsEventXml.SetService | JSendEvent/src/org/opennms/jsendevent/utils/OnmsEventXml.java:257-263 | One service element is appended. |
| EventXml.OnmsEventXml.SetSeverity | JSendEvent/src/org/opennms/jsendevent/utils/OnmsEventXml.java:275-282 | The state becomes `WithSeverity`'s result. On a failed resolution nothing is appended. |
| EventXml.OnmsEventXml.SetDescription | JSendEvent/src/org/opennms/jsendevent/utils/OnmsEventXml.java:290-296 | One descr element is appended. |
| EventXml.OnmsEventXml.SetOperinstruct | JSendEvent/src/org/opennms/jsendevent/utils/OnmsEventXml.java:304-310 | One operinstruct element is appended. |
| EventXml.OnmsEventXml.AddParm | JSendEvent/src/org/opennms/jsendevent/utils/OnmsEventXml.java:330-361 | The state becomes `WithParm`'s result: the lazy `parms` element is created on the first call, and the parm is appended to it. |
| Arguments.Defaults | JSendEvent/src/org/opennms/jsendevent/utils/ArgumentMap.java:69-73 | Before any token is read, -h is "localhost", -t is "5817" and there are no parameters. |
| Arguments.Lex | JSendEvent/src/org/opennms/jsendevent/utils/ArgumentMap.java:170-196 | Every failure of the loop is the exit after "Arguments not correct."; `LexFails` says exactly when it happens. |
| Arguments.LexFails | JSendEvent/src/org/opennms/jsendevent/utils/ArgumentMap.java:172-195 | Lexing fails exactly when one of the positions the loop reads holds a switch without its operand. "-p" needs two more tokens, every switch but "-v" needs one, and the map's earlier contents play no part. |
| Arguments.Check | JSendEvent/src/org/opennms/jsendevent/utils/ArgumentMap.java:147-160 | Passes exactly when -i and -u are both present; otherwise ParameterException. |
| Arguments.LexWellFormed | JSendEvent/src/org/opennms/jsendevent/utils/ArgumentMap.java:172-195 | Lexing from the defaults keeps -h and -t. Only -p holds null, -v holds "", and -p is present exactly when there are parameters. |
| Arguments.LexAppend | JSendEvent/src/org/opennms/jsendevent/utils/ArgumentMap.java:172-195 | Lexing two token lists in a row is lexing their concatenation. |
| Arguments.LastValueWins | JSendEvent/src/org/opennms/jsendevent/utils/ArgumentMap.java:186-188 | An ordinary switch consumes the next token as its value. A repeated switch keeps the last value, defaults included. |
| Arguments.VerboseFlag | JSendEvent/src/org/opennms/jsendevent/utils/ArgumentMap.java:177-179 | -v consumes no value and is stored with "". |
| Arguments.ParameterReadTwice | JSendEvent/src/org/opennms/jsendevent/utils/ArgumentMap.java:180-185 | "-p k v" stores -p with null and parms[k] = v, then reads k and v again as a switch and its value. |
| Arguments.MissingOperand | JSendEvent/src/org/opennms/jsendevent/utils/ArgumentMap.java:184-194 | A final switch without a value, or -p with fewer than two following tokens, makes lexing fail. |
| Arguments.LexUntouched | JSendEvent/src/org/opennms/jsendevent/utils/ArgumentMap.java:172-195 | A string that is not among the tokens keeps its entry, or its absence. |
| Arguments.DefaultsKept | JSendEvent/src/org/opennms/jsendevent/utils/ArgumentMap.java:69-74 | Unless -h or -t occurs among the tokens, its default survives lexing. |
| Arguments.LexExample | JSendEvent/src/org/opennms/jsendevent/utils/ArgumentMap.java:170-196 | A typical command line with -i, -u and one -p gives the expected two maps. |
| Arguments.ArgumentMap.Seeded | JSendEvent/src/org/opennms/jsendevent/utils/ArgumentMap.java:69-73 | The map starts as the defaults. |
| Arguments.ArgumentMap.Create | JSendEvent/src/org/opennms/jsendevent/utils/ArgumentMap.java:67-76 | The constructor fails as `Lex` fails, then as `Check` fails. Otherwise it yields a new map whose contents are what `Lex` produced. |
| Arguments.ArgumentMap.AddArgument | JSendEvent/src/org/opennms/jsendevent/utils/ArgumentMap.java:88-91 | Puts the value, replacing an earlier one; the parameters are untouched. |
| Arguments.ArgumentMap.GetArgument | JSendEvent/src/org/opennms/jsendevent/utils/ArgumentMap.java:102-109 | An absent key gives ParameterException and a stored null gives NullPointerException. Otherwise the stored value is returned. |
| Arguments.ArgumentMap.AddOnmsEventParm | JSendEvent/src/org/opennms/jsendevent/utils/ArgumentMap.java:121-129 | An existing key is refused with ParameterException and nothing changes; otherwise it is inserted. |
| Arguments.ArgumentMap.GetOnmsEventParms | JSendEvent/src/org/opennms/jsendevent/utils/ArgumentMap.java:136-139 | Returns the parameter map. |
| Arguments.ArgumentMap.CheckArguments | JSendEvent/src/org/opennms/jsendevent/utils/ArgumentMap.java:147-160 | The outcome is `Check` of the current map. |
| Arguments.ArgumentMap.Initialize | JSendEvent/src/org/opennms/jsendevent/utils/ArgumentMap.java:170-196 | The index loop reports success exactly when `Lex` succeeds, and then leaves the maps `Lex` produces. |
| Controller.GuardedText | JSendEvent/src/org/opennms/jsendevent/Controller.java:184-190 | An overwriting setter behind its switch keeps the document invariant and the parms position. |
| Controller.GuardedAppend | JSendEvent/src/org/opennms/jsendevent/Controller.java:168-174 | An appending setter behind its switch keeps the document invariant and the parms position. |
| Controller.GuardedNodeId | JSendEvent/src/org/opennms/jsendevent/Controller.java:176-182 | Fails exactly when -n is present and does not parse, and then with NumberFormatException. |
| Controller.GuardedSeverity | JSendEvent/src/org/opennms/jsendevent/Controller.java:202-221 | Fails exactly when -x is present and does not resolve, and then with ParameterException. |
| Controller.GuardedParms | JSendEvent/src/org/opennms/jsendevent/Controller.java:232-241 | The addParm loop behind -p keeps the document invariant. |
| Controller.Fields | JSendEvent/src/org/opennms/jsendevent/Controller.java:161-230 | The setter calls of initialize keep the invariant and add no `parms`. |
| Controller.FieldsToNodeId | JSendEvent/src/org/opennms/jsendevent/Controller.java:161-182 | setUei, setService and setNodeId keep the invariant and add no `parms`. |
| Controller.FieldsFromInterface | JSendEvent/src/org/opennms/jsendevent/Controller.java:184-230 | setInterface through setOperinstruct keep the invariant and add no `parms`. |
| Controller.FieldsFromSeverity | JSendEvent/src/org/opennms/jsendevent/Controller.java:202-230 | setSeverity and setOperinstruct keep the invariant and add no `parms`. |
| Controller.Build | JSendEvent/src/org/opennms/jsendevent/Controller.java:156-244 | A built event satisfies the document invariant. |
| Controller.BuildFailure | JSendEvent/src/org/opennms/jsendevent/Controller.java:176-221 | initialize fails exactly on an unparsable -n (NumberFormatException, checked first) or an invalid -x (ParameterException). The parameters play no part. |
| Controller.BuildLayout | JSendEvent/src/org/opennms/jsendevent/Controller.java:161-241 | The final children are the six constructor children with uei, nodeid and interface set from their switches. Then come service, descr, severity, operinstruct and parms, each only when its switch was given. |
| Controller.HeadLayout | JSendEvent/src/org/opennms/jsendevent/Controller.java:158-190 | Up to setInterface, the calls leave the fixed children with their texts, plus the service element when -s is given. |
| Controller.TailLayout | JSendEvent/src/org/opennms/jsendevent/Controller.java:192-241 | From setDescription on, the calls only append, in call order. |
| Controller.ParmsStep | JSendEvent/src/org/opennms/jsendevent/Controller.java:232-241 | The addParm loop appends one `parms` element when -p is given with parameters, and nothing otherwise. |
| Controller.TextStep | JSendEvent/src/org/opennms/jsendevent/Controller.java:161-166 | An overwriting setter behind its switch fills the empty child with the switch's text, or leaves it empty. |
| Controller.AppendStep | JSendEvent/src/org/opennms/jsendevent/Controller.java:168-174 | An appending setter behind its switch adds one element when the switch is present, and none otherwise. |
| Controller.NodeIdStep | JSendEvent/src/org/opennms/jsendevent/Controller.java:176-182 | setNodeId behind -n fills the empty nodeid with the canonical form of the parsed value. |
| Controller.SeverityStep | JSendEvent/src/org/opennms/jsendevent/Controller.java:202-221 | setSeverity behind -x appends the resolved severity element, or nothing when -x is absent. |
| Controller.BuildKeepsEmptyHost | JSendEvent/src/org/opennms/jsendevent/Controller.java:156-244 | setHost is never called: the built event has exactly one host element, the constructor's empty one. |
| Controller.LayoutKeepsEmptyHost | JSendEvent/src/org/opennms/jsendevent/Controller.java:156-244 | The child layout of initialize holds one host element, the empty one at its fixed place. |
| Controller.BuildMinimal | JSendEvent/src/org/opennms/jsendevent/Controller.java:156-244 | With no switch beyond -u, -i, -h, -t and -v, the event has exactly the six constructor children. |
| Controller.Initialize | JSendEvent/src/org/opennms/jsendevent/Controller.java:156-244 | Returns a new valid document whose state is `Build` for the map's arguments. The parameter order, recorded ghostly, lists every parameter once when -p is given and none otherwise. Failures are the ones `Build` reports. |
| Controller.SetFields | JSendEvent/src/org/opennms/jsendevent/Controller.java:161-230 | The guarded setter calls leave `Fields`' state, or stop with its error. |
| Controller.SetToNodeId | JSendEvent/src/org/opennms/jsendevent/Controller.java:161-182 | setUei, setService and setNodeId behind their switches leave `FieldsToNodeId`'s state, or stop with its error. |
| Controller.SetFromInterface | JSendEvent/src/org/opennms/jsendevent/Controller.java:184-230 | setInterface through setOperinstruct leave `FieldsFromInterface`'s state, or stop with its error. |
| Controller.SetFromSeverity | JSendEvent/src/org/opennms/jsendevent/Controller.java:202-230 | setSeverity and setOperinstruct leave `FieldsFromSeverity`'s state, or stop with its error. |
| Controller.AddParms | JSendEvent/src/org/opennms/jsendevent/Controller.java:232-241 | One addParm per entry of the parameter map, in the map's iteration order, each entry exactly once. |
| Controller.EnumeratedStep | JSendEvent/src/org/opennms/jsendevent/Controller.java:234-240 | Taking one more key out of the remaining ones and listing it keeps the loop's progress invariant. |
| Controller.EnumeratedAll | JSendEvent/src/org/opennms/jsendevent/Controller.java:234-240 | Once no key remains, the listed entries enumerate the whole map. |
| Controller.Run | JSendEvent/src/org/opennms/jsendevent/Controller.java:92-123 | main ends as `RunSpec` says: help for no arguments, a failure from the argument map or from initialize, or the destination and document handed to the sender. |
| Controller.NoParmSwitchNoParms | JSendEvent/src/org/opennms/jsendevent/utils/ArgumentMap.java:180-185 | Without -p among the lexed switches there are no event parameters. |
| Controller.RunSentEvent | JSendEvent/src/org/opennms/jsendevent/Controller.java:103-123 | What is sent passed lexing and the check (-u and -i present). It is the built document, whose uei and interface hold their values and whose only host element is empty. |
| Controller.RunSentDestination | JSendEvent/src/org/opennms/jsendevent/Controller.java:119-121 | The destination is the lexed -h and -t. Both are always present, and each is its default unless a token names it. |
| Controller.LexedDestination | JSendEvent/src/org/opennms/jsendevent/Controller.java:119-121 | After lexing, -h and -t are present and non-null, and keep their defaults unless they occur among the tokens. |
| Controller.RunInvalidSeverity | JSendEvent/src/org/opennms/jsendevent/Controller.java:202-220 | An invalid severity ends the run with ParameterException, so nothing reaches the sender. |
| Controller.RunChecksFirst | JSendEvent/src/org/opennms/jsendevent/Controller.java:103-117 | A missing -i or -u ends the run before anything is built. |
| Controller.RunExample | JSendEvent/src/org/opennms/jsendevent/Controller.java:92-123 | "-u uei.example/test -i 10.0.0.1" sends the six-child event to localhost:5817. |

## Left out

- OnmsEventSender (`setConnection`, `sendEvent`): DNS lookup, TCP socket and serialisation are network I/O. `Run` ends at handing over host, port and document (`Sent`).
- Logging: log4j, HTMLDateLayout, the Controller constructor's log file (and its exit on IOException), and the `-v` debug level. They produce output only and never touch the event.
- The clock and DateFormat in the OnmsEventXml constructor: the formatted time is the constructor's parameter `time`.
- The DocumentBuilder set-up in the OnmsEventXml constructor and its ParserConfigurationException handler: XML library plumbing.
- `toString`: the text the JAXP Transformer writes is library behaviour. It only reads the document, so the model has no operation for it, and the debug call in initialize that uses it is omitted without changing any state.
- HashMap iteration order: `AddParms` takes the keys in an unspecified order. The ghost result `parms` records that order, and every contract holds whatever it is.
- Exception messages, `System.exit` codes and HELP_TEXT: an error is the kind of exception in an `Error` value, and the help screen is the outcome `Help`.
- Whether ParameterException extends RuntimeException: it only decides which message an out-of-range severity carries, and messages are not modelled.
- JavaInteger.ParseInt: accepts the ASCII digits '0'..'9' only, whereas `Character.digit` inside `Integer.parseInt` also accepts other Unicode decimal digits.
- Controller.Initialize: when a setter fails, the state of the abandoned document is not stated, because the program exits without using it.
- Controller.SetFields, Controller.SetToNodeId, Controller.SetFromInterface, Controller.SetFromSeverity: after a failure only the error is stated, not the state of the document.
