/**
 * Controller: `initialize` drives a fresh event document through the setters
 * in a fixed order, each guarded by its switch; `main` lexes and checks the
 * arguments, builds the event, and hands it to the sender.
 */
module Controller {
  import opened Outcomes
  import opened JavaInteger
  import opened Severity
  import opened EventXml
  import opened Arguments
  import C = Constants

  /** HashMap.get: the stored value, or null for an absent key. */
  function Get(args: Args, k: string): Option<string>
  {
    if k in args then args[k] else None
  }

  /**
   * The text a setter receives. setTextContent(null) and parseInt(null)
   * behave exactly as on "", so a stored null is read as "".
   */
  function Value(v: Option<string>): string
  {
    match v
    case Some(s) => s
    case None => ""
  }

  /** `parms` lists every entry of `m` exactly once, in some order (HashMap iteration order). */
  ghost predicate IsEnumeration(parms: seq<(string, string)>, m: map<string, string>)
  {
    && (forall i, j :: 0 <= i < j < |parms| ==> parms[i].0 != parms[j].0)
    && (forall i :: 0 <= i < |parms| ==> parms[i].0 in m && m[parms[i].0] == parms[i].1)
    && (forall k :: k in m ==> exists i :: 0 <= i < |parms| && parms[i].0 == k)
  }

  // One guarded setter call of initialize each: the setter runs only when its switch is present.

  /** An overwriting setter (setUei, setInterface) behind its switch. */
  function GuardedText(args: Args, k: string, at: nat, st: EventState): (r: EventState)
    requires Wf(st) && at < FIXED
    ensures Wf(r) && r.parmsAt == st.parmsAt
  {
    if k in args then SetText(st, at, Value(args[k])) else st
  }

  /** An appending setter (setService, setDescription, setOperinstruct) behind its switch. */
  function GuardedAppend(args: Args, k: string, tag: string, st: EventState): (r: EventState)
    requires Wf(st) && IsAppendedTag(tag)
    ensures Wf(r) && r.parmsAt == st.parmsAt
  {
    if k in args then Append(st, tag, Value(args[k])) else st
  }

  /** setNodeId behind "-n". */
  function GuardedNodeId(args: Args, st: EventState): (r: Result<EventState>)
    requires Wf(st)
    ensures r.Fail? <==> NodeIdBad(args)
    ensures r.Fail? ==> r.error == NumberFormatException
    ensures r.Ok? ==> Wf(r.value) && r.value.parmsAt == st.parmsAt
  {
    if C.PARM_NODEID in args then WithNodeId(st, Value(args[C.PARM_NODEID])) else Ok(st)
  }

  /** setSeverity behind "-x". */
  function GuardedSeverity(args: Args, st: EventState): (r: Result<EventState>)
    requires Wf(st)
    ensures r.Fail? <==> SeverityBad(args)
    ensures r.Fail? ==> r.error == ParameterException
    ensures r.Ok? ==> Wf(r.value) && r.value.parmsAt == st.parmsAt
  {
    if C.PARM_SEVERITY in args then WithSeverity(st, Value(args[C.PARM_SEVERITY])) else Ok(st)
  }

  /** The addParm loop behind "-p". */
  function GuardedParms(args: Args, parms: seq<(string, string)>, st: EventState): (r: EventState)
    requires Wf(st)
    ensures Wf(r)
  {
    if C.PARM_ARG in args then WithParms(st, parms) else st
  }

  /**
   * The setter calls of initialize, on states: uei, service, nodeid,
   * interface, description, severity, operinstruct, each only when its
   * switch is present. An unparsable node id or an invalid severity ends the
   * sequence.
   */
  function Fields(args: Args, st: EventState): (r: Result<EventState>)
    requires Wf(st)
    ensures r.Ok? ==> Wf(r.value) && r.value.parmsAt == st.parmsAt
  {
    var s3 :- FieldsToNodeId(args, st);
    FieldsFromInterface(args, s3)
  }

  /** setUei, setService, setNodeId. */
  function FieldsToNodeId(args: Args, st: EventState): (r: Result<EventState>)
    requires Wf(st)
    ensures r.Ok? ==> Wf(r.value) && r.value.parmsAt == st.parmsAt
  {
    GuardedNodeId(args, GuardedAppend(args, C.PARM_SERVICE, C.EVENT_XMLTAG_SERVICE,
                          GuardedText(args, C.PARM_UEI, UEI_AT, st)))
  }

  /** setInterface, setDescription, setSeverity, setOperinstruct. */
  function FieldsFromInterface(args: Args, st: EventState): (r: Result<EventState>)
    requires Wf(st)
    ensures r.Ok? ==> Wf(r.value) && r.value.parmsAt == st.parmsAt
  {
    FieldsFromSeverity(args, GuardedAppend(args, C.PARM_DESCRIPTION, C.EVENT_XMLTAG_DESCRIPTION,
                                 GuardedText(args, C.PARM_INTERFACE, INTERFACE_AT, st)))
  }

  /** setSeverity, setOperinstruct. */
  function FieldsFromSeverity(args: Args, st: EventState): (r: Result<EventState>)
    requires Wf(st)
    ensures r.Ok? ==> Wf(r.value) && r.value.parmsAt == st.parmsAt
  {
    var s6 :- GuardedSeverity(args, st);
    Ok(GuardedAppend(args, C.PARM_OPERINSTRUCT, C.EVENT_XMLTAG_OPERINSTRUCT, s6))
  }

  /** initialize, on states: a fresh document, the setter calls, then the parameters in the given order. */
  function Build(args: Args, parms: seq<(string, string)>, time: string): (r: Result<EventState>)
    ensures r.Ok? ==> Wf(r.value)
  {
    var st :- Fields(args, Initial(time));
    Ok(GuardedParms(args, parms, st))
  }

  /** The text of a switch, or "" (the element stays empty) when the switch is absent. */
  function ArgText(args: Args, k: string): string
  {
    if k in args then Value(args[k]) else ""
  }

  /** One element with the switch's text when the switch is present, none otherwise. */
  function Optional(args: Args, k: string, tag: string): seq<Node>
  {
    if k in args then [Leaf(tag, Value(args[k]))] else []
  }

  predicate NodeIdBad(args: Args)
  {
    C.PARM_NODEID in args && ParseInt(Value(args[C.PARM_NODEID])).None?
  }

  predicate SeverityBad(args: Args)
  {
    C.PARM_SEVERITY in args && ResolvSeverity(Value(args[C.PARM_SEVERITY])).Fail?
  }

  /** The node id text: the canonical form of the parsed id, or "" when "-n" is absent. */
  function NodeIdText(args: Args): string
  {
    if C.PARM_NODEID in args && ParseInt(Value(args[C.PARM_NODEID])).Some?
    then IntToString(ParseInt(Value(args[C.PARM_NODEID])).value) else ""
  }

  /** The severity element, holding the resolved name, when "-x" is present and resolves. */
  function SeverityElement(args: Args): seq<Node>
  {
    if C.PARM_SEVERITY in args && ResolvSeverity(Value(args[C.PARM_SEVERITY])).Ok?
    then [Leaf(C.EVENT_XMLTAG_SEVERITY, ResolvSeverity(Value(args[C.PARM_SEVERITY])).value)] else []
  }

  /** The children the constructor made, with the overwritten texts in place. */
  function FixedChildren(args: Args, time: string): seq<Node>
  {
    [Leaf(C.EVENT_XMLTAG_UEI, ArgText(args, C.PARM_UEI)),
     Leaf(C.EVENT_XMLTAG_SOURCE, C.SOURCE_NAME),
     Leaf(C.EVENT_XMLTAG_NODEID, NodeIdText(args)),
     Leaf(C.EVENT_XMLTAG_TIME, time),
     Leaf(C.EVENT_XMLTAG_HOST, ""),
     Leaf(C.EVENT_XMLTAG_INTERFACE, ArgText(args, C.PARM_INTERFACE))]
  }

  /** The tail of children that the appending setters and addParm produce. */
  function AppendedChildren(args: Args, parms: seq<(string, string)>): seq<Node>
  {
    Optional(args, C.PARM_SERVICE, C.EVENT_XMLTAG_SERVICE)
      + Optional(args, C.PARM_DESCRIPTION, C.EVENT_XMLTAG_DESCRIPTION)
      + SeverityElement(args)
      + Optional(args, C.PARM_OPERINSTRUCT, C.EVENT_XMLTAG_OPERINSTRUCT)
      + ParmsTail(args, parms)
  }

  // ----- Properties of initialize -----

  /**
   * initialize fails exactly on an unparsable node id (NumberFormatException,
   * checked first) or an invalid severity (ParameterException); the
   * parameters play no part in it.
   */
  lemma BuildFailure(args: Args, parms: seq<(string, string)>, time: string)
    ensures Build(args, parms, time).Fail? <==> NodeIdBad(args) || SeverityBad(args)
    ensures NodeIdBad(args) ==> Build(args, parms, time) == Fail(NumberFormatException)
    ensures !NodeIdBad(args) && SeverityBad(args) ==> Build(args, parms, time) == Fail(ParameterException)
  {
  }

  /**
   * The final child order: the six constructor children (uei, source, nodeid,
   * time, host, interface) with the texts the switches gave, then service,
   * descr, severity, operinstruct and parms, each present only when its
   * switch was.
   */
  lemma BuildLayout(args: Args, parms: seq<(string, string)>, time: string)
    requires Build(args, parms, time).Ok?
    ensures Build(args, parms, time).value.children == FixedChildren(args, time) + AppendedChildren(args, parms)
  {
    var s2 := GuardedAppend(args, C.PARM_SERVICE, C.EVENT_XMLTAG_SERVICE,
                GuardedText(args, C.PARM_UEI, UEI_AT, Initial(time)));
    var s3 := GuardedNodeId(args, s2).value;
    var s4 := GuardedText(args, C.PARM_INTERFACE, INTERFACE_AT, s3);
    HeadLayout(args, time);
    TailLayout(args, parms, s4);
    Regroup(FixedChildren(args, time), Optional(args, C.PARM_SERVICE, C.EVENT_XMLTAG_SERVICE),
            Optional(args, C.PARM_DESCRIPTION, C.EVENT_XMLTAG_DESCRIPTION), SeverityElement(args),
            Optional(args, C.PARM_OPERINSTRUCT, C.EVENT_XMLTAG_OPERINSTRUCT), ParmsTail(args, parms));
  }

  lemma Regroup(f: seq<Node>, a: seq<Node>, b: seq<Node>, c: seq<Node>, d: seq<Node>, e: seq<Node>)
    ensures f + a + b + c + d + e == f + (a + b + c + d + e)
  {
  }

  /** The `parms` child that a non-empty parameter list under "-p" appends, as a list of at most one. */
  function ParmsTail(args: Args, parms: seq<(string, string)>): seq<Node>
  {
    if C.PARM_ARG in args && parms != [] then [Element(C.EVENT_XMLTAG_PARMS, map[], Parms(parms))] else []
  }

  /** The setters after setInterface only append, in call order. */
  lemma TailLayout(args: Args, parms: seq<(string, string)>, s4: EventState)
    requires Wf(s4) && s4.parmsAt.None?
    requires GuardedSeverity(args, GuardedAppend(args, C.PARM_DESCRIPTION, C.EVENT_XMLTAG_DESCRIPTION, s4)).Ok?
    ensures var s6 := GuardedSeverity(args, GuardedAppend(args, C.PARM_DESCRIPTION, C.EVENT_XMLTAG_DESCRIPTION, s4)).value;
      GuardedParms(args, parms, GuardedAppend(args, C.PARM_OPERINSTRUCT, C.EVENT_XMLTAG_OPERINSTRUCT, s6)).children
      == s4.children + Optional(args, C.PARM_DESCRIPTION, C.EVENT_XMLTAG_DESCRIPTION) + SeverityElement(args)
         + Optional(args, C.PARM_OPERINSTRUCT, C.EVENT_XMLTAG_OPERINSTRUCT) + ParmsTail(args, parms)
  {
    var s5 := GuardedAppend(args, C.PARM_DESCRIPTION, C.EVENT_XMLTAG_DESCRIPTION, s4);
    var s6 := GuardedSeverity(args, s5).value;
    var s7 := GuardedAppend(args, C.PARM_OPERINSTRUCT, C.EVENT_XMLTAG_OPERINSTRUCT, s6);
    AppendStep(args, C.PARM_DESCRIPTION, C.EVENT_XMLTAG_DESCRIPTION, s4);
    SeverityStep(args, s5);
    AppendStep(args, C.PARM_OPERINSTRUCT, C.EVENT_XMLTAG_OPERINSTRUCT, s6);
    ParmsStep(args, parms, s7);
  }

  /** The addParm loop behind "-p", on a document without parameters, appends at most the one `parms` element. */
  lemma ParmsStep(args: Args, parms: seq<(string, string)>, st: EventState)
    requires Wf(st) && st.parmsAt.None?
    ensures GuardedParms(args, parms, st).children == st.children + ParmsTail(args, parms)
  {
    if C.PARM_ARG in args && parms != [] {
      WithParmsLayout(st, parms);
      assert WithParms(st, parms).children == st.children + ParmsTail(args, parms);
    } else if C.PARM_ARG in args {
      assert st.children + ParmsTail(args, parms) == st.children;
    } else {
      assert st.children + ParmsTail(args, parms) == st.children;
    }
  }

  /** An overwriting setter behind its switch, on a child that is still empty. */
  lemma TextStep(args: Args, k: string, at: nat, st: EventState, tag: string)
    requires Wf(st) && at < FIXED && st.children[at] == Leaf(tag, "")
    ensures GuardedText(args, k, at, st).children == st.children[at := Leaf(tag, ArgText(args, k))]
  {
  }

  /** An appending setter behind its switch adds at most one element, at the end. */
  lemma AppendStep(args: Args, k: string, tag: string, st: EventState)
    requires Wf(st) && IsAppendedTag(tag)
    ensures GuardedAppend(args, k, tag, st).children == st.children + Optional(args, k, tag)
  {
  }

  /** setSeverity behind "-x" adds at most one element, at the end. */
  lemma SeverityStep(args: Args, st: EventState)
    requires Wf(st) && GuardedSeverity(args, st).Ok?
    ensures GuardedSeverity(args, st).value.children == st.children + SeverityElement(args)
  {
  }

  /** setNodeId behind "-n", on a node id child that is still empty. */
  lemma NodeIdStep(args: Args, st: EventState)
    requires Wf(st) && st.children[NODEID_AT] == Leaf(C.EVENT_XMLTAG_NODEID, "")
    requires GuardedNodeId(args, st).Ok?
    ensures GuardedNodeId(args, st).value.children == st.children[NODEID_AT := Leaf(C.EVENT_XMLTAG_NODEID, NodeIdText(args))]
  {
  }
  /** The sequence steps of HeadLayout: three overwrites around one append. */
  lemma UpdatesAroundAppend(a: seq<Node>, svc: seq<Node>, u: Node, n: Node, i: Node, c1: seq<Node>, c3: seq<Node>)
    requires |a| == FIXED
    requires c1 == a[UEI_AT := u] && c3 == (c1 + svc)[NODEID_AT := n]
    ensures c3[INTERFACE_AT := i] == a[UEI_AT := u][NODEID_AT := n][INTERFACE_AT := i] + svc
  {
    assert c3 == c1[NODEID_AT := n] + svc;
  }

  /** The constructor children after the setters up to setInterface. */
  lemma HeadLayout(args: Args, time: string)
    requires GuardedNodeId(args, GuardedAppend(args, C.PARM_SERVICE, C.EVENT_XMLTAG_SERVICE,
               GuardedText(args, C.PARM_UEI, UEI_AT, Initial(time)))).Ok?
    ensures var s3 := GuardedNodeId(args, GuardedAppend(args, C.PARM_SERVICE, C.EVENT_XMLTAG_SERVICE,
               GuardedText(args, C.PARM_UEI, UEI_AT, Initial(time)))).value;
      && s3.parmsAt.None?
      && GuardedText(args, C.PARM_INTERFACE, INTERFACE_AT, s3).children
         == FixedChildren(args, time) + Optional(args, C.PARM_SERVICE, C.EVENT_XMLTAG_SERVICE)
  {
    var s0 := Initial(time);
    var s1 := GuardedText(args, C.PARM_UEI, UEI_AT, s0);
    var s2 := GuardedAppend(args, C.PARM_SERVICE, C.EVENT_XMLTAG_SERVICE, s1);
    var s3 := GuardedNodeId(args, s2).value;
    var ueiL := Leaf(C.EVENT_XMLTAG_UEI, ArgText(args, C.PARM_UEI));
    var nidL := Leaf(C.EVENT_XMLTAG_NODEID, NodeIdText(args));
    var ifL := Leaf(C.EVENT_XMLTAG_INTERFACE, ArgText(args, C.PARM_INTERFACE));
    TextStep(args, C.PARM_UEI, UEI_AT, s0, C.EVENT_XMLTAG_UEI);
    AppendStep(args, C.PARM_SERVICE, C.EVENT_XMLTAG_SERVICE, s1);
    NodeIdStep(args, s2);
    TextStep(args, C.PARM_INTERFACE, INTERFACE_AT, s3, C.EVENT_XMLTAG_INTERFACE);
    UpdatesAroundAppend(s0.children, Optional(args, C.PARM_SERVICE, C.EVENT_XMLTAG_SERVICE),
                        ueiL, nidL, ifL, s1.children, s3.children);
    FixedFromInitial(args, time);
  }

  /** Filling uei, nodeid and interface of the constructor's children gives the fixed part of the layout. */
  lemma FixedFromInitial(args: Args, time: string)
    ensures Initial(time).children[UEI_AT := Leaf(C.EVENT_XMLTAG_UEI, ArgText(args, C.PARM_UEI))]
              [NODEID_AT := Leaf(C.EVENT_XMLTAG_NODEID, NodeIdText(args))]
              [INTERFACE_AT := Leaf(C.EVENT_XMLTAG_INTERFACE, ArgText(args, C.PARM_INTERFACE))]
            == FixedChildren(args, time)
  {
  }

  /**
   * setHost is never called: the built event keeps exactly one host
   * element, the empty one the constructor made.
   */
  lemma BuildKeepsEmptyHost(args: Args, parms: seq<(string, string)>, time: string)
    requires Build(args, parms, time).Ok?
    ensures var cs := Build(args, parms, time).value.children;
      CountTag(cs, C.EVENT_XMLTAG_HOST) == 1 && cs[HOST_AT] == Leaf(C.EVENT_XMLTAG_HOST, "")
  {
    BuildLayout(args, parms, time);
    LayoutKeepsEmptyHost(Build(args, parms, time).value.children, args, parms, time);
  }

  /** The child layout of initialize holds one host element, the empty one at its fixed place. */
  lemma LayoutKeepsEmptyHost(cs: seq<Node>, args: Args, parms: seq<(string, string)>, time: string)
    requires cs == FixedChildren(args, time) + AppendedChildren(args, parms)
    ensures CountTag(cs, C.EVENT_XMLTAG_HOST) == 1 && cs[HOST_AT] == Leaf(C.EVENT_XMLTAG_HOST, "")
  {
    FixedHostOnce(args, time);
    NoHostAppended(args, parms);
    HostOnceInConcat(FixedChildren(args, time), AppendedChildren(args, parms));
  }

  /** The fixed part holds one host element, the empty one at its place. */
  lemma FixedHostOnce(args: Args, time: string)
    ensures var f := FixedChildren(args, time);
      |f| == FIXED && CountTag(f, C.EVENT_XMLTAG_HOST) == 1 && f[HOST_AT] == Leaf(C.EVENT_XMLTAG_HOST, "")
  {
    FixedTagsOf(args, time);
    CountOne(FixedChildren(args, time), HOST_AT, C.EVENT_XMLTAG_HOST);
  }

  /** Appending children without a host element keeps the single host element and its place. */
  lemma HostOnceInConcat(f: seq<Node>, a: seq<Node>)
    requires |f| > HOST_AT && CountTag(f, C.EVENT_XMLTAG_HOST) == 1 && CountTag(a, C.EVENT_XMLTAG_HOST) == 0
    ensures CountTag(f + a, C.EVENT_XMLTAG_HOST) == 1 && (f + a)[HOST_AT] == f[HOST_AT]
  {
    CountConcat(f, a, C.EVENT_XMLTAG_HOST);
  }

  /** The fixed part carries the constructor's tags, in order. */
  lemma FixedTagsOf(args: Args, time: string)
    ensures var f := FixedChildren(args, time);
      |f| == FIXED && forall k :: 0 <= k < FIXED ==> f[k].Element? && f[k].tag == FixedTags[k]
  {
  }

  /** None of the appended pieces is a host element. */
  lemma NoHostAppended(args: Args, parms: seq<(string, string)>)
    ensures CountTag(AppendedChildren(args, parms), C.EVENT_XMLTAG_HOST) == 0
  {
    var h := C.EVENT_XMLTAG_HOST;
    var svc := Optional(args, C.PARM_SERVICE, C.EVENT_XMLTAG_SERVICE);
    var descr := Optional(args, C.PARM_DESCRIPTION, C.EVENT_XMLTAG_DESCRIPTION);
    var sev := SeverityElement(args);
    var oper := Optional(args, C.PARM_OPERINSTRUCT, C.EVENT_XMLTAG_OPERINSTRUCT);
    var pt := ParmsTail(args, parms);
    CountNone(svc, h);
    CountNone(descr, h);
    CountNone(sev, h);
    CountNone(oper, h);
    CountNone(pt, h);
    CountConcat(svc, descr, h);
    CountConcat(svc + descr, sev, h);
    CountConcat(svc + descr + sev, oper, h);
    CountConcat(svc + descr + sev + oper, pt, h);
  }

  /**
   * With only the required switches (and the host, port and verbose flag,
   * which do not touch the document) the event holds exactly the six
   * constructor children: no service, descr, severity, operinstruct or parms.
   */
  lemma BuildMinimal(args: Args, parms: seq<(string, string)>, time: string)
    requires forall k :: k in args ==> k in {C.PARM_UEI, C.PARM_INTERFACE, C.PARM_HOST, C.PARM_PORT_EVENTD, C.PARM_VERBOSE}
    ensures Build(args, parms, time) == Ok(EventState(FixedChildren(args, time), None))
  {
    assert C.PARM_NODEID !in args && C.PARM_SEVERITY !in args && C.PARM_ARG !in args;
    assert C.PARM_SERVICE !in args && C.PARM_DESCRIPTION !in args && C.PARM_OPERINSTRUCT !in args;
    BuildFailure(args, parms, time);
    BuildLayout(args, parms, time);
    assert AppendedChildren(args, parms) == [];
    assert FixedChildren(args, time) + [] == FixedChildren(args, time);
  }

  /**
   * initialize: a fresh document, the guarded setter calls in source order,
   * and one addParm per parameter, in the order the parameter map yields them.
   */
  method Initialize(argumentMap: ArgumentMap, time: string)
    returns (r: Result<OnmsEventXml>, ghost parms: seq<(string, string)>)
    ensures r.Fail? ==> Build(old(argumentMap.entries), parms, time) == Fail(r.error)
    ensures r.Ok? ==>
      && fresh(r.value) && r.value.Valid()
      && (C.PARM_ARG in old(argumentMap.entries) ==> IsEnumeration(parms, old(argumentMap.onmsEventParms)))
      && (C.PARM_ARG !in old(argumentMap.entries) ==> parms == [])
      && Build(old(argumentMap.entries), parms, time) == Ok(r.value.State())
  {
    var args := argumentMap.entries;
    parms := [];
    var onmsEventXml := new OnmsEventXml(time);
    var o := SetFields(onmsEventXml, args);
    if o.Failed? {
      return Fail(o.error), parms;
    }
    if C.PARM_ARG in args {
      var onmsParms := argumentMap.GetOnmsEventParms();
      parms := AddParms(onmsEventXml, onmsParms);
    }
    return Ok(onmsEventXml), parms;
  }

  /** The setter calls of initialize, each behind its switch, stopping at the first exception. */
  method SetFields(onmsEventXml: OnmsEventXml, args: Args) returns (o: Outcome)
    requires onmsEventXml.Valid()
    modifies onmsEventXml
    ensures onmsEventXml.Valid()
    ensures match Fields(args, old(onmsEventXml.State()))
      case Ok(st) => o == Pass && onmsEventXml.State() == st
      case Fail(e) => o == Failed(e)
  {
    o := SetToNodeId(onmsEventXml, args);
    if o.Failed? {
      return;
    }
    o := SetFromInterface(onmsEventXml, args);
  }

  /** setUei, setService and setNodeId, behind their switches. */
  method SetToNodeId(onmsEventXml: OnmsEventXml, args: Args) returns (o: Outcome)
    requires onmsEventXml.Valid()
    modifies onmsEventXml
    ensures onmsEventXml.Valid()
    ensures match FieldsToNodeId(args, old(onmsEventXml.State()))
      case Ok(st) => o == Pass && onmsEventXml.State() == st
      case Fail(e) => o == Failed(e)
  {
    ghost var s0 := onmsEventXml.State();
    if C.PARM_UEI in args {
      onmsEventXml.SetUei(Value(args[C.PARM_UEI]));
    }
    ghost var s1 := onmsEventXml.State();
    assert s1 == GuardedText(args, C.PARM_UEI, UEI_AT, s0);
    if C.PARM_SERVICE in args {
      onmsEventXml.SetService(Value(args[C.PARM_SERVICE]));
    }
    ghost var s2 := onmsEventXml.State();
    assert s2 == GuardedAppend(args, C.PARM_SERVICE, C.EVENT_XMLTAG_SERVICE, s1);
    o := Pass;
    if C.PARM_NODEID in args {
      o := onmsEventXml.SetNodeId(Value(args[C.PARM_NODEID]));
    }
  }

  /** setInterface, setDescription, setSeverity and setOperinstruct, behind their switches. */
  method SetFromInterface(onmsEventXml: OnmsEventXml, args: Args) returns (o: Outcome)
    requires onmsEventXml.Valid()
    modifies onmsEventXml
    ensures onmsEventXml.Valid()
    ensures match FieldsFromInterface(args, old(onmsEventXml.State()))
      case Ok(st) => o == Pass && onmsEventXml.State() == st
      case Fail(e) => o == Failed(e)
  {
    ghost var s3 := onmsEventXml.State();
    if C.PARM_INTERFACE in args {
      onmsEventXml.SetInterface(Value(args[C.PARM_INTERFACE]));
    }
    ghost var s4 := onmsEventXml.State();
    assert s4 == GuardedText(args, C.PARM_INTERFACE, INTERFACE_AT, s3);
    if C.PARM_DESCRIPTION in args {
      onmsEventXml.SetDescription(Value(args[C.PARM_DESCRIPTION]));
    }
    ghost var s5 := onmsEventXml.State();
    assert s5 == GuardedAppend(args, C.PARM_DESCRIPTION, C.EVENT_XMLTAG_DESCRIPTION, s4);
    o := SetFromSeverity(onmsEventXml, args);
  }

  /** setSeverity and setOperinstruct, behind their switches. */
  method SetFromSeverity(onmsEventXml: OnmsEventXml, args: Args) returns (o: Outcome)
    requires onmsEventXml.Valid()
    modifies onmsEventXml
    ensures onmsEventXml.Valid()
    ensures match FieldsFromSeverity(args, old(onmsEventXml.State()))
      case Ok(st) => o == Pass && onmsEventXml.State() == st
      case Fail(e) => o == Failed(e)
  {
    ghost var s5 := onmsEventXml.State();
    if C.PARM_SEVERITY in args {
      o := onmsEventXml.SetSeverity(Value(args[C.PARM_SEVERITY]));
      if o.Failed? {
        return;
      }
    }
    ghost var s6 := onmsEventXml.State();
    assert GuardedSeverity(args, s5) == Ok(s6);
    if C.PARM_OPERINSTRUCT in args {
      onmsEventXml.SetOperinstruct(Value(args[C.PARM_OPERINSTRUCT]));
    }
    o := Pass;
  }

  /**
   * The addParm loop of initialize: one addParm per entry of the parameter
   * map, in the order the map's iteration yields them.
   */
  method AddParms(onmsEventXml: OnmsEventXml, onmsParms: map<string, string>)
    returns (ghost parms: seq<(string, string)>)
    requires onmsEventXml.Valid()
    modifies onmsEventXml
    ensures onmsEventXml.Valid() && onmsEventXml.State() == WithParms(old(onmsEventXml.State()), parms)
    ensures IsEnumeration(parms, onmsParms)
  {
    parms := [];
    var remaining := onmsParms.Keys;
    ghost var before := onmsEventXml.State();
    while remaining != {}
      invariant onmsEventXml.Valid() && Wf(before)
      invariant onmsEventXml.State() == WithParms(before, parms)
      invariant Enumerated(parms, onmsParms, remaining)
      decreases remaining
    {
      var k :| k in remaining;
      onmsEventXml.AddParm(k, onmsParms[k]);
      WithParmsSnoc(before, parms, (k, onmsParms[k]));
      EnumeratedStep(parms, onmsParms, remaining, k);
      parms := parms + [(k, onmsParms[k])];
      remaining := remaining - {k};
    }
    EnumeratedAll(parms, onmsParms);
  }

  /** One more addParm call after a sequence of them. */
  lemma WithParmsSnoc(st: EventState, entries: seq<(string, string)>, e: (string, string))
    requires Wf(st)
    ensures WithParms(st, entries + [e]) == WithParm(WithParms(st, entries), e.0, e.1)
  {
    assert (entries + [e])[..|entries|] == entries;
  }

  /**
   * The loop's progress: `parms` lists, once each and with their values, the
   * keys of `m` that are no longer in `remaining`.
   */
  ghost predicate Enumerated(parms: seq<(string, string)>, m: map<string, string>, remaining: set<string>)
  {
    && remaining <= m.Keys
    && (forall i, j :: 0 <= i < j < |parms| ==> parms[i].0 != parms[j].0)
    && (forall i :: 0 <= i < |parms| ==> parms[i].0 in m && m[parms[i].0] == parms[i].1 && parms[i].0 !in remaining)
    && (forall k :: k in m && k !in remaining ==> exists i :: 0 <= i < |parms| && parms[i].0 == k)
  }

  /** Taking one more key out of `remaining` and listing it keeps the progress invariant. */
  lemma EnumeratedStep(parms: seq<(string, string)>, m: map<string, string>, remaining: set<string>, k: string)
    requires Enumerated(parms, m, remaining) && k in remaining
    ensures Enumerated(parms + [(k, m[k])], m, remaining - {k})
  {
    var next := parms + [(k, m[k])];
    forall key | key in m && key !in remaining - {k}
      ensures exists i :: 0 <= i < |next| && next[i].0 == key
    {
      if key == k {
        assert next[|parms|].0 == key;
      } else {
        var i :| 0 <= i < |parms| && parms[i].0 == key;
        assert next[i].0 == key;
      }
    }
  }

  /** Once nothing remains, the list is an enumeration of the whole map. */
  lemma EnumeratedAll(parms: seq<(string, string)>, m: map<string, string>)
    requires Enumerated(parms, m, {})
    ensures IsEnumeration(parms, m)
  {
  }

  // ----- main -----

  /** How a run ends: the help text, a failure (exit code 1), or the event handed to the sender. */
  datatype RunOutcome =
    | Help
    | Aborted(error: Error)
    | Sent(host: Option<string>, port: Option<string>, event: Node)

  /**
   * main: no arguments shows the help; otherwise the arguments are lexed and
   * checked, the event is built, and only then are the destination ("-h",
   * "-t") and the document passed on for sending.
   */
  function RunSpec(arg: seq<string>, time: string, parms: seq<(string, string)>): RunOutcome
  {
    if |arg| == C.NO_ARGS then Help
    else
      match Lex(arg, Defaults())
      case Fail(e) => Aborted(e)
      case Ok(lexed) =>
        match Check(lexed.args)
        case Failed(e) => Aborted(e)
        case Pass =>
          match Build(lexed.args, parms, time)
          case Fail(e) => Aborted(e)
          case Ok(ev) => Sent(Get(lexed.args, C.PARM_HOST), Get(lexed.args, C.PARM_PORT_EVENTD), DocumentOf(ev))
  }

  /** main up to sendEvent; the clock reading is the parameter `time`. */
  method Run(arg: seq<string>, time: string) returns (out: RunOutcome, ghost parms: seq<(string, string)>)
    ensures out == RunSpec(arg, time, parms)
    ensures out.Sent? ==> IsEnumeration(parms, Lex(arg, Defaults()).value.parms)
  {
    parms := [];
    if |arg| == C.NO_ARGS {
      return Help, parms;
    }
    var created := ArgumentMap.Create(arg);
    if created.Fail? {
      return Aborted(created.error), parms;
    }
    var argumentMap := created.value;
    var built;
    built, parms := Initialize(argumentMap, time);
    if built.Fail? {
      return Aborted(built.error), parms;
    }
    if C.PARM_ARG !in argumentMap.entries {
      NoParmSwitchNoParms(arg);
    }
    var onmsEventXml := built.value;
    out := Sent(Get(argumentMap.entries, C.PARM_HOST), Get(argumentMap.entries, C.PARM_PORT_EVENTD), onmsEventXml.EventDoc());
  }

  /** Without "-p" among the lexed switches there are no event parameters. */
  lemma NoParmSwitchNoParms(arg: seq<string>)
    requires Lex(arg, Defaults()).Ok? && C.PARM_ARG !in Lex(arg, Defaults()).value.args
    ensures Lex(arg, Defaults()).value.parms == map[]
  {
    LexWellFormed(arg, Defaults());
  }

  // ----- Properties of main -----

  /**
   * What is sent: the required switches were present, uei and interface hold
   * their values, and the host element is the single empty one.
   */
  lemma RunSentEvent(arg: seq<string>, time: string, parms: seq<(string, string)>)
    requires RunSpec(arg, time, parms).Sent?
    ensures Lex(arg, Defaults()).Ok?
    ensures var lexed := Lex(arg, Defaults()).value;
      && C.PARM_UEI in lexed.args && C.PARM_INTERFACE in lexed.args
      && var ev := Build(lexed.args, parms, time).value;
         && RunSpec(arg, time, parms).event == DocumentOf(ev)
         && TextContent(ev.children[UEI_AT]) == Value(lexed.args[C.PARM_UEI])
         && TextContent(ev.children[INTERFACE_AT]) == Value(lexed.args[C.PARM_INTERFACE])
         && CountTag(ev.children, C.EVENT_XMLTAG_HOST) == 1
         && ev.children[HOST_AT] == Leaf(C.EVENT_XMLTAG_HOST, "")
  {
    var lexed := Lex(arg, Defaults()).value;
    BuildLayout(lexed.args, parms, time);
    BuildKeepsEmptyHost(lexed.args, parms, time);
    LayoutTexts(Build(lexed.args, parms, time).value.children, lexed.args, parms, time);
  }

  /**
   * Where it is sent: the lexed "-h" and "-t", which are always present and
   * are the defaults unless a token overrides them.
   */
  lemma RunSentDestination(arg: seq<string>, time: string, parms: seq<(string, string)>)
    requires RunSpec(arg, time, parms).Sent?
    ensures RunSpec(arg, time, parms).host.Some? && RunSpec(arg, time, parms).port.Some?
    ensures C.PARM_HOST !in arg ==> RunSpec(arg, time, parms).host == Some(C.DEFAULT_OPENNMS_SERVER)
    ensures C.PARM_PORT_EVENTD !in arg ==> RunSpec(arg, time, parms).port == Some("5817")
  {
    LexedDestination(arg);
  }

  /** The lexed "-h" and "-t" are present and non-null, and are the defaults unless a token names them. */
  lemma LexedDestination(arg: seq<string>)
    requires Lex(arg, Defaults()).Ok?
    ensures var args := Lex(arg, Defaults()).value.args;
      && Get(args, C.PARM_HOST).Some? && Get(args, C.PARM_PORT_EVENTD).Some?
      && (C.PARM_HOST !in arg ==> Get(args, C.PARM_HOST) == Some(C.DEFAULT_OPENNMS_SERVER))
      && (C.PARM_PORT_EVENTD !in arg ==> Get(args, C.PARM_PORT_EVENTD) == Some("5817"))
  {
    LexWellFormed(arg, Defaults());
    DefaultsKept(arg);
  }

  /** In the child layout of initialize, uei and interface hold their switches' texts. */
  lemma LayoutTexts(cs: seq<Node>, args: Args, parms: seq<(string, string)>, time: string)
    requires cs == FixedChildren(args, time) + AppendedChildren(args, parms)
    ensures TextContent(cs[UEI_AT]) == ArgText(args, C.PARM_UEI)
    ensures TextContent(cs[INTERFACE_AT]) == ArgText(args, C.PARM_INTERFACE)
  {
    assert cs[UEI_AT] == Leaf(C.EVENT_XMLTAG_UEI, ArgText(args, C.PARM_UEI));
    assert cs[INTERFACE_AT] == Leaf(C.EVENT_XMLTAG_INTERFACE, ArgText(args, C.PARM_INTERFACE));
  }

  /** Nothing is sent when the severity is invalid: the run ends in ParameterException. */
  lemma RunInvalidSeverity(arg: seq<string>, time: string, parms: seq<(string, string)>)
    requires |arg| > 0 && Lex(arg, Defaults()).Ok?
    requires Check(Lex(arg, Defaults()).value.args) == Pass
    requires !NodeIdBad(Lex(arg, Defaults()).value.args) && SeverityBad(Lex(arg, Defaults()).value.args)
    ensures RunSpec(arg, time, parms) == Aborted(ParameterException)
  {
    BuildFailure(Lex(arg, Defaults()).value.args, parms, time);
  }

  /** The required switches are checked before anything is built: a missing one ends the run. */
  lemma RunChecksFirst(arg: seq<string>, time: string, parms: seq<(string, string)>)
    requires |arg| > 0 && Lex(arg, Defaults()).Ok?
    requires C.PARM_INTERFACE !in Lex(arg, Defaults()).value.args || C.PARM_UEI !in Lex(arg, Defaults()).value.args
    ensures RunSpec(arg, time, parms) == Aborted(ParameterException)
  {
  }

  /** The end-to-end scenario: uei and interface only, default destination. */
  lemma RunExample(time: string)
    ensures RunSpec(["-u", "uei.example/test", "-i", "10.0.0.1"], time, []) ==
      Sent(Some("localhost"), Some("5817"), DocumentOf(EventState([
        Leaf("uei", "uei.example/test"), Leaf("source", "jsendevent"), Leaf("nodeid", ""),
        Leaf("time", time), Leaf("host", ""), Leaf("interface", "10.0.0.1")], None)))
  {
    var args := map["-h" := Some("localhost"), "-t" := Some("5817"),
                     "-u" := Some("uei.example/test"), "-i" := Some("10.0.0.1")];
    var arg := ["-u", "uei.example/test", "-i", "10.0.0.1"];
    LexMinimal();
    MinimalLookups(args, time);
    BuildMinimal(args, [], time);
    assert RunSpec(arg, time, []) == Sent(Get(args, C.PARM_HOST), Get(args, C.PARM_PORT_EVENTD),
                                          DocumentOf(EventState(FixedChildren(args, time), None)));
  }

  /** What the scenario's argument map yields to checkArguments, initialize and main. */
  lemma MinimalLookups(args: Args, time: string)
    requires args == map["-h" := Some("localhost"), "-t" := Some("5817"),
                         "-u" := Some("uei.example/test"), "-i" := Some("10.0.0.1")]
    ensures Check(args) == Pass
    ensures forall k :: k in args ==> k in {C.PARM_UEI, C.PARM_INTERFACE, C.PARM_HOST, C.PARM_PORT_EVENTD, C.PARM_VERBOSE}
    ensures Get(args, C.PARM_HOST) == Some("localhost") && Get(args, C.PARM_PORT_EVENTD) == Some("5817")
    ensures FixedChildren(args, time) == [
      Leaf("uei", "uei.example/test"), Leaf("source", "jsendevent"), Leaf("nodeid", ""),
      Leaf("time", time), Leaf("host", ""), Leaf("interface", "10.0.0.1")]
  {
    assert args.Keys == {"-h", "-t", "-u", "-i"};
  }

  /** The tokens of the end-to-end scenario lex to the defaults plus "-u" and "-i". */
  lemma LexMinimal()
    ensures Lex(["-u", "uei.example/test", "-i", "10.0.0.1"], Defaults()) ==
      Ok(Lexed(map["-h" := Some("localhost"), "-t" := Some("5817"),
                   "-u" := Some("uei.example/test"), "-i" := Some("10.0.0.1")], map[]))
  {
    var arg := ["-u", "uei.example/test", "-i", "10.0.0.1"];
    var d := Defaults();
    var s1 := d.(args := d.args["-u" := Some("uei.example/test")]);
    var s2 := s1.(args := s1.args["-i" := Some("10.0.0.1")]);
    assert arg[2..] == ["-i", "10.0.0.1"] && arg[2..][2..] == [];
    assert Lex(arg, d) == Lex(arg[2..], s1);
    assert Lex(arg[2..], s1) == Lex([], s2);
  }
}
