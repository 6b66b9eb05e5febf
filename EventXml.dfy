/**
 * OnmsEventXml: the event document `log > events > event > [children]`.
 * The tree is modelled as values; the class keeps the `event` element's
 * child list and the position of the lazily created `parms` element, and
 * its methods change them in place as the DOM calls of the source do.
 */
module EventXml {
  import opened Outcomes
  import opened JavaInteger
  import opened Severity
  import C = Constants

  /** A DOM node: an element with attributes and children, a text node, or a CDATA section. */
  datatype Node =
    | Element(tag: string, attributes: map<string, string>, children: seq<Node>)
    | Text(data: string)
    | CData(data: string)

  /** The concatenated character data of a list of nodes (DOM `textContent`). */
  function TextOf(ns: seq<Node>): string
  {
    if ns == [] then ""
    else
      (match ns[0]
       case Element(_, _, kids) => TextOf(kids)
       case Text(d) => d
       case CData(d) => d)
      + TextOf(ns[1..])
  }

  function TextContent(n: Node): string
  {
    match n
    case Element(_, _, kids) => TextOf(kids)
    case Text(d) => d
    case CData(d) => d
  }

  /**
   * DOM `setTextContent`: every child is removed and, unless the text is
   * empty, replaced by a single text node.
   */
  function WithText(e: Node, text: string): (r: Node)
    requires e.Element?
    ensures r.Element? && r.tag == e.tag && r.attributes == e.attributes
    ensures TextContent(r) == text
    ensures r.children == [] || (|r.children| == 1 && r.children[0].Text?)
  {
    var r := e.(children := if text == "" then [] else [Text(text)]);
    assert text != "" ==> TextOf(r.children) == text + TextOf([]) by {
      if text != "" { assert r.children[1..] == []; }
    }
    r
  }

  /** A freshly created element, without attributes, whose text is then set. */
  function Leaf(tag: string, text: string): Node
  {
    WithText(Element(tag, map[], []), text)
  }

  /** An element that carries text only. */
  predicate IsLeaf(n: Node)
  {
    n.Element? && n.attributes == map[] && (n.children == [] || (|n.children| == 1 && n.children[0].Text?))
  }

  /**
   * One user parameter: `parm > [parmName > CDATA key, value(type, encoding) > CDATA value]`.
   * The value's CDATA section is created holding the placeholder "value" and
   * then overwritten, so it ends up holding `value`.
   */
  function Parm(key: string, value: string): (r: Node)
    ensures IsParm(r) && ParmKey(r) == key && ParmValue(r) == value
    ensures r.children[1].attributes == map["type" := "string", "encoding" := "text"]
  {
    var tagValue := Element(C.EVENT_XMLTAG_VALUE, map["type" := "string", "encoding" := "text"], [CData(value)]);
    var tagParmName := Element(C.EVENT_XMLTAG_PARMNAME, map[], [CData(key)]);
    Element(C.EVENT_XMLTAG_PARM, map[], [tagParmName, tagValue])
  }

  predicate IsParm(n: Node)
  {
    && n.Element? && n.tag == C.EVENT_XMLTAG_PARM && n.attributes == map[] && |n.children| == 2
    && n.children[0].Element? && n.children[0].tag == C.EVENT_XMLTAG_PARMNAME
    && n.children[0].attributes == map[]
    && |n.children[0].children| == 1 && n.children[0].children[0].CData?
    && n.children[1].Element? && n.children[1].tag == C.EVENT_XMLTAG_VALUE
    && n.children[1].attributes == map["type" := "string", "encoding" := "text"]
    && |n.children[1].children| == 1 && n.children[1].children[0].CData?
  }

  /** The key a parm element carries. */
  function ParmKey(n: Node): string
    requires n.Element? && |n.children| == 2
    requires n.children[0].Element? && |n.children[0].children| == 1 && n.children[0].children[0].CData?
  {
    n.children[0].children[0].data
  }

  /** The value a parm element carries. */
  function ParmValue(n: Node): string
    requires n.Element? && |n.children| == 2
    requires n.children[1].Element? && |n.children[1].children| == 1 && n.children[1].children[0].CData?
  {
    n.children[1].children[0].data
  }

  /** The parm elements for a sequence of (key, value) pairs, in order. */
  function Parms(entries: seq<(string, string)>): (r: seq<Node>)
    ensures |r| == |entries|
    ensures forall k :: 0 <= k < |r| ==> r[k] == Parm(entries[k].0, entries[k].1)
  {
    if entries == [] then []
    else Parms(entries[..|entries| - 1]) + [Parm(entries[|entries| - 1].0, entries[|entries| - 1].1)]
  }

  // Positions of the six children the constructor appends, in append order.
  const UEI_AT: nat := 0
  const SOURCE_AT: nat := 1
  const NODEID_AT: nat := 2
  const TIME_AT: nat := 3
  const HOST_AT: nat := 4
  const INTERFACE_AT: nat := 5
  const FIXED: nat := 6

  const FixedTags: seq<string> := [
    C.EVENT_XMLTAG_UEI, C.EVENT_XMLTAG_SOURCE, C.EVENT_XMLTAG_NODEID,
    C.EVENT_XMLTAG_TIME, C.EVENT_XMLTAG_HOST, C.EVENT_XMLTAG_INTERFACE]

  /** Tags of the elements that setters append after the fixed children. */
  predicate IsAppendedTag(tag: string)
  {
    tag in {C.EVENT_XMLTAG_HOST, C.EVENT_XMLTAG_SERVICE, C.EVENT_XMLTAG_SEVERITY,
            C.EVENT_XMLTAG_DESCRIPTION, C.EVENT_XMLTAG_OPERINSTRUCT}
  }

  /**
   * The state of a document: the children of `event`, and where `parms`
   * sits among them (`None` while the source's reference is still null).
   */
  datatype EventState = EventState(children: seq<Node>, parmsAt: Option<nat>)

  /**
   * The document invariant. The six fixed children come first, in constructor
   * order, holding text only; every later child is either a text-only element
   * with an appended tag or the single `parms` element, which holds parm
   * elements only.
   */
  predicate Wf(st: EventState)
  {
    && |st.children| >= FIXED
    && FixedAt(st.children, UEI_AT) && FixedAt(st.children, SOURCE_AT) && FixedAt(st.children, NODEID_AT)
    && FixedAt(st.children, TIME_AT) && FixedAt(st.children, HOST_AT) && FixedAt(st.children, INTERFACE_AT)
    && (forall k :: FIXED <= k < |st.children| ==>
          st.children[k].Element? && (st.children[k].tag == C.EVENT_XMLTAG_PARMS <==> st.parmsAt == Some(k)))
    && (forall k :: FIXED <= k < |st.children| && st.parmsAt != Some(k) ==>
          IsLeaf(st.children[k]) && IsAppendedTag(st.children[k].tag))
    && (st.parmsAt.Some? ==> FIXED <= st.parmsAt.value < |st.children| && IsParmList(st.children[st.parmsAt.value]))
  }

  /** The fixed child at `i` is a text-only element with the constructor's tag for that position. */
  predicate FixedAt(cs: seq<Node>, i: nat)
    requires i < FIXED <= |cs|
  {
    IsLeaf(cs[i]) && cs[i].tag == FixedTags[i]
  }

  /** A `parms` element without attributes whose children are all parm elements. */
  predicate IsParmList(n: Node)
  {
    n.Element? && n.tag == C.EVENT_XMLTAG_PARMS && n.attributes == map[]
    && forall k :: 0 <= k < |n.children| ==> IsParm(n.children[k])
  }

  /** The parm elements of a document, in the order they were added. */
  function ParmsOf(st: EventState): seq<Node>
    requires Wf(st)
  {
    if st.parmsAt.None? then [] else st.children[st.parmsAt.value].children
  }

  /**
   * The whole document, as toString or getEventDoc would see it: the
   * constructor's skeleton `log > events > event` around the event's children.
   */
  function DocumentOf(st: EventState): (doc: Node)
    ensures EventChildren(doc) == Some(st.children)
  {
    Element(C.EVENT_XMLTAG_LOG, map[], [
      Element(C.EVENT_XMLTAG_EVENTS, map[], [
        Element(C.EVENT_XMLTAG_EVENT, map[], st.children)])])
  }

  /**
   * The children of `event`, for a document with the skeleton `log > events > event`
   * (each element without attributes and holding only the next); `None` otherwise.
   */
  function EventChildren(doc: Node): Option<seq<Node>>
  {
    if && doc.Element? && doc.tag == C.EVENT_XMLTAG_LOG && doc.attributes == map[] && |doc.children| == 1
       && doc.children[0].Element? && doc.children[0].tag == C.EVENT_XMLTAG_EVENTS
       && doc.children[0].attributes == map[] && |doc.children[0].children| == 1
       && doc.children[0].children[0].Element? && doc.children[0].children[0].tag == C.EVENT_XMLTAG_EVENT
       && doc.children[0].children[0].attributes == map[]
    then Some(doc.children[0].children[0].children)
    else None
  }

  /** Number of element children with a given tag. */
  function CountTag(ns: seq<Node>, tag: string): nat
  {
    if ns == [] then 0
    else CountTag(ns[..|ns| - 1], tag) + (if ns[|ns| - 1].Element? && ns[|ns| - 1].tag == tag then 1 else 0)
  }

  // ----- The operations, on states -----

  /**
   * The constructor: `event` gets uei, source, nodeid, time, host and
   * interface, in that order; source holds "jsendevent", time the given
   * string, the others are empty; there is no `parms` yet.
   */
  function Initial(time: string): (st: EventState)
    ensures Wf(st) && |st.children| == FIXED && st.parmsAt == None
    ensures forall k :: 0 <= k < FIXED ==> st.children[k].tag == FixedTags[k]
    ensures TextContent(st.children[SOURCE_AT]) == C.SOURCE_NAME
    ensures TextContent(st.children[TIME_AT]) == time
    ensures forall k :: 0 <= k < FIXED && k != SOURCE_AT && k != TIME_AT ==> st.children[k].children == []
  {
    EventState([
      Leaf(C.EVENT_XMLTAG_UEI, ""),
      Leaf(C.EVENT_XMLTAG_SOURCE, C.SOURCE_NAME),
      Leaf(C.EVENT_XMLTAG_NODEID, ""),
      Leaf(C.EVENT_XMLTAG_TIME, time),
      Leaf(C.EVENT_XMLTAG_HOST, ""),
      Leaf(C.EVENT_XMLTAG_INTERFACE, "")], None)
  }

  /**
   * setUei, setSource, setNodeId, setTime, setInterface: overwrite the text
   * of one fixed child; the number of children and every other child stay.
   */
  function SetText(st: EventState, at: nat, text: string): (r: EventState)
    requires Wf(st) && at < FIXED
    ensures Wf(r) && |r.children| == |st.children| && r.parmsAt == st.parmsAt
    ensures r.children[at].tag == st.children[at].tag && TextContent(r.children[at]) == text
    ensures forall k :: 0 <= k < |st.children| && k != at ==> r.children[k] == st.children[k]
  {
    st.(children := st.children[at := WithText(st.children[at], text)])
  }

  /**
   * setHost, setService, setDescription, setOperinstruct (and a resolved
   * setSeverity): one new element with the tag and the text, after every
   * existing child.
   */
  function Append(st: EventState, tag: string, text: string): (r: EventState)
    requires Wf(st) && IsAppendedTag(tag)
    ensures Wf(r) && r.parmsAt == st.parmsAt
    ensures |r.children| == |st.children| + 1 && r.children[..|st.children|] == st.children
    ensures r.children[|st.children|].tag == tag && TextContent(r.children[|st.children|]) == text
    ensures ParmsOf(r) == ParmsOf(st)
  {
    st.(children := st.children + [Leaf(tag, text)])
  }

  /** setNodeId: the canonical decimal form of parseInt(id); NumberFormatException leaves the state. */
  function WithNodeId(st: EventState, id: string): (r: Result<EventState>)
    requires Wf(st)
    ensures r.Fail? <==> ParseInt(id).None?
    ensures r.Fail? ==> r.error == NumberFormatException
    ensures r.Ok? ==> r.value == SetText(st, NODEID_AT, IntToString(ParseInt(id).value))
  {
    match ParseInt(id)
    case None => Fail(NumberFormatException)
    case Some(nodeid) => Ok(SetText(st, NODEID_AT, IntToString(nodeid)))
  }

  /** setSeverity: one `severity` element with the resolved name; a failed resolution appends nothing. */
  function WithSeverity(st: EventState, severity: string): (r: Result<EventState>)
    requires Wf(st)
    ensures r.Ok? <==> ResolvSeverity(severity).Ok?
    ensures r.Fail? ==> r.error == ParameterException
    ensures r.Ok? ==> r.value == Append(st, C.EVENT_XMLTAG_SEVERITY, ResolvSeverity(severity).value)
  {
    var name :- ResolvSeverity(severity);
    Ok(Append(st, C.EVENT_XMLTAG_SEVERITY, name))
  }

  /**
   * addParm: the first call appends a `parms` element after the existing
   * children; every call appends one parm to it.
   */
  function WithParm(st: EventState, key: string, value: string): (r: EventState)
    requires Wf(st)
    ensures Wf(r)
    ensures ParmsOf(r) == ParmsOf(st) + [Parm(key, value)]
    ensures st.parmsAt.None? ==>
      && r.parmsAt == Some(|st.children|)
      && |r.children| == |st.children| + 1 && r.children[..|st.children|] == st.children
    ensures st.parmsAt.Some? ==>
      && r.parmsAt == st.parmsAt && |r.children| == |st.children|
      && forall k :: 0 <= k < |st.children| && k != st.parmsAt.value ==> r.children[k] == st.children[k]
  {
    var tagParm := Parm(key, value);
    match st.parmsAt
    case None =>
      var tagParms := Element(C.EVENT_XMLTAG_PARMS, map[], [tagParm]);
      EventState(st.children + [tagParms], Some(|st.children|))
    case Some(p) =>
      var tagParms := st.children[p];
      st.(children := st.children[p := tagParms.(children := tagParms.children + [tagParm])])
  }

  /** A sequence of addParm calls, in call order. */
  function WithParms(st: EventState, entries: seq<(string, string)>): (r: EventState)
    requires Wf(st)
    ensures Wf(r)
  {
    if entries == [] then st
    else
      var last := entries[|entries| - 1];
      WithParm(WithParms(st, entries[..|entries| - 1]), last.0, last.1)
  }

  // ----- Properties of the operations -----

  /**
   * setNodeId stores the canonical decimal form: it reads back as the same
   * number and has no sign or leading zero that toString would not write
   * ("007" is stored as "7").
   */
  lemma NodeIdCanonical(st: EventState, id: string)
    requires Wf(st) && WithNodeId(st, id).Ok?
    ensures var t := TextContent(WithNodeId(st, id).value.children[NODEID_AT]);
      Canonical(t) && ParseInt(t) == ParseInt(id)
  {
    ParseIntToString(ParseInt(id).value);
  }

  /** Under the invariant, there is a `parms` child exactly when one was created, and never two. */
  lemma {:induction false} CountParms(st: EventState)
    requires Wf(st)
    ensures CountTag(st.children, C.EVENT_XMLTAG_PARMS) == if st.parmsAt.Some? then 1 else 0
  {
    CountFixed(st.children[..FIXED], C.EVENT_XMLTAG_PARMS);
    assert st.children == st.children[..FIXED] + st.children[FIXED..];
    CountConcat(st.children[..FIXED], st.children[FIXED..], C.EVENT_XMLTAG_PARMS);
    var rest := st.children[FIXED..];
    match st.parmsAt
    case None =>
      CountNone(rest, C.EVENT_XMLTAG_PARMS);
    case Some(p) =>
      CountOne(rest, p - FIXED, C.EVENT_XMLTAG_PARMS);
  }

  /** A list whose only element with the tag sits at `i` counts it once. */
  lemma CountOne(ns: seq<Node>, i: nat, tag: string)
    requires i < |ns| && ns[i].Element? && ns[i].tag == tag
    requires forall k :: 0 <= k < |ns| && k != i ==> !(ns[k].Element? && ns[k].tag == tag)
    ensures CountTag(ns, tag) == 1
  {
    assert ns == ns[..i] + [ns[i]] + ns[i + 1..];
    CountNone(ns[..i], tag);
    CountNone(ns[i + 1..], tag);
    CountConcat(ns[..i], [ns[i]], tag);
    CountConcat(ns[..i] + [ns[i]], ns[i + 1..], tag);
    assert [ns[i]][..0] == [];
  }

  /** The fixed children contain no `parms` element. */
  lemma CountFixed(ns: seq<Node>, tag: string)
    requires |ns| == FIXED && forall k :: 0 <= k < FIXED ==> ns[k].Element? && ns[k].tag == FixedTags[k]
    requires tag !in FixedTags
    ensures CountTag(ns, tag) == 0
  {
    CountNone(ns, tag);
  }

  lemma {:induction false} CountNone(ns: seq<Node>, tag: string)
    requires forall k :: 0 <= k < |ns| ==> !(ns[k].Element? && ns[k].tag == tag)
    ensures CountTag(ns, tag) == 0
  {
    if ns != [] {
      CountNone(ns[..|ns| - 1], tag);
    }
  }

  lemma {:induction false} CountConcat(a: seq<Node>, b: seq<Node>, tag: string)
    ensures CountTag(a + b, tag) == CountTag(a, tag) + CountTag(b, tag)
  {
    if b != [] {
      assert (a + b)[..|a + b| - 1] == a + b[..|b| - 1];
      CountConcat(a, b[..|b| - 1], tag);
    } else {
      assert a + b == a;
    }
  }

  /** Calling an appending setter twice leaves two siblings, in call order, after the old children. */
  lemma AppendTwice(st: EventState, tag: string, first: string, second: string)
    requires Wf(st) && IsAppendedTag(tag)
    ensures var r := Append(Append(st, tag, first), tag, second);
      && CountTag(r.children, tag) == CountTag(st.children, tag) + 2
      && r.children == st.children + [Leaf(tag, first), Leaf(tag, second)]
  {
    var s1 := Append(st, tag, first);
    assert s1.children == st.children + [Leaf(tag, first)];
    assert Append(s1, tag, second).children == s1.children + [Leaf(tag, second)];
    CountTwoMore(st.children, Leaf(tag, first), Leaf(tag, second), tag);
  }

  /** Two more elements with a tag, one after the other, raise its count by two. */
  lemma CountTwoMore(cs: seq<Node>, a: Node, b: Node, tag: string)
    requires a.Element? && a.tag == tag && b.Element? && b.tag == tag
    ensures cs + [a] + [b] == cs + [a, b]
    ensures CountTag(cs + [a, b], tag) == CountTag(cs, tag) + 2
  {
    assert (cs + [a, b])[..|cs| + 1] == cs + [a];
    assert (cs + [a])[..|cs|] == cs;
  }

  /**
   * N >= 1 addParm calls on a document without parameters: exactly one
   * `parms` child, placed where the child list ended before the first call,
   * holding the N parm elements in call order; the earlier children stay.
   */
  lemma {:induction false} WithParmsLayout(st: EventState, entries: seq<(string, string)>)
    requires Wf(st) && st.parmsAt.None? && |entries| >= 1
    ensures var r := WithParms(st, entries);
      && r.parmsAt == Some(|st.children|)
      && |r.children| == |st.children| + 1
      && r.children[..|st.children|] == st.children
      && r.children[|st.children|] == Element(C.EVENT_XMLTAG_PARMS, map[], Parms(entries))
      && CountTag(r.children, C.EVENT_XMLTAG_PARMS) == 1
  {
    var r := WithParms(st, entries);
    WithParmsOrder(st, entries);
    if |entries| == 1 {
      assert entries[..0] == [];
      assert WithParms(st, entries[..0]) == st;
    } else {
      var init := entries[..|entries| - 1];
      WithParmsLayout(st, init);
    }
    CountParms(r);
  }

  /** The parm elements of any document grow by the added entries, in order. */
  lemma {:induction false} WithParmsOrder(st: EventState, entries: seq<(string, string)>)
    requires Wf(st)
    ensures ParmsOf(WithParms(st, entries)) == ParmsOf(st) + Parms(entries)
  {
    if entries != [] {
      var init, last := entries[..|entries| - 1], entries[|entries| - 1];
      WithParmsOrder(st, init);
      var mid := WithParms(st, init);
      var r := WithParm(mid, last.0, last.1);
      assert WithParms(st, entries) == r;
      GrowAtEnd(ParmsOf(st), Parms(init), ParmsOf(mid), Parm(last.0, last.1), Parms(entries), ParmsOf(r));
    } else {
      assert ParmsOf(st) + Parms(entries) == ParmsOf(st);
    }
  }

  /** If `mid` is `a + b` grown by `x`, and `b` grown by `x` is `e`, then `mid` grown is `a + e`. */
  lemma GrowAtEnd<T>(a: seq<T>, b: seq<T>, mid: seq<T>, x: T, e: seq<T>, r: seq<T>)
    requires mid == a + b && e == b + [x] && r == mid + [x]
    ensures r == a + e
  {
  }

  // ----- The document object -----

  class OnmsEventXml {
    /** Children of the `event` element (m_tag_event). */
    var children: seq<Node>
    /** Position of m_tag_parms among the children; None while it is null. */
    var parmsAt: Option<nat>

    function State(): EventState
      reads this
    {
      EventState(children, parmsAt)
    }

    ghost predicate Valid()
      reads this
    {
      Wf(State())
    }

    /** getEventDoc: the document rooted at `log`, whose `event` holds this object's children. */
    function EventDoc(): (doc: Node)
      reads this
      ensures EventChildren(doc) == Some(children)
    {
      DocumentOf(State())
    }

    /** The time string, which the source formats from the clock, is a parameter. */
    constructor (time: string)
      ensures Valid() && State() == Initial(time)
    {
      var tagUei := Element(C.EVENT_XMLTAG_UEI, map[], []);
      var tagSource := WithText(Element(C.EVENT_XMLTAG_SOURCE, map[], []), C.SOURCE_NAME);
      var tagNodeid := Element(C.EVENT_XMLTAG_NODEID, map[], []);
      var tagTime := Element(C.EVENT_XMLTAG_TIME, map[], []);
      var tagHost := Element(C.EVENT_XMLTAG_HOST, map[], []);
      var tagInterface := Element(C.EVENT_XMLTAG_INTERFACE, map[], []);
      children := [tagUei, tagSource, tagNodeid, tagTime, tagHost, tagInterface];
      parmsAt := None;
      new;
      SetTime(time);
    }

    method SetUei(uei: string)
      requires Valid()
      modifies this
      ensures Valid() && State() == SetText(old(State()), UEI_AT, uei)
    {
      children := children[UEI_AT := WithText(children[UEI_AT], uei)];
    }

    method SetSource(source: string)
      requires Valid()
      modifies this
      ensures Valid() && State() == SetText(old(State()), SOURCE_AT, source)
    {
      children := children[SOURCE_AT := WithText(children[SOURCE_AT], source)];
    }

    method SetInterface(iface: string)
      requires Valid()
      modifies this
      ensures Valid() && State() == SetText(old(State()), INTERFACE_AT, iface)
    {
      children := children[INTERFACE_AT := WithText(children[INTERFACE_AT], iface)];
    }

    method SetNodeId(id: string) returns (o: Outcome)
      requires Valid()
      modifies this
      ensures Valid()
      ensures match WithNodeId(old(State()), id)
        case Ok(st) => o == Pass && State() == st
        case Fail(e) => o == Failed(e) && State() == old(State())
    {
      var nodeid := ParseInt(id);
      if nodeid.None? {
        return Failed(NumberFormatException);
      }
      children := children[NODEID_AT := WithText(children[NODEID_AT], IntToString(nodeid.value))];
      return Pass;
    }

    method SetTime(time: string)
      requires Valid()
      modifies this
      ensures Valid() && State() == SetText(old(State()), TIME_AT, time)
    {
      children := children[TIME_AT := WithText(children[TIME_AT], time)];
    }

    method SetHost(nodelabel: string)
      requires Valid()
      modifies this
      ensures Valid() && State() == Append(old(State()), C.EVENT_XMLTAG_HOST, nodelabel)
    {
      var tagHost := WithText(Element(C.EVENT_XMLTAG_HOST, map[], []), nodelabel);
      children := children + [tagHost];
    }

    method SetService(service: string)
      requires Valid()
      modifies this
      ensures Valid() && State() == Append(old(State()), C.EVENT_XMLTAG_SERVICE, service)
    {
      var tagService := WithText(Element(C.EVENT_XMLTAG_SERVICE, map[], []), service);
      children := children + [tagService];
    }

    method SetSeverity(severity: string) returns (o: Outcome)
      requires Valid()
      modifies this
      ensures Valid()
      ensures match WithSeverity(old(State()), severity)
        case Ok(st) => o == Pass && State() == st
        case Fail(e) => o == Failed(e) && State() == old(State())
    {
      var tagSeverity := Element(C.EVENT_XMLTAG_SEVERITY, map[], []);
      var name := ResolvSeverity(severity);
      if name.Fail? {
        return Failed(name.error);
      }
      tagSeverity := WithText(tagSeverity, name.value);
      children := children + [tagSeverity];
      return Pass;
    }

    method SetDescription(description: string)
      requires Valid()
      modifies this
      ensures Valid() && State() == Append(old(State()), C.EVENT_XMLTAG_DESCRIPTION, description)
    {
      var tagDescription := WithText(Element(C.EVENT_XMLTAG_DESCRIPTION, map[], []), description);
      children := children + [tagDescription];
    }

    method SetOperinstruct(operinstruct: string)
      requires Valid()
      modifies this
      ensures Valid() && State() == Append(old(State()), C.EVENT_XMLTAG_OPERINSTRUCT, operinstruct)
    {
      var tagOperinstruct := WithText(Element(C.EVENT_XMLTAG_OPERINSTRUCT, map[], []), operinstruct);
      children := children + [tagOperinstruct];
    }

    method AddParm(key: string, value: string)
      requires Valid()
      modifies this
      ensures Valid() && State() == WithParm(old(State()), key, value)
    {
      var tagParm := Parm(key, value);
      if parmsAt == None {
        var tagParms := Element(C.EVENT_XMLTAG_PARMS, map[], [tagParm]);
        parmsAt := Some(|children|);
        children := children + [tagParms];
      } else {
        var p := parmsAt.value;
        children := children[p := children[p].(children := children[p].children + [tagParm])];
      }
    }
  }
}
