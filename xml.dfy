/** The events a streaming XML writer receives: start-element with its ordered attributes,
    CDATA text and end-element (which closes the innermost open element, as an xml-rs
    `XmlEvent::end_element()` without a name does). The element tree such a stream
    describes, its flattening into events, and the parser that reads the tree back. */
module Xml {
  import opened Wrappers

  /** One attribute of a start-element: name and text, in the order written. */
  datatype Attribute = Attribute(name: string, value: string)

  datatype XmlEvent =
    | StartElement(name: string, attributes: seq<Attribute>)
    | CData(text: string)
    | EndElement

  /** An element with its ordered children, or a CDATA section. */
  datatype Node =
    | Element(name: string, attributes: seq<Attribute>, children: seq<Node>)
    | CDataNode(text: string)

  /** The names of a list of attributes, in order. */
  function Names(attrs: seq<Attribute>): (names: seq<string>)
    ensures |names| == |attrs|
    ensures forall i | 0 <= i < |attrs| :: names[i] == attrs[i].name
  {
    if attrs == [] then [] else [attrs[0].name] + Names(attrs[1..])
  }

  /** The writer events that produce node n: start, children, end for an element. */
  function Events(n: Node): (evs: seq<XmlEvent>)
    decreases n
  {
    match n
    case CDataNode(t) => [CData(t)]
    case Element(name, attrs, kids) => [StartElement(name, attrs)] + EventsOf(kids) + [EndElement]
  }

  /** The events of a list of sibling nodes, one after the other. */
  function EventsOf(ns: seq<Node>): seq<XmlEvent>
    decreases ns
  {
    if ns == [] then [] else Events(ns[0]) + EventsOf(ns[1..])
  }

  lemma {:induction false} EventsOfAppend(a: seq<Node>, b: seq<Node>)
    ensures EventsOf(a + b) == EventsOf(a) + EventsOf(b)
  {
    if a == [] {
      assert a + b == b;
    } else {
      assert (a + b)[1..] == a[1..] + b;
      EventsOfAppend(a[1..], b);
    }
  }

  /** The events of an element whose children come in three runs. */
  lemma ElementEventsOfRuns(name: string, attrs: seq<Attribute>, a: seq<Node>, b: seq<Node>, c: seq<Node>)
    ensures Events(Element(name, attrs, a + b + c))
            == [StartElement(name, attrs)] + EventsOf(a) + EventsOf(b) + EventsOf(c) + [EndElement]
  {
    EventsOfAppend(a, b);
    EventsOfAppend(a + b, c);
  }

  lemma EventsOfSingle(n: Node)
    ensures EventsOf([n]) == Events(n)
  {
    assert [n][1..] == [];
  }

  // ---------------------------------------------------------------------------
  // Nesting depth

  function Delta(e: XmlEvent): int {
    match e
    case StartElement(_, _) => 1
    case CData(_) => 0
    case EndElement => -1
  }

  /** Elements opened minus elements closed. */
  function Depth(evs: seq<XmlEvent>): int {
    if evs == [] then 0 else Depth(evs[..|evs| - 1]) + Delta(evs[|evs| - 1])
  }

  lemma {:induction false} DepthAppend(a: seq<XmlEvent>, b: seq<XmlEvent>)
    ensures Depth(a + b) == Depth(a) + Depth(b)
  {
    if b == [] {
      assert a + b == a;
    } else {
      assert (a + b)[..|a + b| - 1] == a + b[..|b| - 1];
      DepthAppend(a, b[..|b| - 1]);
    }
  }

  /** Every end-element closes an element opened before it, and none is left open. */
  predicate WellNested(evs: seq<XmlEvent>) {
    && Depth(evs) == 0
    && forall k | 0 <= k <= |evs| :: Depth(evs[..k]) >= 0
  }

  /** A single element: it opens first, closes last, and is open in between, so every
      other event, CDATA included, lies inside it. */
  predicate SingleRooted(evs: seq<XmlEvent>) {
    && |evs| >= 2
    && evs[0].StartElement?
    && evs[|evs| - 1] == EndElement
    && WellNested(evs)
    && forall k | 0 < k < |evs| :: Depth(evs[..k]) > 0
  }

  lemma PrefixOfAppend(a: seq<XmlEvent>, b: seq<XmlEvent>, k: nat)
    requires k <= |a| + |b|
    ensures (a + b)[..k] == if k <= |a| then a[..k] else a + b[..k - |a|]
  {
  }

  lemma WellNestedConcat(a: seq<XmlEvent>, b: seq<XmlEvent>)
    requires WellNested(a) && WellNested(b)
    ensures WellNested(a + b)
  {
    DepthAppend(a, b);
    forall k | 0 <= k <= |a + b|
      ensures Depth((a + b)[..k]) >= 0
    {
      PrefixOfAppend(a, b, k);
      if k > |a| {
        DepthAppend(a, b[..k - |a|]);
      }
    }
  }

  lemma WrapSingleRooted(name: string, attrs: seq<Attribute>, body: seq<XmlEvent>)
    requires WellNested(body)
    ensures SingleRooted([StartElement(name, attrs)] + body + [EndElement])
  {
    var s := [StartElement(name, attrs)];
    var evs := s + body + [EndElement];
    DepthAppend(s, body);
    DepthAppend(s + body, [EndElement]);
    assert evs[..|evs| - 1] == s + body;
    forall k | 0 < k < |evs|
      ensures Depth(evs[..k]) > 0
    {
      assert evs[..k] == s + body[..k - 1];
      DepthAppend(s, body[..k - 1]);
    }
    assert evs[..0] == [];
    assert evs[..|evs|] == evs;
  }

  /** The events of any node or forest are well nested; those of an element form a single
      rooted element. */
  lemma {:induction false} NodeWellNested(n: Node)
    ensures WellNested(Events(n))
    ensures n.Element? ==> SingleRooted(Events(n))
    decreases n
  {
    match n
    case CDataNode(t) =>
      var evs := Events(n);
      assert evs[..0] == [] && evs[..1] == evs;
      assert Depth(evs) == Depth([]) + Delta(CData(t));
    case Element(name, attrs, kids) =>
      ForestWellNested(kids);
      WrapSingleRooted(name, attrs, EventsOf(kids));
  }

  lemma {:induction false} ForestWellNested(ns: seq<Node>)
    ensures WellNested(EventsOf(ns))
    decreases ns
  {
    if ns == [] {
      assert EventsOf(ns)[..0] == [];
    } else {
      NodeWellNested(ns[0]);
      ForestWellNested(ns[1..]);
      WellNestedConcat(Events(ns[0]), EventsOf(ns[1..]));
    }
  }

  // ---------------------------------------------------------------------------
  // Reading events back into a tree

  /** Reads sibling nodes from the front of evs, stopping at the end of the stream, at an
      end-element that closes their parent, or at an element that is never closed; returns
      the nodes read and the events not consumed. */
  function ParseNodes(evs: seq<XmlEvent>): (r: (seq<Node>, seq<XmlEvent>))
    ensures |r.1| <= |evs|
    decreases |evs|
  {
    if evs == [] then ([], [])
    else match evs[0]
      case EndElement => ([], evs)
      case CData(t) =>
        var (ns, rest) := ParseNodes(evs[1..]);
        ([CDataNode(t)] + ns, rest)
      case StartElement(name, attrs) =>
        var (kids, rest) := ParseNodes(evs[1..]);
        if rest != [] && rest[0] == EndElement then
          var (ns, rest') := ParseNodes(rest[1..]);
          ([Element(name, attrs, kids)] + ns, rest')
        else
          ([], evs)
  }

  /** Reads a whole stream as one node; fails unless the stream is exactly one node. */
  function Parse(evs: seq<XmlEvent>): (r: Option<Node>)
  {
    var (ns, rest) := ParseNodes(evs);
    if |ns| == 1 && rest == [] then Some(ns[0]) else None
  }

  /** Parsing the events of a forest, followed by the end of the stream or by the
      end-element of the parent, gives back the forest and leaves the rest. */
  lemma {:induction false} ParseEventsOf(ns: seq<Node>, tail: seq<XmlEvent>)
    requires tail == [] || tail[0] == EndElement
    ensures ParseNodes(EventsOf(ns) + tail) == (ns, tail)
    decreases ns, 1
  {
    if ns == [] {
      assert EventsOf(ns) + tail == tail;
    } else {
      var after := EventsOf(ns[1..]) + tail;
      assert EventsOf(ns) + tail == Events(ns[0]) + after;
      ParseEventsOf(ns[1..], tail);
      ParseNodeThen(ns[0], ns[1..], tail);
      assert [ns[0]] + ns[1..] == ns;
    }
  }

  lemma {:induction false} ParseNodeThen(n: Node, ns: seq<Node>, tail: seq<XmlEvent>)
    requires tail == [] || tail[0] == EndElement
    requires ParseNodes(EventsOf(ns) + tail) == (ns, tail)
    ensures ParseNodes(Events(n) + (EventsOf(ns) + tail)) == ([n] + ns, tail)
    decreases n
  {
    var after := EventsOf(ns) + tail;
    var evs := Events(n) + after;
    match n
    case CDataNode(t) =>
      assert evs[0] == CData(t) && evs[1..] == after;
    case Element(name, attrs, kids) =>
      var rest := [EndElement] + after;
      var inner := EventsOf(kids) + rest;
      assert evs == [StartElement(name, attrs)] + inner;
      assert evs[0] == StartElement(name, attrs) && evs[1..] == inner;
      ParseEventsOf(kids, rest);
      assert rest != [] && rest[0] == EndElement && rest[1..] == after;
  }

  /** The event stream of a node determines the node: reading it back gives the node. */
  lemma ParseEvents(n: Node)
    ensures Parse(Events(n)) == Some(n)
  {
    ParseEventsOf([n], []);
    assert EventsOf([n]) + [] == Events(n) by {
      assert [n][1..] == [];
    }
  }

  /** Two nodes with the same event stream are the same node. */
  lemma EventsInjective(m: Node, n: Node)
    requires Events(m) == Events(n)
    ensures m == n
  {
    ParseEvents(m);
    ParseEvents(n);
  }
}
