/** Element trees with namespaces: names resolved as section 6.1 of Namespaces in XML 1.0 asks, the
    scope stack that resolves type names from parser events, and the depth bound. */
module Xml {
  import opened Text

  datatype QName = QName(uri: string, local: string)

  /** A name as it is written in a document. */
  datatype Prefixed = Prefixed(prefix: string, local: string)

  type Declarations = seq<(string, string)>

  type Bindings = map<string, string>

  /** An element as it is written. */
  datatype Element = Element(name: Prefixed, decls: Declarations, attrs: seq<(Prefixed, string)>, text: string,
                             children: seq<Element>)

  /** An element as a parser hands it over, with its names resolved. */
  datatype Node = Node(tag: QName, decls: Declarations, attrs: seq<(QName, string)>, text: string, children: seq<Node>)

  const XSI := "http://www.w3.org/2001/XMLSchema-instance"
  const VALUE := QName("", "Value")

  // ----- Scopes -----

  /** The bindings that one element declares. */
  function Bound(decls: Declarations): Bindings {
    if decls == [] then map[]
    else Bound(decls[..|decls| - 1])[decls[|decls| - 1].0 := decls[|decls| - 1].1]
  }

  function Lookup(b: Bindings, prefix: string): string { if prefix in b then b[prefix] else "" }

  function ResolveTag(n: Prefixed, b: Bindings): Option<QName> {
    if n.prefix == "" then Some(QName(Lookup(b, ""), n.local))
    else if n.prefix in b then Some(QName(b[n.prefix], n.local))
    else None
  }

  function ResolveAttr(n: Prefixed, b: Bindings): Option<QName> {
    if n.prefix == "" then Some(QName("", n.local)) else ResolveTag(n, b)
  }

  function ResolveAttrs(attrs: seq<(Prefixed, string)>, b: Bindings): Option<seq<(QName, string)>> {
    if attrs == [] then Some([])
    else
      var first, rest := ResolveAttr(attrs[0].0, b), ResolveAttrs(attrs[1..], b);
      if first.None? || rest.None? then None else Some([(first.value, attrs[0].1)] + rest.value)
  }

  /** The parsed tree of a written one; None when a prefix is not bound. */
  function Resolve(e: Element, outer: Bindings): Option<Node> {
    var b := outer + Bound(e.decls);
    var tag, attrs, children := ResolveTag(e.name, b), ResolveAttrs(e.attrs, b), ResolveAll(e.children, b);
    if tag.None? || attrs.None? || children.None? then None
    else Some(Node(tag.value, e.decls, attrs.value, e.text, children.value))
  }

  function ResolveAll(es: seq<Element>, b: Bindings): Option<seq<Node>> {
    if es == [] then Some([])
    else
      var first, rest := Resolve(es[0], b), ResolveAll(es[1..], b);
      if first.None? || rest.None? then None else Some([first.value] + rest.value)
  }

  function Attribute(attrs: seq<(QName, string)>, name: QName): Option<string> {
    if attrs == [] then None else if attrs[0].0 == name then Some(attrs[0].1) else Attribute(attrs[1..], name)
  }

  // ----- Resolving type names -----

  /** What precedes the first colon and what follows it, if there is one. */
  function Partition(s: string): Option<(string, string)> {
    if s == "" then None
    else if s[0] == ':' then Some(("", s[1..]))
    else
      match Partition(s[1..])
      case None => None
      case Some(parts) => Some(([s[0]] + parts.0, parts.1))
  }

  /** A type name in a scope; an unprefixed one takes the default namespace. */
  function ResolveType(kind: string, b: Bindings): QName {
    match Partition(kind)
    case None => QName(Lookup(b, ""), kind)
    case Some(parts) => QName(Lookup(b, parts.0), parts.1)
  }

  function TypeAttribute(n: Node): string {
    match Attribute(n.attrs, QName(XSI, "type"))
    case None => ""
    case Some(kind) => kind
  }

  /** The types of all Value elements in document order, each in the scope of its own element: a declaration
      holds for the element that carries it and for everything inside. */
  function Types(n: Node, outer: Bindings): seq<QName> {
    var b := outer + Bound(n.decls);
    (if n.tag == VALUE then [ResolveType(TypeAttribute(n), b)] else []) + TypesAll(n.children, b)
  }

  function TypesAll(ns: seq<Node>, b: Bindings): seq<QName> {
    if ns == [] then [] else Types(ns[0], b) + TypesAll(ns[1..], b)
  }

  // ----- The event stream -----

  datatype Event = StartNs(prefix: string, uri: string) | Start(tag: QName, kind: string) | End

  function DeclarationEvents(decls: Declarations): seq<Event> {
    if decls == [] then []
    else DeclarationEvents(decls[..|decls| - 1]) + [StartNs(decls[|decls| - 1].0, decls[|decls| - 1].1)]
  }

  /** The events of a tree: its declarations, its start, its children, its end. */
  function Events(n: Node): seq<Event> {
    DeclarationEvents(n.decls) + ([Start(n.tag, TypeAttribute(n))] + (EventsAll(n.children) + [End]))
  }

  function EventsAll(ns: seq<Node>): seq<Event> {
    if ns == [] then [] else Events(ns[0]) + EventsAll(ns[1..])
  }

  /** The variables of the resolving loop. */
  datatype Stack = Stack(scopes: seq<Bindings>, pending: Bindings, result: seq<QName>)

  function Step(s: Stack, e: Event): Stack {
    match e
    case StartNs(prefix, uri) => s.(pending := s.pending[prefix := uri])
    case Start(tag, kind) =>
      if s.scopes == [] then s
      else
        var b := s.scopes[|s.scopes| - 1] + s.pending;
        Stack(s.scopes + [b], map[], s.result + if tag == VALUE then [ResolveType(kind, b)] else [])
    case End => if s.scopes == [] then s else s.(scopes := s.scopes[..|s.scopes| - 1])
  }

  function RunEvents(s: Stack, events: seq<Event>): Stack
    decreases |events|
  {
    if events == [] then s else RunEvents(Step(s, events[0]), events[1..])
  }

  lemma {:induction false} RunAppend(s: Stack, a: seq<Event>, b: seq<Event>)
    ensures RunEvents(s, a + b) == RunEvents(RunEvents(s, a), b)
    decreases |a|
  {
    hide Step;
    if a == [] {
      assert a + b == b;
    } else {
      assert (a + b)[1..] == a[1..] + b;
      RunAppend(Step(s, a[0]), a[1..], b);
    }
  }

  lemma RunOne(s: Stack, e: Event)
    ensures RunEvents(s, [e]) == Step(s, e)
  {}

  lemma {:induction false} RunDeclarations(s: Stack, decls: Declarations)
    ensures RunEvents(s, DeclarationEvents(decls)) == s.(pending := s.pending + Bound(decls))
  {
    if decls != [] {
      var n := |decls| - 1;
      RunDeclarations(s, decls[..n]);
      RunAppend(s, DeclarationEvents(decls[..n]), [StartNs(decls[n].0, decls[n].1)]);
      RunOne(RunEvents(s, DeclarationEvents(decls[..n])), StartNs(decls[n].0, decls[n].1));
      assert (s.pending + Bound(decls[..n]))[decls[n].0 := decls[n].1] == s.pending + Bound(decls);
    } else {
      assert s.pending + map[] == s.pending;
    }
  }

  /** What a tree says of itself, before its children. */
  function OwnTypes(n: Node, b: Bindings): seq<QName> {
    if n.tag == VALUE then [ResolveType(TypeAttribute(n), b)] else []
  }

  lemma OpenScope(s: Stack, n: Node, b: Bindings)
    requires s.scopes != [] && b == s.scopes[|s.scopes| - 1] + s.pending
    ensures Step(s, Start(n.tag, TypeAttribute(n))) == Stack(s.scopes + [b], map[], s.result + OwnTypes(n, b))
  {
    hide ResolveType, TypeAttribute;
  }

  lemma CloseScope(s: Stack, scopes: seq<Bindings>, b: Bindings)
    requires s.scopes == scopes + [b]
    ensures Step(s, End) == s.(scopes := scopes)
  {}

  /** Over the events of a tree, the loop leaves its stack as it was and adds the types of the tree. */
  lemma {:induction false} RunTree(s: Stack, n: Node)
    requires s.scopes != [] && s.pending == map[]
    ensures RunEvents(s, Events(n)) == s.(result := s.result + Types(n, s.scopes[|s.scopes| - 1]))
    decreases n
  {
    hide ResolveType, TypeAttribute, OwnTypes, Step, RunEvents, EventsAll, TypesAll, DeclarationEvents, Bound;
    var b := s.scopes[|s.scopes| - 1] + Bound(n.decls);
    var start, inner := [Start(n.tag, TypeAttribute(n))], EventsAll(n.children);
    RunAppend(s, DeclarationEvents(n.decls), start + (inner + [End]));
    RunDeclarations(s, n.decls);
    assert map[] + Bound(n.decls) == Bound(n.decls);
    var s1 := s.(pending := Bound(n.decls));
    RunAppend(s1, start, inner + [End]);
    RunOne(s1, start[0]);
    OpenScope(s1, n, b);
    var s2 := Stack(s.scopes + [b], map[], s.result + OwnTypes(n, b));
    RunAppend(s2, inner, [End]);
    RunForest(s2, n.children);
    var s3 := s2.(result := s2.result + TypesAll(n.children, b));
    RunOne(s3, End);
    CloseScope(s3, s.scopes, b);
    OwnFirst(n, s.scopes[|s.scopes| - 1]);
    assert s.result + OwnTypes(n, b) + TypesAll(n.children, b) == s.result + (OwnTypes(n, b) + TypesAll(n.children, b));
  }

  lemma OwnFirst(n: Node, outer: Bindings)
    ensures var b := outer + Bound(n.decls); Types(n, outer) == OwnTypes(n, b) + TypesAll(n.children, b)
  {
    hide ResolveType, TypeAttribute;
  }

  lemma {:induction false} RunForest(s: Stack, ns: seq<Node>)
    requires s.scopes != [] && s.pending == map[]
    ensures RunEvents(s, EventsAll(ns)) == s.(result := s.result + TypesAll(ns, s.scopes[|s.scopes| - 1]))
    decreases ns
  {
    hide Events, Types, Step;
    if ns != [] {
      RunAppend(s, Events(ns[0]), EventsAll(ns[1..]));
      RunTree(s, ns[0]);
      RunForest(RunEvents(s, Events(ns[0])), ns[1..]);
    }
  }

  /** The stack never runs empty while these events are read. */
  predicate Nested(height: nat, events: seq<Event>)
    decreases |events|
  {
    if events == [] then true
    else
      match events[0]
      case StartNs(_, _) => Nested(height, events[1..])
      case Start(_, _) => height > 0 && Nested(height + 1, events[1..])
      case End => height > 0 && Nested(height - 1, events[1..])
  }

  lemma {:induction false} NestedDeclarations(height: nat, decls: Declarations, rest: seq<Event>)
    requires Nested(height, rest)
    ensures Nested(height, DeclarationEvents(decls) + rest)
  {
    if decls == [] {
      assert [] + rest == rest;
    } else {
      var n := |decls| - 1;
      var last := [StartNs(decls[n].0, decls[n].1)];
      assert (last + rest)[1..] == rest;
      NestedDeclarations(height, decls[..n], last + rest);
      assert DeclarationEvents(decls) + rest == DeclarationEvents(decls[..n]) + (last + rest);
    }
  }

  lemma {:induction false} NestedTree(height: nat, n: Node, rest: seq<Event>)
    requires height > 0 && Nested(height, rest)
    ensures Nested(height, Events(n) + rest)
    decreases n
  {
    var start := [Start(n.tag, TypeAttribute(n))];
    var inner := EventsAll(n.children) + ([End] + rest);
    assert ([End] + rest)[1..] == rest;
    NestedForest(height + 1, n.children, [End] + rest);
    assert (start + inner)[1..] == inner;
    NestedDeclarations(height, n.decls, start + inner);
    assert Events(n) + rest == DeclarationEvents(n.decls) + (start + inner);
  }

  lemma {:induction false} NestedForest(height: nat, ns: seq<Node>, rest: seq<Event>)
    requires height > 0 && Nested(height, rest)
    ensures Nested(height, EventsAll(ns) + rest)
    decreases ns
  {
    hide Events;
    if ns == [] {
      assert [] + rest == rest;
    } else {
      NestedForest(height, ns[1..], rest);
      NestedTree(height, ns[0], EventsAll(ns[1..]) + rest);
      assert EventsAll(ns) + rest == Events(ns[0]) + (EventsAll(ns[1..]) + rest);
    }
  }

  /** The loop over the events of a document, with its stack of scopes, returns exactly the recursive definition. */
  method ValueTypes(root: Node) returns (result: seq<QName>)
    ensures result == Types(root, map[])
  {
    hide ResolveType, TypeAttribute, Types;
    var events := Events(root);
    var scopes: seq<Bindings>, pending: Bindings := [map[]], map[];
    result := [];
    ghost var first := Stack([map[]], map[], []);
    NestedTree(1, root, []);
    assert events + [] == events && events[0..] == events;
    RunTree(first, root);
    for i := 0 to |events|
      invariant RunEvents(first, events) == RunEvents(Stack(scopes, pending, result), events[i..])
      invariant Nested(|scopes|, events[i..])
    {
      assert events[i..][0] == events[i] && events[i..][1..] == events[i + 1..];
      ghost var next := Step(Stack(scopes, pending, result), events[i]);
      match events[i] {
        case StartNs(prefix, uri) =>
          pending := pending[prefix := uri];
        case Start(tag, kind) =>
          scopes := scopes + [scopes[|scopes| - 1] + pending];
          pending := map[];
          if tag == VALUE {
            result := result + [ResolveType(kind, scopes[|scopes| - 1])];
          }
        case End =>
          scopes := scopes[..|scopes| - 1];
      }
      assert Stack(scopes, pending, result) == next;
    }
  }

  // ----- Depth -----

  function Height(n: Node): (h: nat)
    ensures h >= 1
  {
    1 + Tallest(n.children)
  }

  function Tallest(ns: seq<Node>): nat {
    if ns == [] then 0
    else
      var rest := Tallest(ns[1..]);
      if Height(ns[0]) >= rest then Height(ns[0]) else rest
  }

  lemma {:induction false} TallestBound(ns: seq<Node>, k: nat)
    ensures Tallest(ns) <= k <==> forall c | c in ns :: Height(c) <= k
  {
    hide Height;
    if ns != [] {
      TallestBound(ns[1..], k);
      assert Tallest(ns) <= k <==> Height(ns[0]) <= k && Tallest(ns[1..]) <= k;
      assert forall c | c in ns :: c == ns[0] || c in ns[1..];
      assert forall c | c in ns[1..] :: c in ns;
    }
  }

  function Size(n: Node): nat { 1 + Sizes(n.children) }

  function Sizes(ns: seq<Node>): nat { if ns == [] then 0 else Size(ns[0]) + Sizes(ns[1..]) }

  lemma {:induction false} SizesAppend(a: seq<Node>, b: seq<Node>)
    ensures Sizes(a + b) == Sizes(a) + Sizes(b)
  {
    hide Size;
    if a == [] {
      assert a + b == b;
    } else {
      assert (a + b)[1..] == a[1..] + b;
      SizesAppend(a[1..], b);
    }
  }

  /** Replacing the last node by its children, one deeper, changes nothing about what still fits. */
  lemma WorklistStep(before: seq<Node>, under: seq<int>, depth: int, nodes: seq<Node>, depths: seq<int>, limit: nat)
    requires before != [] && |under| == |before| && depth == under[|before| - 1] && depth >= 1
    requires forall d | d in under :: d >= 1
    requires var last := |before| - 1; var node := before[last];
             && nodes == before[..last] + node.children
             && depths == under[..last] + seq(|node.children|, i => depth + 1)
             && (Height(node) + depth <= limit + 1 <==>
                   depth <= limit && forall c | c in node.children :: Height(c) + depth <= limit)
             && depth <= limit
    ensures forall d | d in depths :: d >= 1
    ensures (forall i | 0 <= i < |before| :: Height(before[i]) + under[i] <= limit + 1)
        <==> (forall i | 0 <= i < |nodes| :: Height(nodes[i]) + depths[i] <= limit + 1)
  {
    hide Height;
    var last := |before| - 1;
    var node := before[last];
    forall d | d in depths ensures d >= 1 {
      var k :| 0 <= k < |depths| && depths[k] == d;
      assert k < last ==> under[k] in under;
    }
    if forall i | 0 <= i < |before| :: Height(before[i]) + under[i] <= limit + 1 {
      forall i | 0 <= i < |nodes| ensures Height(nodes[i]) + depths[i] <= limit + 1 {
        if i < last { assert Height(before[i]) + under[i] <= limit + 1; } else { assert nodes[i] in node.children; }
      }
    }
    if forall i | 0 <= i < |nodes| :: Height(nodes[i]) + depths[i] <= limit + 1 {
      forall i | 0 <= i < last ensures Height(before[i]) + under[i] <= limit + 1 {
        assert Height(nodes[i]) + depths[i] <= limit + 1;
      }
      forall c | c in node.children ensures Height(c) + depth <= limit {
        var k :| 0 <= k < |node.children| && node.children[k] == c;
        assert Height(nodes[last + k]) + depths[last + k] <= limit + 1;
      }
    }
  }

  /** The worklist that refuses documents deeper than the limit. */
  method Shallow(root: Node, limit: nat) returns (ok: bool)
    ensures ok <==> Height(root) <= limit
  {
    hide Size, Height;
    var nodes, depths := [root], [1];
    while nodes != []
      invariant |nodes| == |depths|
      invariant forall d | d in depths :: d >= 1
      invariant Height(root) <= limit <==> forall i | 0 <= i < |nodes| :: Height(nodes[i]) + depths[i] <= limit + 1
      decreases Sizes(nodes)
    {
      var last := |nodes| - 1;
      var node, depth := nodes[last], depths[last];
      assert depth in depths;
      HeightUnder(node, depth, limit);
      if depth > limit { return false; }
      SizesAppend(nodes[..last], [node]);
      SizesAppend(nodes[..last], node.children);
      SizeUnder(node);
      assert nodes == nodes[..last] + [node];
      ghost var before, under := nodes, depths;
      nodes := nodes[..last] + node.children;
      depths := depths[..last] + seq(|node.children|, i => depth + 1);
      WorklistStep(before, under, depth, nodes, depths, limit);
    }
    return true;
  }

  lemma HeightUnder(n: Node, depth: nat, limit: nat)
    requires depth >= 1
    ensures Height(n) + depth <= limit + 1 <==>
      depth <= limit && forall c | c in n.children :: Height(c) + depth <= limit
  {
    if depth <= limit { TallestBound(n.children, limit - depth); }
  }

  lemma SizeUnder(n: Node)
    ensures Size(n) == 1 + Sizes(n.children) && Sizes([n]) == Size(n)
  {}
}
