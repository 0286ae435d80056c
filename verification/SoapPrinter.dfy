/** Replies and requests written as element trees, and the round trip through the parser. */
module SoapPrinter {
  import opened Text
  import opened Domain
  import opened Numbers
  import opened Xml
  import opened Soap

  const RPC_ID := "anonymized-query-001"

  // ----- Writing -----

  function Leaf(local: string, text: string): Element { Element(Prefixed("", local), [], [], text, []) }

  function Branch(prefix: string, local: string, children: seq<Element>): Element {
    Element(Prefixed(prefix, local), [], [], "", children)
  }

  /** An envelope around one element; `more` is declared beside the two prefixes every envelope has. */
  function Envelope(id: string, more: Declarations, rpc: Element): Element {
    Element(Prefixed("soap", "Envelope"), [("soap", SOAP), ("cwmp", CWMP)] + more, [], "",
            [Branch("soap", "Header",
                    [Element(Prefixed("cwmp", "ID"), [], [(Prefixed("soap", "mustUnderstand"), "1")], id, [])]),
             Branch("soap", "Body", [rpc])])
  }

  function CountOf(item: string, n: nat): string { item + "[" + Decimal(n) + "]" }

  function WrittenList(item: string, entries: seq<Element>): Element {
    Element(Prefixed("", "ParameterList"), [], [(Prefixed("enc", "arrayType"), CountOf("cwmp:" + item, |entries|))], "",
            entries)
  }

  function WrittenValue(q: Parameter): Element {
    Branch("", "ParameterValueStruct",
           [Leaf("Name", q.name), Element(Prefixed("", "Value"), [], [(Prefixed("xsi", "type"), q.xsdType)], q.value,
                                          [])])
  }

  function WrittenInfo(i: Info): Element {
    Branch("", "ParameterInfoStruct", [Leaf("Name", i.name), Leaf("Writable", if i.writable then "true" else "false")])
  }

  function WrittenValues(ps: seq<Parameter>): seq<Element> {
    if ps == [] then [] else [WrittenValue(ps[0])] + WrittenValues(ps[1..])
  }

  function WrittenInfos(infos: seq<Info>): seq<Element> {
    if infos == [] then [] else [WrittenInfo(infos[0])] + WrittenInfos(infos[1..])
  }

  function WrittenFault(code: nat): Element {
    Branch("soap", "Fault",
           [Leaf("faultcode", "soap:Client"), Leaf("faultstring", "REDACTED"),
            Branch("", "detail", [Branch("cwmp", "Fault",
                                         [Leaf("FaultCode", Decimal(code)), Leaf("FaultString", "REDACTED")])])])
  }

  /** The printed reply: entries sorted by name, under a fixed request identifier. */
  function Response(reply: Reply): Element {
    match reply
    case FaultReply(_, code) => Envelope(RPC_ID, [], WrittenFault(if code >= 0 then code else 0))
    case NamesReply(_, names) =>
      Envelope(RPC_ID, [("enc", ENC)],
               Branch("cwmp", "GetParameterNamesResponse",
                      [WrittenList("ParameterInfoStruct", WrittenInfos(SortBy(InfoName, names)))]))
    case ValuesReply(_, ps) =>
      Envelope(RPC_ID, [("enc", ENC), ("xsi", XSI), ("xsd", XSD)],
               Branch("cwmp", "GetParameterValuesResponse",
                      [WrittenList("ParameterValueStruct", WrittenValues(SortBy(ParameterName, ps)))]))
  }

  function WrittenNames(names: seq<string>): seq<Element> {
    if names == [] then [] else [Leaf("string", names[0])] + WrittenNames(names[1..])
  }

  /** The request for a plan: the next level of its path, or the values of its names in order. */
  function Request(id: string, kind: Kind, plan: Plan): Element {
    match kind
    case GetNames =>
      Envelope(id, [], Branch("cwmp", "GetParameterNames",
                              [Leaf("ParameterPath", plan.path), Leaf("NextLevel", "true")]))
    case GetValues =>
      Envelope(id, [("enc", ENC), ("xsd", XSD)],
               Branch("cwmp", "GetParameterValues",
                      [Element(Prefixed("", "ParameterNames"), [],
                               [(Prefixed("enc", "arrayType"), CountOf("xsd:string", |plan.names|))],
                               "", WrittenNames(plan.names))]))
  }

  /** A reply with its entries sorted by name and its identifier replaced. */
  function SortedReply(reply: Reply): Reply {
    match reply
    case FaultReply(_, code) => FaultReply(RPC_ID, code)
    case NamesReply(_, names) => NamesReply(RPC_ID, SortBy(InfoName, names))
    case ValuesReply(_, ps) => ValuesReply(RPC_ID, SortBy(ParameterName, ps))
  }

  // ----- The trees a parser makes of them -----

  function LeafNode(tag: QName, text: string): Node { Node(tag, [], [], text, []) }

  function BranchNode(tag: QName, children: seq<Node>): Node { Node(tag, [], [], "", children) }

  function EnvelopeNode(id: string, more: Declarations, rpc: Node): Node {
    Node(QName(SOAP, "Envelope"), [("soap", SOAP), ("cwmp", CWMP)] + more, [], "",
         [BranchNode(QName(SOAP, "Header"),
                     [Node(QName(CWMP, "ID"), [], [(QName(SOAP, "mustUnderstand"), "1")], id, [])]),
          BranchNode(QName(SOAP, "Body"), [rpc])])
  }

  function ListNode(item: string, entries: seq<Node>): Node {
    Node(Local("ParameterList"), [], [(QName(ENC, "arrayType"), CountOf("cwmp:" + item, |entries|))], "", entries)
  }

  function ValueNode(q: Parameter): Node {
    BranchNode(Local("ParameterValueStruct"),
               [LeafNode(Local("Name"), q.name), Node(VALUE, [], [(QName(XSI, "type"), q.xsdType)], q.value, [])])
  }

  function InfoNode(i: Info): Node {
    BranchNode(Local("ParameterInfoStruct"),
               [LeafNode(Local("Name"), i.name), LeafNode(Local("Writable"), if i.writable then "true" else "false")])
  }

  function ValueNodes(ps: seq<Parameter>): (r: seq<Node>)
    ensures |r| == |ps| && forall i | 0 <= i < |ps| :: r[i] == ValueNode(ps[i])
  {
    if ps == [] then [] else [ValueNode(ps[0])] + ValueNodes(ps[1..])
  }

  function InfoNodes(infos: seq<Info>): (r: seq<Node>)
    ensures |r| == |infos| && forall i | 0 <= i < |infos| :: r[i] == InfoNode(infos[i])
  {
    if infos == [] then [] else [InfoNode(infos[0])] + InfoNodes(infos[1..])
  }

  function FaultNode(code: nat): Node {
    BranchNode(QName(SOAP, "Fault"),
               [LeafNode(Local("faultcode"), "soap:Client"), LeafNode(Local("faultstring"), "REDACTED"),
                BranchNode(Local("detail"),
                           [BranchNode(QName(CWMP, "Fault"),
                                       [LeafNode(Local("FaultCode"), Decimal(code)),
                                        LeafNode(Local("FaultString"), "REDACTED")])])])
  }

  // ----- Resolving what was written -----

  /** Prefixes mean what the printer takes them to mean, and unprefixed names have no namespace. */
  predicate Standard(b: Bindings) {
    "" !in b && "soap" in b && b["soap"] == SOAP && "cwmp" in b && b["cwmp"] == CWMP
  }

  function Space(prefix: string): string { if prefix == "soap" then SOAP else if prefix == "cwmp" then CWMP else "" }

  lemma Undeclared(b: Bindings)
    ensures b + Bound([]) == b
  {}

  lemma ResolveLeaf(local: string, text: string, b: Bindings)
    requires Standard(b)
    ensures Resolve(Leaf(local, text), b) == Some(LeafNode(Local(local), text))
  {}

  lemma ResolveBranch(prefix: string, local: string, children: seq<Element>, nodes: seq<Node>, b: Bindings)
    requires Standard(b) && prefix in {"", "soap", "cwmp"} && ResolveAll(children, b) == Some(nodes)
    ensures Resolve(Branch(prefix, local, children), b) == Some(BranchNode(QName(Space(prefix), local), nodes))
  {
    hide ResolveAll;
    Undeclared(b);
  }

  lemma ResolveAttribute(e: Element, b: Bindings, tag: QName, attr: QName)
    requires e.decls == [] && |e.attrs| == 1 && ResolveTag(e.name, b) == Some(tag)
             && ResolveAttr(e.attrs[0].0, b) == Some(attr)
    requires ResolveAll(e.children, b).Some?
    ensures Resolve(e, b) == Some(Node(tag, [], [(attr, e.attrs[0].1)], e.text, ResolveAll(e.children, b).value))
  {
    Undeclared(b);
    assert e.attrs == [e.attrs[0]] && e.attrs[1..] == [];
    var one := (attr, e.attrs[0].1);
    assert ResolveAttrs([], b) == Some([]) && [one] + [] == [one];
    assert ResolveAttrs(e.attrs, b) == Some([one]);
  }

  lemma ResolveOne(e: Element, n: Node, b: Bindings)
    requires Resolve(e, b) == Some(n)
    ensures ResolveAll([e], b) == Some([n])
  {
    assert [e][1..] == [] && ResolveAll([], b) == Some([]) && [n] + [] == [n];
  }

  lemma ResolveTwo(e: Element, f: Element, n: Node, m: Node, b: Bindings)
    requires Resolve(e, b) == Some(n) && Resolve(f, b) == Some(m)
    ensures ResolveAll([e, f], b) == Some([n, m])
  {
    assert [e, f][1..] == [f] && [n] + [m] == [n, m];
    ResolveOne(f, m, b);
  }

  lemma ResolveValue(q: Parameter, b: Bindings)
    requires Standard(b) && "xsi" in b && b["xsi"] == XSI
    ensures Resolve(WrittenValue(q), b) == Some(ValueNode(q))
  {
    hide Resolve;
    var value := Element(Prefixed("", "Value"), [], [(Prefixed("xsi", "type"), q.xsdType)], q.value, []);
    ResolveLeaf("Name", q.name, b);
    ResolveAttribute(value, b, VALUE, QName(XSI, "type"));
    ResolveTwo(Leaf("Name", q.name), value, LeafNode(Local("Name"), q.name),
               Node(VALUE, [], [(QName(XSI, "type"), q.xsdType)], q.value, []), b);
    ResolveBranch("", "ParameterValueStruct", [Leaf("Name", q.name), value], ValueNode(q).children, b);
  }

  lemma ResolveInfo(i: Info, b: Bindings)
    requires Standard(b)
    ensures Resolve(WrittenInfo(i), b) == Some(InfoNode(i))
  {
    hide Resolve;
    var writable := if i.writable then "true" else "false";
    ResolveLeaf("Name", i.name, b);
    ResolveLeaf("Writable", writable, b);
    ResolveTwo(Leaf("Name", i.name), Leaf("Writable", writable), LeafNode(Local("Name"), i.name),
               LeafNode(Local("Writable"), writable), b);
    ResolveBranch("", "ParameterInfoStruct", WrittenInfo(i).children, InfoNode(i).children, b);
  }

  lemma {:induction false} ResolveValues(ps: seq<Parameter>, b: Bindings)
    requires Standard(b) && "xsi" in b && b["xsi"] == XSI
    ensures ResolveAll(WrittenValues(ps), b) == Some(ValueNodes(ps)) && |WrittenValues(ps)| == |ps|
  {
    hide Resolve, WrittenValue, ValueNode;
    if ps != [] {
      ResolveValue(ps[0], b);
      ResolveValues(ps[1..], b);
      assert WrittenValues(ps)[0] == WrittenValue(ps[0]) && WrittenValues(ps)[1..] == WrittenValues(ps[1..]);
    }
  }

  lemma {:induction false} ResolveInfos(infos: seq<Info>, b: Bindings)
    requires Standard(b)
    ensures ResolveAll(WrittenInfos(infos), b) == Some(InfoNodes(infos)) && |WrittenInfos(infos)| == |infos|
  {
    hide Resolve, WrittenInfo, InfoNode;
    if infos != [] {
      ResolveInfo(infos[0], b);
      ResolveInfos(infos[1..], b);
      assert WrittenInfos(infos)[0] == WrittenInfo(infos[0]) && WrittenInfos(infos)[1..] == WrittenInfos(infos[1..]);
    }
  }

  lemma ResolveList(tag: string, item: string, entries: seq<Element>, nodes: seq<Node>, b: Bindings)
    requires Standard(b) && "enc" in b && b["enc"] == ENC && ResolveAll(entries, b) == Some(nodes)
             && |entries| == |nodes|
    ensures Resolve(Branch("cwmp", tag, [WrittenList(item, entries)]), b)
            == Some(BranchNode(QName(CWMP, tag), [ListNode(item, nodes)]))
  {
    hide Resolve, ResolveAll;
    ResolveAttribute(WrittenList(item, entries), b, Local("ParameterList"), QName(ENC, "arrayType"));
    ResolveOne(WrittenList(item, entries), ListNode(item, nodes), b);
    ResolveBranch("cwmp", tag, [WrittenList(item, entries)], [ListNode(item, nodes)], b);
  }

  lemma ResolveFault(code: nat, b: Bindings)
    requires Standard(b)
    ensures Resolve(WrittenFault(code), b) == Some(FaultNode(code))
  {
    hide Resolve, Decimal;
    var pair := [Leaf("FaultCode", Decimal(code)), Leaf("FaultString", "REDACTED")];
    var inner := Branch("cwmp", "Fault", pair);
    var n, d := FaultNode(code), FaultNode(code).children[2];
    ResolveLeaf("FaultCode", Decimal(code), b);
    ResolveLeaf("FaultString", "REDACTED", b);
    ResolveTwo(pair[0], pair[1], d.children[0].children[0], d.children[0].children[1], b);
    ResolveBranch("cwmp", "Fault", pair, d.children[0].children, b);
    ResolveOne(inner, d.children[0], b);
    ResolveBranch("", "detail", [inner], d.children, b);
    ResolveLeaf("faultcode", "soap:Client", b);
    ResolveLeaf("faultstring", "REDACTED", b);
    var parts := WrittenFault(code).children;
    ResolveTwo(parts[1], parts[2], n.children[1], n.children[2], b);
    assert parts[1..] == [parts[1], parts[2]];
    assert ResolveAll(parts, b) == Some(n.children) by {
      assert [n.children[0]] + [n.children[1], n.children[2]] == n.children;
    }
    ResolveBranch("soap", "Fault", parts, n.children, b);
  }

  lemma ResolveEnvelope(id: string, more: Declarations, rpc: Element, node: Node)
    requires var b := Bound([("soap", SOAP), ("cwmp", CWMP)] + more); Standard(b) && Resolve(rpc, b) == Some(node)
    ensures Resolve(Envelope(id, more, rpc), map[]) == Some(EnvelopeNode(id, more, node))
  {
    hide ResolveAll, Bound;
    var b := Bound([("soap", SOAP), ("cwmp", CWMP)] + more);
    var e := Envelope(id, more, rpc);
    var name := Element(Prefixed("cwmp", "ID"), [], [(Prefixed("soap", "mustUnderstand"), "1")], id, []);
    assert map[] + b == b;
    assert ResolveAll([], b) == Some([]) by { Nothing(b); }
    ResolveAttribute(name, b, QName(CWMP, "ID"), QName(SOAP, "mustUnderstand"));
    var idNode := Node(QName(CWMP, "ID"), [], [(QName(SOAP, "mustUnderstand"), "1")], id, []);
    ResolveOne(name, idNode, b);
    ResolveBranch("soap", "Header", [name], [idNode], b);
    ResolveOne(rpc, node, b);
    ResolveBranch("soap", "Body", [rpc], [node], b);
    ResolveTwo(e.children[0], e.children[1], BranchNode(QName(SOAP, "Header"), [idNode]),
               BranchNode(QName(SOAP, "Body"), [node]), b);
    assert ResolveAttrs([], b) == Some([]);
  }

  lemma Nothing(b: Bindings)
    ensures ResolveAll([], b) == Some([])
  {}

  // ----- Parsing it back -----

  lemma CountRead(item: string, n: nat)
    requires item != "" && '[' !in item && ']' !in item
    ensures DeclaredCount(CountOf(item, n)) == Some(n)
  {
    var tail := Decimal(n) + "]";
    assert CountOf(item, n) == item + ['['] + tail;
    SplitPrefix(item, tail, '[');
    assert '[' !in tail;
    SplitNone(tail, '[');
    assert tail[..|tail| - 1] == Decimal(n);
    DecimalValue(n);
  }

  lemma LeafHeight(n: Node)
    requires n.children == []
    ensures Height(n) == 1
  {}

  lemma HeightOver(n: Node, k: nat)
    requires forall c | c in n.children :: Height(c) <= k
    ensures Height(n) <= k + 1
  {
    hide Height;
    HeightOf(n);
    TallestBound(n.children, k);
  }

  lemma HeightOf(n: Node)
    ensures Height(n) == 1 + Tallest(n.children)
  {}

  lemma EnvelopeParses(id: string, more: Declarations, rpc: Node)
    requires 1 <= |id| <= 256 && Height(rpc) <= 10 && (rpc.tag.uri == CWMP || rpc.tag == QName(SOAP, "Fault"))
    ensures ParseEnvelope(EnvelopeNode(id, more, rpc)) == Some((id, rpc))
  {
    hide Height;
    var root := EnvelopeNode(id, more, rpc);
    var header, body := root.children[0], root.children[1];
    var name := header.children[0];
    LeafHeight(name);
    HeightOver(header, 1);
    HeightOver(body, 10);
    HeightOver(root, 11);
    assert header.children == [name] && header.children[1..] == [];
    assert WithTag([], QName(CWMP, "ID")) == [];
    assert Child(header, QName(CWMP, "ID")) == Some(name);
  }

  lemma FieldText(n: Node, a: QName, b: QName, first: string, second: string)
    requires a != b && n.children == [LeafNode(a, first), LeafNode(b, second)]
    ensures FieldsAre(n, [a, b])
    ensures Child(n, a) == Some(LeafNode(a, first)) && Child(n, b) == Some(LeafNode(b, second))
  {
    PairChildren(n, a, b);
  }

  lemma NoStrip(s: string)
    requires s != "" && forall c | c in s :: !Blank(c)
    ensures Strip(s) == s
  {}

  lemma CodeRead(code: nat)
    requires code <= 9999
    ensures UnsignedText(Decimal(code)) == Some(code) && 1 <= |Decimal(code)| <= 16
  {
    var s := Decimal(code);
    NoStrip(s);
    assert s[0] in s;
    DecimalValue(code);
    ShortNumber(code / 10, false);
  }

  lemma FaultParses(id: string, code: nat)
    requires 9000 <= code <= 9999
    ensures ParseFault(id, FaultNode(code)) == Some(FaultReply(id, code)) && Height(FaultNode(code)) <= 10
  {
    hide Height, UnsignedText, Decimal;
    var n := FaultNode(code);
    var detail := n.children[2];
    var inner := detail.children[0];
    CodeRead(code);
    FieldText(inner, Local("FaultCode"), Local("FaultString"), Decimal(code), "REDACTED");
    FaultChildren(n);
    LeafHeight(inner.children[0]);
    LeafHeight(inner.children[1]);
    HeightOver(inner, 1);
    HeightOver(detail, 2);
    LeafHeight(n.children[0]);
    LeafHeight(n.children[1]);
    HeightOver(n, 3);
  }

  lemma FaultChildren(n: Node)
    requires |n.children| == 3 && n.children[0].tag == Local("faultcode") && n.children[1].tag == Local("faultstring")
    requires n.children[2].tag == Local("detail")
    ensures Child(n, Local("faultcode")) == Some(n.children[0]) && Child(n, Local("faultstring")) == Some(n.children[1])
  {
    var s := n.children;
    assert s == [s[0], s[1], s[2]] && s[1..] == [s[1], s[2]] && s[1..][1..] == [s[2]] && s[1..][1..][1..] == [];
    assert Local("faultcode").local[5] != Local("faultstring").local[5];
    assert WithTag([], Local("faultcode")) == [] && WithTag([], Local("faultstring")) == [];
    assert WithTag([s[2]], Local("faultcode")) == [] && WithTag([s[2]], Local("faultstring")) == [];
    assert WithTag(s[1..], Local("faultcode")) == [] && WithTag(s[1..], Local("faultstring")) == [s[1]];
  }

  lemma ValueParses(q: Parameter, kind: string)
    requires 1 <= |q.name| <= 256 && |q.value| <= 4096 && kind in KINDS && q.xsdType == "xsd:" + kind
             && ValueFits(kind, q.value)
    ensures ParameterOf(ValueNode(q), QName(XSD, kind)) == Some(q) && Height(ValueNode(q)) <= 2
  {
    hide ValueFits, Height;
    var n := ValueNode(q);
    PairChildren(n, Local("Name"), VALUE);
    LeafHeight(n.children[0]);
    LeafHeight(n.children[1]);
    HeightOver(n, 1);
  }

  lemma TypeRead(kind: string, b: Bindings)
    requires kind in KINDS && "xsd" in b && b["xsd"] == XSD
    ensures ResolveType("xsd:" + kind, b) == QName(XSD, kind)
  {
    var s := "xsd:" + kind;
    assert s[0] == 'x' && s[1] == 's' && s[2] == 'd' && s[3] == ':';
    assert Partition(s[3..]) == Some(("", kind)) by { assert s[3..][1..] == kind; }
    assert ['d'] + "" == "d" && ['s'] + "d" == "sd" && ['x'] + "sd" == "xsd";
    assert s[2..][1..] == s[3..] && s[1..][1..] == s[2..];
    assert Partition(s[2..]) == Some(("d", kind));
    assert Partition(s[1..]) == Some(("sd", kind));
    assert Partition(s) == Some(("xsd", kind));
  }

  lemma InfoParses(i: Info)
    requires 1 <= |i.name| <= 256
    ensures InfoOf(InfoNode(i)) == Some(i) && Height(InfoNode(i)) <= 2
  {
    hide Height, Strip;
    var n := InfoNode(i);
    FieldText(n, Local("Name"), Local("Writable"), i.name, if i.writable then "true" else "false");
    NoStrip("true");
    NoStrip("false");
    LeafHeight(n.children[0]);
    LeafHeight(n.children[1]);
    HeightOver(n, 1);
  }

  // ----- The round trip -----

  lemma FaultBindings()
    ensures Standard(Bound([("soap", SOAP), ("cwmp", CWMP)] + []))
  {
    BoundPair(("soap", SOAP), ("cwmp", CWMP));
    assert [("soap", SOAP), ("cwmp", CWMP)] + [] == [("soap", SOAP), ("cwmp", CWMP)];
  }

  lemma BoundPair(a: (string, string), c: (string, string))
    ensures Bound([a, c]) == map[][a.0 := a.1][c.0 := c.1]
  {
    assert [a, c][..1] == [a] && [a][..0] == [];
    assert Bound([]) == map[] && Bound([a]) == map[][a.0 := a.1];
  }

  lemma BoundMore(decls: Declarations, d: (string, string))
    ensures Bound(decls + [d]) == Bound(decls)[d.0 := d.1]
  {}

  lemma NamesBindings()
    ensures var b := Bound([("soap", SOAP), ("cwmp", CWMP)] + [("enc", ENC)]);
            Standard(b) && "enc" in b && b["enc"] == ENC
  {
    BoundPair(("soap", SOAP), ("cwmp", CWMP));
    BoundMore([("soap", SOAP), ("cwmp", CWMP)], ("enc", ENC));
  }

  lemma ValuesBindings()
    ensures var b := Bound([("soap", SOAP), ("cwmp", CWMP)] + [("enc", ENC), ("xsi", XSI), ("xsd", XSD)]);
            && Standard(b) && "enc" in b && b["enc"] == ENC && "xsi" in b && b["xsi"] == XSI && "xsd" in b
            && b["xsd"] == XSD
  {
    BoundPair(("soap", SOAP), ("cwmp", CWMP));
    var first := [("soap", SOAP), ("cwmp", CWMP)];
    BoundMore(first, ("enc", ENC));
    BoundMore(first + [("enc", ENC)], ("xsi", XSI));
    BoundMore(first + [("enc", ENC)] + [("xsi", XSI)], ("xsd", XSD));
    assert first + [("enc", ENC), ("xsi", XSI), ("xsd", XSD)]
           == first + [("enc", ENC)] + [("xsi", XSI)] + [("xsd", XSD)];
  }

  lemma FaultRoundTrip(id: string, code: int)
    requires 9000 <= code <= 9999
    ensures var doc := Resolve(Response(FaultReply(id, code)), map[]);
            doc.Some? && ParseReply(doc.value) == Accepted(FaultReply(RPC_ID, code))
  {
    hide Resolve, ParseFault, FaultNode, WrittenFault, ParseEnvelope, EnvelopeNode, Envelope, Bound;
    FaultBindings();
    ResolveFault(code, Bound([("soap", SOAP), ("cwmp", CWMP)] + []));
    ResolveEnvelope(RPC_ID, [], WrittenFault(code), FaultNode(code));
    FaultParses(RPC_ID, code);
    FaultTag(code);
    EnvelopeParses(RPC_ID, [], FaultNode(code));
  }

  lemma FaultTag(code: nat)
    ensures FaultNode(code).tag == QName(SOAP, "Fault")
  {}

  lemma NoBrackets(item: string)
    requires item in {"ParameterValueStruct", "ParameterInfoStruct"}
    ensures '[' !in "cwmp:" + item && ']' !in "cwmp:" + item
  {}

  lemma ListParses(item: string, entries: seq<Node>, tag: QName, limit: nat)
    requires item in {"ParameterValueStruct", "ParameterInfoStruct"} && tag == Local(item)
    requires |entries| <= limit && forall n | n in entries :: n.tag == tag && Height(n) <= 2
    ensures ArrayOf(ListNode(item, entries), tag, limit) == Some(entries)
    ensures Height(ListNode(item, entries)) <= 3
  {
    hide Height, DeclaredCount, CountOf;
    NoBrackets(item);
    CountRead("cwmp:" + item, |entries|);
    HeightOver(ListNode(item, entries), 2);
    var attrs := ListNode(item, entries).attrs;
    assert Attribute(attrs, QName(ENC, "arrayType")) == Some(attrs[0].1);
  }

  lemma InfosParse(infos: seq<Info>)
    requires |infos| <= 128 && DistinctBy(InfoName, infos) && forall i | i in infos :: 1 <= |i.name| <= 256
    ensures ParseNames(RPC_ID, ListNode("ParameterInfoStruct", InfoNodes(infos))) == Some(NamesReply(RPC_ID, infos))
    ensures Height(ListNode("ParameterInfoStruct", InfoNodes(infos))) <= 3
  {
    hide ListNode, InfoNode, InfoNodes, Height, ArrayOf, Infos;
    InfosRead(infos);
    ListParses("ParameterInfoStruct", InfoNodes(infos), Local("ParameterInfoStruct"), 128);
  }

  lemma InfosRead(infos: seq<Info>)
    requires DistinctBy(InfoName, infos) && forall i | i in infos :: 1 <= |i.name| <= 256
    ensures Infos(InfoNodes(infos), |infos|) == Some(infos)
    ensures forall n | n in InfoNodes(infos) :: n.tag == Local("ParameterInfoStruct") && Height(n) <= 2
  {
    hide InfoNode, InfoOf, Height, Infos, InfoNodes;
    var items := InfoNodes(infos);
    forall i | 0 <= i < |items| ensures InfoOf(items[i]) == Some(infos[i]) && Height(items[i]) <= 2
        && items[i].tag == Local("ParameterInfoStruct") {
      assert infos[i] in infos;
      InfoParses(infos[i]);
      InfoTag(infos[i]);
    }
    InfosOf(items, infos);
    forall n | n in items ensures n.tag == Local("ParameterInfoStruct") && Height(n) <= 2 {
      var i :| 0 <= i < |items| && items[i] == n;
    }
  }

  lemma InfosOf(items: seq<Node>, infos: seq<Info>)
    requires |items| == |infos| && DistinctBy(InfoName, infos)
             && forall i | 0 <= i < |items| :: InfoOf(items[i]) == Some(infos[i])
    ensures Infos(items, |items|) == Some(infos)
  {}

  lemma ResolveNames(id: string, names: seq<Info>)
    ensures var rpc := BranchNode(NAMES_RESPONSE,
                                  [ListNode("ParameterInfoStruct", InfoNodes(SortBy(InfoName, names)))]);
            Resolve(Response(NamesReply(id, names)), map[]) == Some(EnvelopeNode(RPC_ID, [("enc", ENC)], rpc))
  {
    hide Resolve, Bound, WrittenList, ListNode, InfoNode, WrittenInfo, InfoNodes, WrittenInfos, EnvelopeNode,
      Envelope, SortBy;
    var sorted := SortBy(InfoName, names);
    var b := Bound([("soap", SOAP), ("cwmp", CWMP)] + [("enc", ENC)]);
    var items := InfoNodes(sorted);
    NamesBindings();
    ResolveInfos(sorted, b);
    ResolveList("GetParameterNamesResponse", "ParameterInfoStruct", WrittenInfos(sorted), items, b);
    var rpc := BranchNode(NAMES_RESPONSE, [ListNode("ParameterInfoStruct", items)]);
    ResolveEnvelope(RPC_ID, [("enc", ENC)],
                    Branch("cwmp", "GetParameterNamesResponse",
                           [WrittenList("ParameterInfoStruct", WrittenInfos(sorted))]), rpc);
  }

  lemma NamesRoundTrip(id: string, names: seq<Info>)
    requires ValidReply(NamesReply(id, names))
    ensures var doc := Resolve(Response(NamesReply(id, names)), map[]);
            doc.Some? && ParseReply(doc.value) == Accepted(NamesReply(RPC_ID, SortBy(InfoName, names)))
  {
    hide Resolve, ParseEnvelope, EnvelopeNode, ListNode, Height, ParseNames, Response, SortBy;
    var sorted := SortBy(InfoName, names);
    SortAscends(InfoName, names);
    AscendingDistinct(InfoName, sorted);
    ResolveNames(id, names);
    InfosParse(sorted);
    var list := ListNode("ParameterInfoStruct", InfoNodes(sorted));
    var rpc := BranchNode(NAMES_RESPONSE, [list]);
    HeightOver(rpc, 3);
    EnvelopeParses(RPC_ID, [("enc", ENC)], rpc);
    ListTag("ParameterInfoStruct", InfoNodes(sorted));
    assert |NAMES_RESPONSE.local| != |VALUES_RESPONSE.local|;
  }

  lemma InfoTag(i: Info)
    ensures InfoNode(i).tag == Local("ParameterInfoStruct")
  {}

  lemma ListTag(item: string, entries: seq<Node>)
    ensures ListNode(item, entries).tag == Local("ParameterList") && ListNode(item, entries).children == entries
  {}

  function KindOf(q: Parameter): string
    requires ValidParameter(q)
  {
    q.xsdType[4..]
  }

  lemma KindFits(q: Parameter)
    requires ValidParameter(q)
    ensures KindOf(q) in KINDS && q.xsdType == "xsd:" + KindOf(q) && ValueFits(KindOf(q), q.value)
  {}

  /** The types of a printed values reply are the types of its parameters, in the printed order. */
  lemma PrintedTypes(ps: seq<Parameter>)
    requires forall q | q in ps :: ValidParameter(q)
    ensures var root := EnvelopeNode(RPC_ID, [("enc", ENC), ("xsi", XSI), ("xsd", XSD)],
                                     BranchNode(VALUES_RESPONSE, [ListNode("ParameterValueStruct", ValueNodes(ps))]));
            var types := Types(root, map[]);
            |types| == |ps| && forall i | 0 <= i < |ps| :: types[i] == QName(XSD, KindOf(ps[i]))
  {
    hide Types, TypesAll, Bound, ValueFits, ValueNode, ResolveType, KindOf, CountOf, ValidParameter;
    var more := [("enc", ENC), ("xsi", XSI), ("xsd", XSD)];
    var items := ValueNodes(ps);
    var rpc := BranchNode(VALUES_RESPONSE, [ListNode("ParameterValueStruct", items)]);
    var root := EnvelopeNode(RPC_ID, more, rpc);
    var b := Bound(root.decls);
    ValuesBindings();
    EnvelopeTypes(root);
    HeaderTypes(root.children[0], b);
    NoDeclarations();
    var scope := ListScope(root);
    assert scope == b;
    forall item | item in items ensures ItemShape(item) {
      var i :| 0 <= i < |items| && items[i] == item;
      ValueShape(ps[i], b);
    }
    ItemTypes(items, b);
    forall i | 0 <= i < |ps| ensures OwnType(items[i], b) == QName(XSD, KindOf(ps[i])) {
      assert ps[i] in ps;
      ValueShape(ps[i], b);
      KindFits(ps[i]);
      TypeRead(KindOf(ps[i]), b);
    }
  }

  lemma NoDeclarations()
    ensures Bound([]) == map[] && forall b: Bindings :: b + map[] == b
  {}

  lemma HeaderTypes(header: Node, b: Bindings)
    requires |header.children| == 1 && header.children[0].children == [] && header.tag != VALUE
             && header.children[0].tag != VALUE
    ensures Types(header, b) == []
  {
    OneChild(header, b);
    LeafTypes(header.children[0], b + Bound(header.decls));
  }

  lemma ValueShape(q: Parameter, b: Bindings)
    ensures ItemShape(ValueNode(q)) && OwnType(ValueNode(q), b) == ResolveType(q.xsdType, b)
  {}

  lemma ValuesParse(root: Node, ps: seq<Parameter>)
    requires |ps| <= 16 && DistinctBy(ParameterName, ps) && forall q | q in ps :: ValidParameter(q)
    requires var types := Types(root, map[]);
             |types| == |ps| && forall i | 0 <= i < |ps| :: types[i] == QName(XSD, KindOf(ps[i]))
    ensures ParseValues(root, RPC_ID, ListNode("ParameterValueStruct", ValueNodes(ps))) == Some(ValuesReply(RPC_ID, ps))
    ensures Height(ListNode("ParameterValueStruct", ValueNodes(ps))) <= 3
  {
    hide ListNode, ValueNode, ValueNodes, ParameterOf, Parameters, Height, ArrayOf, Types, ValidParameter, KindOf,
      ValueFits;
    var items, types := ValueNodes(ps), Types(root, map[]);
    forall i | 0 <= i < |items|
      ensures ParameterOf(items[i], types[i]) == Some(ps[i]) && Height(items[i]) <= 2
              && items[i].tag == Local("ParameterValueStruct")
    {
      assert ps[i] in ps;
      KindFits(ps[i]);
      Sized(ps[i]);
      ValueParses(ps[i], KindOf(ps[i]));
      ValueTag(ps[i]);
    }
    ParametersOf(items, types, ps);
    forall n | n in items ensures n.tag == Local("ParameterValueStruct") && Height(n) <= 2 {
      var i :| 0 <= i < |items| && items[i] == n;
    }
    ListParses("ParameterValueStruct", items, Local("ParameterValueStruct"), 16);
  }

  lemma ParametersOf(items: seq<Node>, types: seq<QName>, ps: seq<Parameter>)
    requires |items| == |types| == |ps| && DistinctBy(ParameterName, ps)
    requires forall i | 0 <= i < |items| :: ParameterOf(items[i], types[i]) == Some(ps[i])
    ensures Parameters(items, types, |items|) == Some(ps)
  {
    hide ParameterOf, Parameters;
    ParametersExactly(items, types, |items|);
    forall i, j | 0 <= i < j < |items| ensures ParameterOf(items[i], types[i]).value.name != ParameterOf(items[j],
        types[j]).value.name {
      assert ParameterName(ps[i]) != ParameterName(ps[j]);
    }
    assert Parameters(items, types, |items|).value == ps;
  }

  lemma ResolveValuesReply(id: string, ps: seq<Parameter>)
    ensures var rpc := BranchNode(VALUES_RESPONSE,
                                  [ListNode("ParameterValueStruct", ValueNodes(SortBy(ParameterName, ps)))]);
            Resolve(Response(ValuesReply(id, ps)), map[])
            == Some(EnvelopeNode(RPC_ID, [("enc", ENC), ("xsi", XSI), ("xsd", XSD)], rpc))
  {
    hide Resolve, Bound, WrittenList, ListNode, ValueNode, WrittenValue, ValueNodes, WrittenValues, EnvelopeNode,
      Envelope, SortBy;
    var sorted := SortBy(ParameterName, ps);
    var more := [("enc", ENC), ("xsi", XSI), ("xsd", XSD)];
    var b := Bound([("soap", SOAP), ("cwmp", CWMP)] + more);
    var items := ValueNodes(sorted);
    ValuesBindings();
    ResolveValues(sorted, b);
    ResolveList("GetParameterValuesResponse", "ParameterValueStruct", WrittenValues(sorted), items, b);
    var rpc := BranchNode(VALUES_RESPONSE, [ListNode("ParameterValueStruct", items)]);
    ResolveEnvelope(RPC_ID, more, Branch("cwmp", "GetParameterValuesResponse",
                                         [WrittenList("ParameterValueStruct", WrittenValues(sorted))]), rpc);
  }

  lemma ValuesRoundTrip(id: string, ps: seq<Parameter>)
    requires ValidReply(ValuesReply(id, ps))
    ensures var doc := Resolve(Response(ValuesReply(id, ps)), map[]);
            doc.Some? && ParseReply(doc.value) == Accepted(ValuesReply(RPC_ID, SortBy(ParameterName, ps)))
  {
    hide Resolve, ParseEnvelope, EnvelopeNode, ListNode, Height, ParseValues, Response, SortBy, ValidParameter, Types,
      KindOf;
    var sorted := SortBy(ParameterName, ps);
    SortAscends(ParameterName, ps);
    AscendingDistinct(ParameterName, sorted);
    ResolveValuesReply(id, ps);
    var more := [("enc", ENC), ("xsi", XSI), ("xsd", XSD)];
    var rpc := BranchNode(VALUES_RESPONSE, [ListNode("ParameterValueStruct", ValueNodes(sorted))]);
    PrintedTypes(sorted);
    ValuesParse(EnvelopeNode(RPC_ID, more, rpc), sorted);
    HeightOver(rpc, 3);
    EnvelopeParses(RPC_ID, more, rpc);
    ListTag("ParameterValueStruct", ValueNodes(sorted));
  }

  lemma Sized(q: Parameter)
    requires ValidParameter(q)
    ensures 1 <= |q.name| <= 256 && |q.value| <= 4096
  {}

  lemma ValueTag(q: Parameter)
    ensures ValueNode(q).tag == Local("ParameterValueStruct")
  {}

  /** Printing a reply that the parser may accept and parsing the result gives the same kind, fault code, names,
      values and types, sorted by name. */
  lemma RoundTrip(reply: Reply)
    requires ValidReply(reply)
    ensures var doc := Resolve(Response(reply), map[]);
            doc.Some? && ParseReply(doc.value) == Accepted(SortedReply(reply))
  {
    hide Resolve, ParseReply, Response, ValidReply;
    match reply
    case FaultReply(id, code) => ValidFault(id, code); FaultRoundTrip(id, code);
    case NamesReply(id, names) => NamesRoundTrip(id, names);
    case ValuesReply(id, ps) => ValuesRoundTrip(id, ps);
  }

  lemma ValidFault(id: string, code: int)
    requires ValidReply(FaultReply(id, code))
    ensures 9000 <= code <= 9999
  {}
}
