/** What a printed request asks, read back from the document: the next level below a path, or the values of names. */
module Requests {
  import opened Text
  import opened Domain
  import opened Numbers
  import opened Xml
  import opened Soap
  import opened SoapPrinter
  import Grammar

  // ----- Reading a request -----

  /** The body of a request: the path with the demand for its next level only, or the names in their order, as many as
      declared. */
  ghost predicate Asks(rpc: Node, kind: Kind, path: string, names: seq<string>) {
    match kind
    case GetNames =>
      && rpc.tag == QName("urn:dslforum-org:cwmp-1-0", "GetParameterNames") && |rpc.children| == 2
      && rpc.children[0].tag == QName("", "ParameterPath") && rpc.children[1].tag == QName("", "NextLevel")
      && Grammar.TextElement(rpc.children[0], |path|, true, path)
      && Grammar.TextElement(rpc.children[1], 4, false, "true")
    case GetValues =>
      && rpc.tag == QName("urn:dslforum-org:cwmp-1-0", "GetParameterValues") && |rpc.children| == 1
      && rpc.children[0].tag == QName("", "ParameterNames")
      && Grammar.ArrayElement(rpc.children[0], QName("", "string"), |names|)
      && |rpc.children[0].children| == |names|
      && forall k | 0 <= k < |names| :: Grammar.TextElement(rpc.children[0].children[k], |names[k]|, true, names[k])
  }

  // ----- The tree of a request -----

  function NameNodes(names: seq<string>): (r: seq<Node>)
    ensures |r| == |names| && forall k | 0 <= k < |names| :: r[k] == LeafNode(Local("string"), names[k])
  {
    if names == [] then [] else [LeafNode(Local("string"), names[0])] + NameNodes(names[1..])
  }

  function NamesNode(names: seq<string>): Node {
    Node(Local("ParameterNames"), [], [(QName(ENC, "arrayType"), CountOf("xsd:string", |names|))], "", NameNodes(names))
  }

  lemma {:induction false} ResolveNameList(names: seq<string>, b: Bindings)
    requires Standard(b)
    ensures ResolveAll(WrittenNames(names), b) == Some(NameNodes(names)) && |WrittenNames(names)| == |names|
  {
    hide Resolve, Leaf, LeafNode;
    if names != [] {
      ResolveLeaf("string", names[0], b);
      ResolveNameList(names[1..], b);
      assert WrittenNames(names)[0] == Leaf("string", names[0]) && WrittenNames(names)[1..] == WrittenNames(names[1..]);
    }
  }

  lemma ValuesRequestBindings()
    ensures var b := Bound([("soap", SOAP), ("cwmp", CWMP)] + [("enc", ENC), ("xsd", XSD)]);
            Standard(b) && "enc" in b && b["enc"] == ENC
  {
    var first := [("soap", SOAP), ("cwmp", CWMP)];
    BoundPair(("soap", SOAP), ("cwmp", CWMP));
    BoundMore(first, ("enc", ENC));
    BoundMore(first + [("enc", ENC)], ("xsd", XSD));
    assert first + [("enc", ENC), ("xsd", XSD)] == first + [("enc", ENC)] + [("xsd", XSD)];
  }

  lemma StringCount(n: nat)
    ensures Grammar.Counts(CountOf("xsd:string", n), n)
  {
    hide Decimal;
    assert '[' !in "xsd:string" && ']' !in "xsd:string";
    CountRead("xsd:string", n);
    Grammar.CountsExactly(CountOf("xsd:string", n), n);
  }

  lemma NamesListed(names: seq<string>)
    ensures Grammar.ArrayElement(NamesNode(names), QName("", "string"), |names|) && Height(NamesNode(names)) <= 2
  {
    hide Grammar.Counts, CountOf, Height;
    StringCount(|names|);
    var n := NamesNode(names);
    assert Attribute(n.attrs, QName(ENC, "arrayType")) == Some(n.attrs[0].1);
    forall c | c in n.children ensures Height(c) <= 1 && c.tag == QName("", "string") {
      var k :| 0 <= k < |n.children| && n.children[k] == c;
      LeafHeight(c);
    }
    HeightOver(n, 1);
  }

  // ----- What a request asks -----

  lemma NamesRequest(id: string, plan: Plan)
    requires 1 <= |id| <= 256
    ensures var doc := Resolve(Request(id, GetNames, plan), map[]);
            doc.Some? && exists rpc :: Grammar.Envelope(doc.value, id, rpc) && Asks(rpc, GetNames, plan.path, [])
  {
    hide Resolve, Envelope, EnvelopeNode, Bound, Grammar.Envelope, ParseEnvelope, Height;
    var b := Bound([("soap", SOAP), ("cwmp", CWMP)] + []);
    FaultBindings();
    var path, level := Leaf("ParameterPath", plan.path), Leaf("NextLevel", "true");
    var nodes := [LeafNode(Local("ParameterPath"), plan.path), LeafNode(Local("NextLevel"), "true")];
    ResolveLeaf("ParameterPath", plan.path, b);
    ResolveLeaf("NextLevel", "true", b);
    ResolveTwo(path, level, nodes[0], nodes[1], b);
    ResolveBranch("cwmp", "GetParameterNames", [path, level], nodes, b);
    var rpc := BranchNode(QName(CWMP, "GetParameterNames"), nodes);
    ResolveEnvelope(id, [], Branch("cwmp", "GetParameterNames", [path, level]), rpc);
    LeafHeight(nodes[0]);
    LeafHeight(nodes[1]);
    HeightOver(rpc, 1);
    EnvelopeParses(id, [], rpc);
    Grammar.EnvelopeExactly(EnvelopeNode(id, [], rpc), id, rpc);
  }

  lemma ValuesRequest(id: string, plan: Plan)
    requires 1 <= |id| <= 256
    ensures var doc := Resolve(Request(id, GetValues, plan), map[]);
            doc.Some? && exists rpc :: Grammar.Envelope(doc.value, id, rpc) && Asks(rpc, GetValues, "", plan.names)
  {
    hide Resolve, Envelope, EnvelopeNode, Bound, Grammar.Envelope, ParseEnvelope, Height, CountOf, ResolveAll,
      WrittenNames, Grammar.ArrayElement;
    var more := [("enc", ENC), ("xsd", XSD)];
    var b := Bound([("soap", SOAP), ("cwmp", CWMP)] + more);
    ValuesRequestBindings();
    var list := Element(Prefixed("", "ParameterNames"), [],
                        [(Prefixed("enc", "arrayType"), CountOf("xsd:string", |plan.names|))], "",
                        WrittenNames(plan.names));
    ResolveNameList(plan.names, b);
    ResolveAttribute(list, b, Local("ParameterNames"), QName(ENC, "arrayType"));
    var node := NamesNode(plan.names);
    ResolveOne(list, node, b);
    ResolveBranch("cwmp", "GetParameterValues", [list], [node], b);
    var rpc := BranchNode(QName(CWMP, "GetParameterValues"), [node]);
    ResolveEnvelope(id, more, Branch("cwmp", "GetParameterValues", [list]), rpc);
    NamesListed(plan.names);
    HeightOver(rpc, 2);
    EnvelopeParses(id, more, rpc);
    Grammar.EnvelopeExactly(EnvelopeNode(id, more, rpc), id, rpc);
  }

  /** The document printed for a command is an envelope with its identifier, and asks for exactly what the plan says:
      the next level of its path, or the values of its names in their order. */
  lemma RequestAsks(id: string, kind: Kind, plan: Plan)
    requires 1 <= |id| <= 256
    ensures var doc := Resolve(Request(id, kind, plan), map[]);
            && doc.Some?
            && exists rpc ::
                 Grammar.Envelope(doc.value, id, rpc)
                 && Asks(rpc, kind, if kind.GetNames? then plan.path else "",
                         if kind.GetNames? then [] else plan.names)
  {
    hide Resolve, Request, Grammar.Envelope, Asks;
    if kind.GetNames? { NamesRequest(id, plan); } else { ValuesRequest(id, plan); }
  }

  /** A request asks for one thing only. */
  lemma AsksOnce(rpc: Node, kind: Kind, path: string, names: seq<string>, kind2: Kind, path2: string,
                 names2: seq<string>)
    requires Asks(rpc, kind, path, names) && Asks(rpc, kind2, path2, names2)
    ensures kind == kind2 && (kind.GetNames? ==> path == path2) && (kind.GetValues? ==> names == names2)
  {
    hide Grammar.ArrayElement;
    assert |"GetParameterNames"| != |"GetParameterValues"|;
  }
}
