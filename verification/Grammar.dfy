/** Which documents the reply parser accepts, said of the element tree from the outside in: the envelope, the fault, the
    list of names and the list of values. */
module Grammar {
  import opened Text
  import opened Numbers
  import opened Domain
  import opened Readings
  import opened FieldNames
  import opened Xml
  import opened Soap

  // ----- Texts -----

  /** An element with nothing but a text of at most `limit` characters. */
  predicate TextElement(n: Node, limit: nat, empty: bool, s: string) {
    n.children == [] && n.text == s && |s| <= limit && (empty || s != "")
  }

  /** Exactly one child has the tag, and it is that text. */
  ghost predicate HasText(n: Node, tag: QName, limit: nat, empty: bool, s: string) {
    exists i ::
      0 <= i < |n.children| && n.children[i].tag == tag && TextElement(n.children[i], limit, empty, s)
      && forall k | 0 <= k < |n.children| && n.children[k].tag == tag :: k == i
  }

  lemma {:induction false} TaggedNone(ns: seq<Node>, tag: QName)
    ensures WithTag(ns, tag) == [] <==> forall k | 0 <= k < |ns| :: ns[k].tag != tag
  {
    if ns != [] {
      TaggedNone(ns[1..], tag);
      assert forall k | 1 <= k < |ns| :: ns[k] == ns[1..][k - 1];
      assert forall k | 0 <= k < |ns[1..]| :: ns[1..][k] == ns[k + 1];
    }
  }

  lemma {:induction false} TaggedOne(ns: seq<Node>, tag: QName, i: nat)
    requires i < |ns| && ns[i].tag == tag && forall k | 0 <= k < |ns| && ns[k].tag == tag :: k == i
    ensures WithTag(ns, tag) == [ns[i]]
  {
    if i == 0 {
      TaggedNone(ns[1..], tag);
    } else {
      TaggedOne(ns[1..], tag, i - 1);
    }
  }

  lemma {:induction false} TaggedAt(ns: seq<Node>, tag: QName) returns (i: nat)
    requires |WithTag(ns, tag)| == 1
    ensures i < |ns| && ns[i].tag == tag && WithTag(ns, tag) == [ns[i]]
            && forall k | 0 <= k < |ns| && ns[k].tag == tag :: k == i
  {
    if ns[0].tag == tag {
      i := 0;
      TaggedNone(ns[1..], tag);
      assert forall k | 1 <= k < |ns| :: ns[k] == ns[1..][k - 1];
    } else {
      i := TaggedAt(ns[1..], tag);
      assert forall k | 1 <= k < |ns| :: ns[k] == ns[1..][k - 1];
      i := i + 1;
    }
  }

  lemma ChildTextExactly(n: Node, tag: QName, limit: nat, empty: bool, s: string)
    ensures ChildText(n, tag, limit, empty) == Some(s) <==> HasText(n, tag, limit, empty, s)
  {
    hide WithTag;
    if HasText(n, tag, limit, empty, s) {
      var i :| 0 <= i < |n.children| && n.children[i].tag == tag && TextElement(n.children[i], limit, empty, s)
               && forall k | 0 <= k < |n.children| && n.children[k].tag == tag :: k == i;
      TaggedOne(n.children, tag, i);
    }
    if ChildText(n, tag, limit, empty) == Some(s) {
      var i := TaggedAt(n.children, tag);
      assert TextElement(n.children[i], limit, empty, s);
    }
  }

  /** The text of the child that alone has its tag. */
  lemma NthText(n: Node, i: nat, limit: nat, empty: bool)
    requires i < |n.children| && forall k | 0 <= k < |n.children| && n.children[k].tag == n.children[i].tag :: k == i
    ensures forall s :: ChildText(n, n.children[i].tag, limit, empty) == Some(s) <==>
              TextElement(n.children[i], limit, empty, s)
    ensures ChildText(n, n.children[i].tag, limit, empty).Some? <==>
              exists s :: TextElement(n.children[i], limit, empty, s)
  {
    TaggedOne(n.children, n.children[i].tag, i);
    var c := ChildText(n, n.children[i].tag, limit, empty);
    if c.Some? { assert TextElement(n.children[i], limit, empty, c.value); }
  }

  // ----- The envelope -----

  /** An envelope of at most 32 levels with a header and a body: the header has one identifier and demands nothing else,
      the body holds one element, of the protocol or a fault. */
  ghost predicate Envelope(root: Node, id: string, rpc: Node) {
    && Height(root) <= 32 && root.tag == QName("http://schemas.xmlsoap.org/soap/envelope/", "Envelope")
    && |root.children| == 2
    && var header, body := root.children[0], root.children[1];
    && header.tag == QName("http://schemas.xmlsoap.org/soap/envelope/", "Header")
    && body.tag == QName("http://schemas.xmlsoap.org/soap/envelope/", "Body")
    && HasText(header, QName("urn:dslforum-org:cwmp-1-0", "ID"), 256, false, id)
    && (forall h | h in header.children && h.tag != QName("urn:dslforum-org:cwmp-1-0", "ID") ::
          Attribute(h.attrs, QName("http://schemas.xmlsoap.org/soap/envelope/", "mustUnderstand"))
          !in {Some("1"), Some("true")})
    && body.children == [rpc]
    && (rpc.tag.uri == "urn:dslforum-org:cwmp-1-0"
        || rpc.tag == QName("http://schemas.xmlsoap.org/soap/envelope/", "Fault"))
  }

  lemma EnvelopeExactly(root: Node, id: string, rpc: Node)
    ensures ParseEnvelope(root) == Some((id, rpc)) <==> Envelope(root, id, rpc)
  {
    hide Height, HasText, ChildText, Attribute;
    if |root.children| == 2 { ChildTextExactly(root.children[0], QName(CWMP, "ID"), 256, false, id); }
  }

  // ----- Faults -----

  /** The fault code of the protocol, a number of 9000 to 9999 that its text denotes without a minus sign. */
  ghost predicate CodeText(s: string, code: int) {
    Denotes(Strip(s), code) && Strip(s)[0] != '-' && 9000 <= code <= 9999
  }

  lemma CodeExactly(s: string, code: nat)
    ensures UnsignedText(s) == Some(code) && 9000 <= code <= 9999 <==> Strip(s) != "" && CodeText(s, code)
  {
    hide Strip, Denotes;
    SignedDenotes(Strip(s), code);
    var raw := Strip(s);
    if raw != "" {
      assert raw[0] in raw && !Digit('-');
      if raw[0] != '-' && Digits(Unsigned(raw)) { SignedValueIs(raw); }
    }
  }

  lemma SignedValueIs(raw: string)
    requires raw != "" && raw[0] != '-' && Digits(Unsigned(raw))
    ensures SignedValue(raw) == NatValue(Unsigned(raw))
  {}

  ghost predicate FaultElement(rpc: Node, code: int) {
    && rpc.tag == QName("http://schemas.xmlsoap.org/soap/envelope/", "Fault") && |rpc.children| == 3
    && rpc.children[0].tag == QName("", "faultcode") && rpc.children[1].tag == QName("", "faultstring")
    && rpc.children[2].tag == QName("", "detail")
    && (exists s :: TextElement(rpc.children[0], 256, false, s))
    && (exists s :: TextElement(rpc.children[1], 4096, true, s))
    && |rpc.children[2].children| == 1
    && var fault := rpc.children[2].children[0];
    && fault.tag == QName("urn:dslforum-org:cwmp-1-0", "Fault") && |fault.children| == 2
    && fault.children[0].tag == QName("", "FaultCode") && fault.children[1].tag == QName("", "FaultString")
    && (exists s :: TextElement(fault.children[0], 16, false, s) && Strip(s) != "" && CodeText(s, code))
    && (exists s :: TextElement(fault.children[1], 4096, true, s))
  }

  lemma FaultExactly(id: string, rpc: Node, code: nat)
    requires rpc.tag == QName(SOAP, "Fault")
    ensures ParseFault(id, rpc) == Some(FaultReply(id, code)) <==> FaultElement(rpc, code)
  {
    hide ChildText, CodeText, UnsignedText, Strip;
    if FieldsAre(rpc, [Local("faultcode"), Local("faultstring"), Local("detail")]) {
      NthText(rpc, 0, 256, false);
      NthText(rpc, 1, 4096, true);
      if FieldsAre(rpc.children[2], [QName(CWMP, "Fault")]) {
        var fault := rpc.children[2].children[0];
        if FieldsAre(fault, [Local("FaultCode"), Local("FaultString")]) {
          NthText(fault, 0, 16, false);
          NthText(fault, 1, 4096, true);
          CodeExactly(fault.children[0].text, code);
        }
      }
    }
  }

  // ----- Arrays -----

  /** A count in brackets after a type. */
  ghost predicate Counts(s: string, n: nat) {
    exists t: string, d: string ::
      s == t + "[" + d + "]" && t != "" && '[' !in t && ']' !in t && Digits(d) && NatValue(d) == n
  }

  /** At most `limit` elements of one tag, as many as the array declares if it declares a count. */
  ghost predicate ArrayElement(n: Node, tag: QName, limit: nat) {
    && |n.children| <= limit && (forall c | c in n.children :: c.tag == tag)
    && var declared := Attribute(n.attrs, QName("http://schemas.xmlsoap.org/soap/encoding/", "arrayType"));
       declared.Some? ==> Counts(declared.value, |n.children|)
  }

  lemma BracketsApart(t: string, d: string)
    requires '[' !in t && Digits(d)
    ensures Split(t + "[" + d + "]", '[') == [t, d + "]"]
  {
    DigitsHoldNo(d, '[');
    assert '[' !in d + "]";
    SplitNone(d + "]", '[');
    SplitPrefix(t, d + "]", '[');
    assert t + ['['] + (d + "]") == t + "[" + d + "]";
  }

  lemma CountsExactly(s: string, n: nat)
    ensures DeclaredCount(s) == Some(n) <==> Counts(s, n)
  {
    if Counts(s, n) {
      var t, d :| s == t + "[" + d + "]" && t != "" && '[' !in t && ']' !in t && Digits(d) && NatValue(d) == n;
      BracketsApart(t, d);
      assert (d + "]")[..|d + "]"| - 1] == d;
    }
    if DeclaredCount(s) == Some(n) {
      var p := Split(s, '[');
      JoinSplit(s, '[');
      var d := p[1][..|p[1]| - 1];
      assert p[1] == d + "]";
      assert p[0] in p && p[1..][0] == p[1];
      assert s == p[0] + "[" + d + "]";
    }
  }

  lemma ArrayExactly(n: Node, tag: QName, limit: nat)
    ensures ArrayOf(n, tag, limit).Some? <==> ArrayElement(n, tag, limit)
    ensures ArrayOf(n, tag, limit).Some? ==> ArrayOf(n, tag, limit).value == n.children
  {
    hide DeclaredCount, Counts, Attribute;
    var declared := Attribute(n.attrs, QName(ENC, "arrayType"));
    if declared.Some? { CountsExactly(declared.value, |n.children|); }
  }

  // ----- Names -----

  /** One reported name: its text, and whether it is writable. */
  ghost predicate InfoElement(item: Node, i: Info) {
    && |item.children| == 2 && item.children[0].tag == QName("", "Name")
    && item.children[1].tag == QName("", "Writable")
    && TextElement(item.children[0], 256, false, i.name)
    && exists s ::
         TextElement(item.children[1], 8, false, s)
         && Strip(s) in if i.writable then {"true", "1"} else {"false", "0"}
  }

  lemma InfoExactly(item: Node, i: Info)
    ensures InfoOf(item) == Some(i) <==> InfoElement(item, i)
  {
    hide ChildText, Strip;
    if FieldsAre(item, [Local("Name"), Local("Writable")]) {
      NthText(item, 0, 256, false);
      NthText(item, 1, 8, false);
    }
  }

  /** The list of names below a response, in its order, none twice. */
  ghost predicate NamesElement(rpc: Node, names: seq<Info>) {
    && rpc.tag == QName("urn:dslforum-org:cwmp-1-0", "GetParameterNamesResponse")
    && |rpc.children| == 1 && rpc.children[0].tag == QName("", "ParameterList")
    && ArrayElement(rpc.children[0], QName("", "ParameterInfoStruct"), 128)
    && |rpc.children[0].children| == |names| && DistinctBy(InfoName, names)
    && forall k | 0 <= k < |names| :: InfoElement(rpc.children[0].children[k], names[k])
  }

  lemma InfosAre(items: seq<Node>, names: seq<Info>)
    ensures Infos(items, |items|) == Some(names) <==>
      |items| == |names| && DistinctBy(InfoName, names) && forall k | 0 <= k < |names| ::
          InfoElement(items[k], names[k])
  {
    hide InfoElement, InfoOf, Infos;
    InfosExactly(items, |items|);
    if |items| == |names| {
      forall k | 0 <= k < |names| ensures InfoOf(items[k]) == Some(names[k]) <==> InfoElement(items[k], names[k]) {
        InfoExactly(items[k], names[k]);
      }
      if DistinctBy(InfoName, names) && forall k | 0 <= k < |names| :: InfoElement(items[k], names[k]) {
        forall i, j | 0 <= i < j < |items| ensures InfoOf(items[i]).value.name != InfoOf(items[j]).value.name {
          assert InfoName(names[i]) != InfoName(names[j]);
        }
        assert Infos(items, |items|).value == names;
      }
    }
  }

  lemma NamesExactly(root: Node, id: string, rpc: Node, names: seq<Info>)
    requires rpc.tag == NAMES_RESPONSE
    ensures ParseBody(root, id, rpc) == Some(NamesReply(id, names)) <==> NamesElement(rpc, names)
  {
    hide InfoElement, InfoOf, Infos, ArrayOf, ArrayElement;
    if FieldsAre(rpc, [Local("ParameterList")]) {
      ArrayExactly(rpc.children[0], Local("ParameterInfoStruct"), 128);
      InfosAre(rpc.children[0].children, names);
    }
  }

  // ----- Values -----

  /** The value is written as its type demands: whole numbers of at most eleven digits in the range of the type, and the
      four ways to write a truth value. */
  ghost predicate Fits(kind: string, value: string) {
    var raw := Strip(value);
    match kind
    case "string" => true
    case "int" => |Unsigned(raw)| <= 11 && exists v :: Denotes(raw, v) && -2147483648 <= v <= 2147483647
    case "unsignedInt" => |Unsigned(raw)| <= 11 && exists v :: Denotes(raw, v) && 0 <= v <= 4294967295
    case "boolean" => raw in {"true", "false", "0", "1"}
    case _ => false
  }

  lemma InRange(raw: string, low: int, high: int)
    ensures (exists v :: Denotes(raw, v) && low <= v <= high) <==>
      Digits(Unsigned(raw)) && low <= SignedValue(raw) <= high
  {
    hide Denotes, SignedValue;
    if v :| Denotes(raw, v) && low <= v <= high { SignedDenotes(raw, v); }
    if Digits(Unsigned(raw)) { SignedDenotes(raw, SignedValue(raw)); }
  }

  lemma FitsExactly(kind: string, value: string)
    ensures kind in KINDS && ValueFits(kind, value) <==> Fits(kind, value)
  {
    hide Strip, Denotes, Unsigned, SignedValue;
    InRange(Strip(value), -2147483648, 2147483647);
    InRange(Strip(value), 0, 4294967295);
  }

  /** One reported value, of the type that its document resolves to. */
  ghost predicate ValueElement(item: Node, kind: QName, q: Parameter) {
    && |item.children| == 2 && item.children[0].tag == QName("", "Name") && item.children[1].tag == QName("", "Value")
    && TextElement(item.children[0], 256, false, q.name) && TextElement(item.children[1], 4096, true, q.value)
    && kind.uri == "http://www.w3.org/2001/XMLSchema" && Fits(kind.local, q.value) && q.xsdType == "xsd:" + kind.local
  }

  lemma ValueExactly(item: Node, kind: QName, q: Parameter)
    ensures ParameterOf(item, kind) == Some(q) <==> ValueElement(item, kind, q)
  {
    hide ChildText, ValueFits, Fits;
    FitsExactly(kind.local, q.value);
    if FieldsAre(item, [Local("Name"), VALUE]) {
      NthText(item, 0, 256, false);
      NthText(item, 1, 4096, true);
    }
  }

  /** A listed value, its type resolved in the scope of the list. */
  ghost predicate ItemIs(item: Node, scope: Bindings, q: Parameter) {
    ItemShape(item) && ValueElement(item, OwnType(item, scope), q)
  }

  /** The list of values below a response, in its order, none twice; no other element of the document is a value. */
  ghost predicate ValuesElement(root: Node, rpc: Node, ps: seq<Parameter>)
    requires FieldsAre(root, [QName(SOAP, "Header"), QName(SOAP, "Body")]) && root.children[1].children == [rpc]
  {
    && rpc.tag == QName("urn:dslforum-org:cwmp-1-0", "GetParameterValuesResponse")
    && |rpc.children| == 1 && rpc.children[0].tag == QName("", "ParameterList")
    && ArrayElement(rpc.children[0], QName("", "ParameterValueStruct"), 16)
    && Types(root.children[0], Bound(root.decls)) == []
    && |rpc.children[0].children| == |ps| && DistinctBy(ParameterName, ps)
    && forall k | 0 <= k < |ps| :: ItemIs(rpc.children[0].children[k], ListScope(root), ps[k])
  }

  lemma ParametersAre(items: seq<Node>, types: seq<QName>, ps: seq<Parameter>)
    requires |items| == |types|
    ensures Parameters(items, types, |types|) == Some(ps) <==>
      |items| == |ps| && DistinctBy(ParameterName, ps)
      && forall k | 0 <= k < |ps| :: ValueElement(items[k], types[k], ps[k])
  {
    hide ValueElement, ParameterOf, Parameters;
    ParametersExactly(items, types, |types|);
    if |items| == |ps| {
      forall k | 0 <= k < |ps|
        ensures ParameterOf(items[k], types[k]) == Some(ps[k]) <==> ValueElement(items[k], types[k], ps[k])
      {
        ValueExactly(items[k], types[k], ps[k]);
      }
      if DistinctBy(ParameterName, ps) && forall k | 0 <= k < |ps| :: ValueElement(items[k], types[k], ps[k]) {
        forall i, j | 0 <= i < j < |items|
          ensures ParameterOf(items[i], types[i]).value.name != ParameterOf(items[j], types[j]).value.name
        {
          assert ParameterName(ps[i]) != ParameterName(ps[j]);
        }
        assert Parameters(items, types, |types|).value == ps;
      }
    }
  }

  lemma ShapeOf(item: Node, kind: QName, q: Parameter)
    requires item.tag == Local("ParameterValueStruct") && ValueElement(item, kind, q)
    ensures ItemShape(item)
  {
    hide Fits;
  }

  lemma ValuesAre(root: Node, id: string, rpc: Node, ps: seq<Parameter>)
    requires Envelope(root, id, rpc) && rpc.tag == VALUES_RESPONSE
    ensures ParseBody(root, id, rpc) == Some(ValuesReply(id, ps)) <==> ValuesElement(root, rpc, ps)
  {
    hide Height, HasText, Attribute, ValueElement, Parameters, ArrayOf, ArrayElement, Types, OwnType, ItemShape,
      ListScope;
    if FieldsAre(rpc, [Local("ParameterList")]) {
      var list := rpc.children[0];
      var items, types := list.children, Types(root, map[]);
      ArrayExactly(list, Local("ParameterValueStruct"), 16);
      EnvelopeTypes(root);
      if |items| == |types| { ParametersAre(items, types, ps); }
      if ArrayOf(list, Local("ParameterValueStruct"), 16).Some? {
        Arrayed(list, Local("ParameterValueStruct"), 16);
        if (|items| == |types| && Parameters(items, types, |types|) == Some(ps)) || ValuesElement(root, rpc, ps) {
          forall item | item in items ensures ItemShape(item) {
            var k :| 0 <= k < |items| && items[k] == item;
            if |items| == |types| && Parameters(items, types, |types|)
                == Some(ps) { ShapeOf(items[k], types[k], ps[k]); }
            else { assert ItemIs(items[k], ListScope(root), ps[k]); }
          }
          ItemTypes(items, ListScope(root));
        }
      }
    }
  }

  lemma Arrayed(n: Node, tag: QName, limit: nat)
    requires ArrayOf(n, tag, limit).Some?
    ensures forall c | c in n.children :: c.tag == tag
  {
    hide DeclaredCount, Attribute;
  }

  // ----- Documents -----

  /** The element of the body says the reply. */
  ghost predicate BodySays(root: Node, rpc: Node, reply: Reply)
    requires FieldsAre(root, [QName(SOAP, "Header"), QName(SOAP, "Body")]) && root.children[1].children == [rpc]
  {
    match reply
    case FaultReply(_, code) => FaultElement(rpc, code)
    case NamesReply(_, names) => NamesElement(rpc, names)
    case ValuesReply(_, ps) => ValuesElement(root, rpc, ps)
  }

  ghost predicate SaysIn(root: Node, rpc: Node, reply: Reply) {
    Envelope(root, reply.rpcId, rpc) && BodySays(root, rpc, reply)
  }

  ghost predicate Document(root: Node, reply: Reply) { exists rpc :: SaysIn(root, rpc, reply) }

  lemma BodyExactly(root: Node, rpc: Node, reply: Reply)
    requires Envelope(root, reply.rpcId, rpc)
    ensures (rpc.tag in {QName(SOAP, "Fault"), VALUES_RESPONSE, NAMES_RESPONSE}
             && ParseBody(root, reply.rpcId, rpc) == Some(reply)) <==> BodySays(root, rpc, reply)
  {
    hide Envelope, ParseFault, ParseValues, ParseNames, NamesElement, ValuesElement, FaultElement;
    TagsApart();
    EnvelopeShape(root, reply.rpcId, rpc);
    if rpc.tag == QName(SOAP, "Fault") {
      FaultInRange(reply.rpcId, rpc);
      if reply.FaultReply? && reply.code >= 0 { FaultExactly(reply.rpcId, rpc, reply.code); }
    } else if rpc.tag == NAMES_RESPONSE {
      if reply.NamesReply? { NamesExactly(root, reply.rpcId, rpc, reply.names); }
    } else if rpc.tag == VALUES_RESPONSE {
      if reply.ValuesReply? { ValuesAre(root, reply.rpcId, rpc, reply.parameters); }
    }
    if BodySays(root, rpc, reply) { BodyTags(root, rpc, reply); }
    if ParseBody(root, reply.rpcId, rpc).Some? { BodyKinds(root, reply.rpcId, rpc); }
  }

  lemma EnvelopeShape(root: Node, id: string, rpc: Node)
    requires Envelope(root, id, rpc)
    ensures FieldsAre(root, [QName(SOAP, "Header"), QName(SOAP, "Body")]) && root.children[1].children == [rpc]
  {
    hide Height, HasText, Attribute;
  }

  lemma TagsApart()
    ensures VALUES_RESPONSE != NAMES_RESPONSE && QName(SOAP, "Fault") != VALUES_RESPONSE
            && QName(SOAP, "Fault") != NAMES_RESPONSE
  {
    assert SOAP[0] == 'h' && CWMP[0] == 'u';
    assert VALUES_RESPONSE.local[12] == 'V' && NAMES_RESPONSE.local[12] == 'N';
  }

  /** Each kind of reply stands below its own tag. */
  lemma BodyTags(root: Node, rpc: Node, reply: Reply)
    requires FieldsAre(root, [QName(SOAP, "Header"), QName(SOAP, "Body")]) && root.children[1].children == [rpc]
             && BodySays(root, rpc, reply)
    ensures reply.FaultReply? ==> rpc.tag == QName(SOAP, "Fault") && reply.code >= 0
    ensures reply.NamesReply? ==> rpc.tag == NAMES_RESPONSE
    ensures reply.ValuesReply? ==> rpc.tag == VALUES_RESPONSE
  {}

  lemma BodyKinds(root: Node, id: string, rpc: Node)
    requires ParseBody(root, id, rpc).Some?
    ensures rpc.tag == QName(SOAP, "Fault") ==> ParseBody(root, id, rpc).value.FaultReply?
    ensures rpc.tag == VALUES_RESPONSE ==> ParseBody(root, id, rpc).value.ValuesReply?
    ensures rpc.tag == NAMES_RESPONSE ==> ParseBody(root, id, rpc).value.NamesReply?
    ensures ParseBody(root, id, rpc).value.rpcId == id
  {
    hide Parameters, Infos, Types, ArrayOf;
    TagsApart();
    FaultInRange(id, rpc);
  }

  lemma SaidIn(root: Node, rpc: Node, reply: Reply)
    ensures SaysIn(root, rpc, reply) <==>
      ParseEnvelope(root) == Some((reply.rpcId, rpc)) && ParseBody(root, reply.rpcId, rpc) == Some(reply)
      && rpc.tag in {QName(SOAP, "Fault"), VALUES_RESPONSE, NAMES_RESPONSE}
  {
    hide ParseEnvelope, ParseBody, FaultElement, NamesElement, ValuesElement;
    EnvelopeExactly(root, reply.rpcId, rpc);
    if Envelope(root, reply.rpcId, rpc) { BodyExactly(root, rpc, reply); }
  }

  /** The parser accepts a document as a reply exactly when the document says that reply: every check on the way in, and
      nothing but these. */
  lemma AcceptedExactly(root: Node, reply: Reply)
    ensures ParseReply(root) == Accepted(reply) <==> Document(root, reply)
  {
    hide SaysIn, ParseEnvelope, ParseBody, Envelope;
    if rpc :| SaysIn(root, rpc, reply) { SaidIn(root, rpc, reply); }
    if ParseReply(root) == Accepted(reply) {
      var (id, rpc) := ParseEnvelope(root).value;
      BodyKinds(root, id, rpc);
      EnvelopeExactly(root, id, rpc);
      SaidIn(root, rpc, reply);
    }
  }

  /** A document is answered as an unsupported method exactly when its envelope is good and its body is another element
      of the protocol. */
  lemma UnsupportedExactly(root: Node, id: string)
    ensures ParseReply(root) == Unsupported(id) <==>
      exists rpc :: Envelope(root, id, rpc) && rpc.tag !in {QName(SOAP, "Fault"), VALUES_RESPONSE, NAMES_RESPONSE}
  {
    hide Envelope, ParseEnvelope, ParseBody;
    if rpc :| Envelope(root, id, rpc) && rpc.tag !in {QName(SOAP, "Fault"), VALUES_RESPONSE, NAMES_RESPONSE} {
      EnvelopeExactly(root, id, rpc);
    }
    if ParseReply(root) == Unsupported(id) { EnvelopeExactly(root, id, ParseEnvelope(root).value.1); }
  }
}
