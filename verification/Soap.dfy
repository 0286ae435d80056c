/** Replies to read requests as element trees: the checks that accept one, and what an accepted one is. */
module Soap {
  import opened Text
  import opened Domain
  import opened Numbers
  import opened Xml

  const SOAP := "http://schemas.xmlsoap.org/soap/envelope/"
  const CWMP := "urn:dslforum-org:cwmp-1-0"
  const ENC := "http://schemas.xmlsoap.org/soap/encoding/"
  const XSD := "http://www.w3.org/2001/XMLSchema"

  function Local(name: string): QName { QName("", name) }

  // ----- Checks on one element -----

  function WithTag(ns: seq<Node>, tag: QName): seq<Node> {
    if ns == [] then [] else (if ns[0].tag == tag then [ns[0]] else []) + WithTag(ns[1..], tag)
  }

  /** The one child with a tag. */
  function Child(n: Node, tag: QName): Option<Node> {
    var found := WithTag(n.children, tag);
    if |found| == 1 then Some(found[0]) else None
  }

  function Scalar(n: Node, limit: nat, empty: bool): Option<string> {
    if n.children != [] || |n.text| > limit || (!empty && n.text == "") then None else Some(n.text)
  }

  /** The children are exactly these, in this order. */
  predicate FieldsAre(n: Node, tags: seq<QName>) {
    |n.children| == |tags| && forall i | 0 <= i < |tags| :: n.children[i].tag == tags[i]
  }

  /** The text of the one child with a tag. */
  function ChildText(n: Node, tag: QName, limit: nat, empty: bool): Option<string> {
    match Child(n, tag)
    case None => None
    case Some(c) => Scalar(c, limit, empty)
  }

  function UnsignedText(text: string): Option<nat> {
    var raw := Strip(text);
    var digits := if raw != "" && raw[0] == '+' then raw[1..] else raw;
    if !Digits(digits) || NatValue(digits) > 4294967295 then None else Some(NatValue(digits))
  }

  /** The count that an array type declares in brackets. */
  function DeclaredCount(s: string): Option<nat> {
    var p := Split(s, '[');
    if |p| == 2 && p[0] != "" && ']' !in p[0] && p[1] != "" && p[1][|p[1]| - 1] == ']' && Digits(p[1][..|p[1]| - 1])
    then Some(NatValue(p[1][..|p[1]| - 1])) else None
  }

  function ArrayOf(n: Node, tag: QName, limit: nat): Option<seq<Node>> {
    var declared := Attribute(n.attrs, QName(ENC, "arrayType"));
    if |n.children| > limit || exists c :: c in n.children && c.tag != tag then None
    else if declared.Some? && DeclaredCount(declared.value) != Some(|n.children|) then None
    else Some(n.children)
  }

  // ----- Envelopes and replies -----

  const MAX_DEPTH := 32

  predicate Understood(h: Node) {
    h.tag == QName(CWMP, "ID") || Attribute(h.attrs, QName(SOAP, "mustUnderstand")) !in {Some("1"), Some("true")}
  }

  /** The request identifier and the one element of the body. */
  function ParseEnvelope(root: Node): Option<(string, Node)> {
    if Height(root) > MAX_DEPTH || root.tag != QName(SOAP, "Envelope")
       || !FieldsAre(root, [QName(SOAP, "Header"), QName(SOAP, "Body")]) then None
    else
      var header, body := root.children[0], root.children[1];
      var id := ChildText(header, QName(CWMP, "ID"), 256, false);
      if id.None? || exists h :: h in header.children && !Understood(h) then None
      else if |body.children| != 1 || !(body.children[0].tag.uri == CWMP
                                        || body.children[0].tag == QName(SOAP, "Fault")) then None
      else Some((id.value, body.children[0]))
  }

  /** A parsed reply, a fault that answers an unknown method, or a refused document. */
  datatype Parsed = Accepted(reply: Reply) | Unsupported(rpcId: string) | Malformed

  function ParseFault(id: string, rpc: Node): Option<Reply> {
    if !FieldsAre(rpc, [Local("faultcode"), Local("faultstring"), Local("detail")])
       || ChildText(rpc, Local("faultcode"), 256, false).None?
       || ChildText(rpc, Local("faultstring"), 4096, true).None? then None
    else
      var detail := rpc.children[2];
      if !FieldsAre(detail, [QName(CWMP, "Fault")]) then None
      else
        var fault := detail.children[0];
        if !FieldsAre(fault, [Local("FaultCode"), Local("FaultString")])
           || ChildText(fault, Local("FaultString"), 4096, true).None? then None
        else
          match ChildText(fault, Local("FaultCode"), 16, false)
          case None => None
          case Some(text) =>
            var code := UnsignedText(text);
            if code.None? || !(9000 <= code.value <= 9999) then None else Some(FaultReply(id, code.value))
  }

  const KINDS := {"string", "int", "unsignedInt", "boolean"}

  predicate ValueFits(kind: string, value: string) {
    var raw := Strip(value);
    && (kind == "int" || kind == "unsignedInt" ==>
          && Digits(Unsigned(raw)) && |Unsigned(raw)| <= 11
          && if kind == "int" then -0x8000_0000 <= SignedValue(raw) < 0x8000_0000
             else 0 <= SignedValue(raw) < 0x1_0000_0000)
    && (kind == "boolean" ==> raw in {"true", "false", "0", "1"})
  }

  function ParameterOf(item: Node, kind: QName): Option<Parameter> {
    if !FieldsAre(item, [Local("Name"), VALUE]) || kind.uri != XSD || kind.local !in KINDS then None
    else
      var name, value := ChildText(item, Local("Name"), 256, false), ChildText(item, VALUE, 4096, true);
      if name.None? || value.None? || !ValueFits(kind.local, value.value) then None
      else Some(Parameter(name.value, value.value, "xsd:" + kind.local))
  }

  /** The parameters of the first `n` items; None when one is malformed or repeats a name. */
  function Parameters(items: seq<Node>, types: seq<QName>, n: nat): Option<seq<Parameter>>
    requires n <= |items| == |types|
  {
    if n == 0 then Some([])
    else
      var before, one := Parameters(items, types, n - 1), ParameterOf(items[n - 1], types[n - 1]);
      if before.None? || one.None? || one.value.name in NameSet(before.value) then None
      else Some(before.value + [one.value])
  }

  function InfoOf(item: Node): Option<Info> {
    if !FieldsAre(item, [Local("Name"), Local("Writable")]) then None
    else
      var name, writable := ChildText(item, Local("Name"), 256, false), ChildText(item, Local("Writable"), 8, false);
      if name.None? || writable.None? || Strip(writable.value) !in {"true", "false", "1", "0"} then None
      else Some(Info(name.value, Strip(writable.value) in {"true", "1"}))
  }

  function InfoNames(infos: seq<Info>): set<string> { set i | i in infos :: i.name }

  function Infos(items: seq<Node>, n: nat): Option<seq<Info>>
    requires n <= |items|
  {
    if n == 0 then Some([])
    else
      var before, one := Infos(items, n - 1), InfoOf(items[n - 1]);
      if before.None? || one.None? || one.value.name in InfoNames(before.value) then None
      else Some(before.value + [one.value])
  }

  const VALUES_RESPONSE := QName(CWMP, "GetParameterValuesResponse")
  const NAMES_RESPONSE := QName(CWMP, "GetParameterNamesResponse")

  function ParseValues(root: Node, id: string, list: Node): Option<Reply> {
    var items := ArrayOf(list, Local("ParameterValueStruct"), 16);
    var types := Types(root, map[]);
    if items.None? || |types| != |items.value| then None
    else
      match Parameters(items.value, types, |types|)
      case None => None
      case Some(ps) => Some(ValuesReply(id, ps))
  }

  function ParseNames(id: string, list: Node): Option<Reply> {
    match ArrayOf(list, Local("ParameterInfoStruct"), 128)
    case None => None
    case Some(items) =>
      match Infos(items, |items|)
      case None => None
      case Some(infos) => Some(NamesReply(id, infos))
  }

  function ParseBody(root: Node, id: string, rpc: Node): Option<Reply> {
    if rpc.tag == QName(SOAP, "Fault") then ParseFault(id, rpc)
    else if !FieldsAre(rpc, [Local("ParameterList")]) then None
    else if rpc.tag == VALUES_RESPONSE then ParseValues(root, id, rpc.children[0])
    else ParseNames(id, rpc.children[0])
  }

  function ParseReply(root: Node): Parsed {
    match ParseEnvelope(root)
    case None => Malformed
    case Some(found) =>
      if found.1.tag !in {QName(SOAP, "Fault"), VALUES_RESPONSE, NAMES_RESPONSE} then Unsupported(found.0)
      else
        match ParseBody(root, found.0, found.1)
        case None => Malformed
        case Some(reply) => Accepted(reply)
  }

  /** The loop over the items of a values reply, with the names it has seen. */
  method ReadParameters(items: seq<Node>, types: seq<QName>) returns (r: Option<seq<Parameter>>)
    requires |items| == |types|
    ensures r == Parameters(items, types, |types|)
    ensures r.Some? ==> DistinctBy(ParameterName, r.value)
    ensures r.Some? <==>
      && (forall i | 0 <= i < |items| :: ParameterOf(items[i], types[i]).Some?)
      && (forall i, j | 0 <= i < j < |items| ::
            ParameterOf(items[i], types[i]).value.name != ParameterOf(items[j], types[j]).value.name)
  {
    hide ParameterOf;
    ParametersExactly(items, types, |types|);
    var names: set<string> := {};
    var parameters: seq<Parameter> := [];
    for i := 0 to |items|
      invariant Parameters(items, types, i) == Some(parameters) && names == NameSet(parameters)
    {
      ParametersExactly(items, types, i + 1);
      match ParameterOf(items[i], types[i])
      case None =>
        return None;
      case Some(q) =>
        if q.name in names {
          PrefixFails(items, types, i + 1, |types|);
          return None;
        }
        assert NameSet(parameters + [q]) == NameSet(parameters) + {q.name};
        names := names + {q.name};
        parameters := parameters + [q];
    }
    return Some(parameters);
  }

  lemma {:induction false} PrefixFails(items: seq<Node>, types: seq<QName>, n: nat, m: nat)
    requires n <= m <= |items| == |types| && Parameters(items, types, n).None?
    ensures Parameters(items, types, m).None?
  {
    hide ParameterOf;
    if n < m { PrefixFails(items, types, n, m - 1); }
  }

  // ----- What an accepted reply is -----

  predicate ValidParameter(q: Parameter) {
    && 1 <= |q.name| <= 256 && |q.value| <= 4096
    && exists kind :: kind in KINDS && q.xsdType == "xsd:" + kind && ValueFits(kind, q.value)
  }

  /** Every reply that the parser may accept. */
  ghost predicate ValidReply(r: Reply) {
    && DistinctReply(r)
    && match r
       case FaultReply(_, code) => 9000 <= code <= 9999
       case NamesReply(_, names) => |names| <= 128 && forall i | i in names :: 1 <= |i.name| <= 256
       case ValuesReply(_, ps) => |ps| <= 16 && forall q | q in ps :: ValidParameter(q)
  }

  /** Parameters are accepted when every item is well formed and no name repeats; then each is its own item's. */
  lemma {:induction false} ParametersExactly(items: seq<Node>, types: seq<QName>, n: nat)
    requires n <= |items| == |types|
    ensures var r := Parameters(items, types, n);
            && (r.Some? <==>
                  && (forall i | 0 <= i < n :: ParameterOf(items[i], types[i]).Some?)
                  && (forall i, j | 0 <= i < j < n ::
                        ParameterOf(items[i], types[i]).value.name != ParameterOf(items[j],
                            types[j]).value.name))
            && (r.Some? ==>
                  && |r.value| == n && DistinctBy(ParameterName, r.value)
                  && forall i | 0 <= i < n :: Some(r.value[i]) == ParameterOf(items[i], types[i]))
  {
    hide ParameterOf;
    if n > 0 {
      ParametersExactly(items, types, n - 1);
      var before, one := Parameters(items, types, n - 1), ParameterOf(items[n - 1], types[n - 1]);
      if before.Some? && one.Some? {
        NameListed(before.value, one.value.name);
      }
    }
  }

  lemma NameListed(ps: seq<Parameter>, name: string)
    ensures name in NameSet(ps) <==> exists i :: 0 <= i < |ps| && ps[i].name == name
  {}

  lemma InfoListed(infos: seq<Info>, name: string)
    ensures name in InfoNames(infos) <==> exists i :: 0 <= i < |infos| && infos[i].name == name
  {}

  lemma {:induction false} InfosExactly(items: seq<Node>, n: nat)
    requires n <= |items|
    ensures var r := Infos(items, n);
            && (r.Some? <==>
                  && (forall i | 0 <= i < n :: InfoOf(items[i]).Some?)
                  && (forall i, j | 0 <= i < j < n ::
                      InfoOf(items[i]).value.name != InfoOf(items[j]).value.name))
            && (r.Some? ==>
                  && |r.value| == n && DistinctBy(InfoName, r.value)
                  && forall i | 0 <= i < n :: Some(r.value[i]) == InfoOf(items[i]))
  {
    hide InfoOf;
    if n > 0 {
      InfosExactly(items, n - 1);
      var before, one := Infos(items, n - 1), InfoOf(items[n - 1]);
      if before.Some? && one.Some? {
        InfoListed(before.value, one.value.name);
      }
    }
  }

  lemma ParameterIsValid(item: Node, kind: QName)
    requires ParameterOf(item, kind).Some?
    ensures ValidParameter(ParameterOf(item, kind).value)
  {}

  lemma InfoIsValid(item: Node)
    requires InfoOf(item).Some?
    ensures 1 <= |InfoOf(item).value.name| <= 256
  {}

  lemma EnvelopeId(root: Node)
    requires ParseEnvelope(root).Some?
    ensures 1 <= |ParseEnvelope(root).value.0| <= 256
  {
    hide Height, FieldsAre, Understood;
  }

  /** The parser accepts only valid replies: bounded, with distinct names and values that fit their types. */
  lemma AcceptedIsValid(root: Node)
    requires ParseReply(root).Accepted?
    ensures ValidReply(ParseReply(root).reply)
    ensures 1 <= |ParseReply(root).reply.rpcId| <= 256
  {
    hide ParameterOf, InfoOf, ValidParameter, Types, ParseEnvelope, ParseFault;
    var found := ParseEnvelope(root).value;
    EnvelopeId(root);
    FaultInRange(found.0, found.1);
    if found.1.tag == VALUES_RESPONSE {
      var items, types := found.1.children[0].children, Types(root, map[]);
      ParametersExactly(items, types, |types|);
      var ps := Parameters(items, types, |types|).value;
      forall q | q in ps ensures ValidParameter(q) {
        var i :| 0 <= i < |ps| && ps[i] == q;
        ParameterIsValid(items[i], types[i]);
      }
    } else if found.1.tag == NAMES_RESPONSE {
      var items := found.1.children[0].children;
      InfosExactly(items, |items|);
      var infos := Infos(items, |items|).value;
      forall x | x in infos ensures 1 <= |x.name| <= 256 {
        var i :| 0 <= i < |infos| && infos[i] == x;
        InfoIsValid(items[i]);
      }
    }
  }

  lemma FaultInRange(id: string, rpc: Node)
    ensures ParseFault(id, rpc).Some? ==>
              ParseFault(id, rpc).value.FaultReply? && ParseFault(id, rpc).value.rpcId == id
                  && 9000 <= ParseFault(id, rpc).value.code <= 9999
  {}

  // ----- The types of a values reply -----

  /** One parameter of a list, as the parser requires it. */
  predicate ItemShape(item: Node) {
    && item.tag == Local("ParameterValueStruct") && FieldsAre(item, [Local("Name"), VALUE])
    && item.children[0].children == [] && item.children[1].children == []
  }

  /** The type of an item's own value, in the scope of that value. */
  function OwnType(item: Node, outer: Bindings): QName
    requires ItemShape(item)
  {
    var value := item.children[1];
    ResolveType(TypeAttribute(value), outer + Bound(item.decls) + Bound(value.decls))
  }

  lemma LeafTypes(n: Node, b: Bindings)
    requires n.children == []
    ensures Types(n, b) == if n.tag == VALUE then [ResolveType(TypeAttribute(n), b + Bound(n.decls))] else []
  {}

  lemma ItemType(item: Node, outer: Bindings)
    requires ItemShape(item)
    ensures Types(item, outer) == [OwnType(item, outer)]
  {
    hide ResolveType, TypeAttribute;
    var b := outer + Bound(item.decls);
    var name, value := item.children[0], item.children[1];
    assert item.children == [name, value] && [name, value][1..] == [value] && [value][1..] == [];
    LeafTypes(name, b);
    LeafTypes(value, b);
    assert TypesAll([name, value], b) == Types(name, b) + TypesAll([value], b);
    assert TypesAll([value], b) == Types(value, b) + TypesAll([], b);
  }

  lemma {:induction false} ItemTypes(items: seq<Node>, outer: Bindings)
    requires forall item | item in items :: ItemShape(item)
    ensures |TypesAll(items, outer)| == |items|
    ensures forall i | 0 <= i < |items| :: ItemShape(items[i]) && TypesAll(items, outer)[i] == OwnType(items[i], outer)
  {
    hide ItemShape, OwnType, Types;
    if items != [] {
      assert items == [items[0]] + items[1..];
      ItemType(items[0], outer);
      ItemTypes(items[1..], outer);
    }
  }

  lemma OneChild(n: Node, outer: Bindings)
    requires |n.children| == 1 && n.tag != VALUE
    ensures Types(n, outer) == Types(n.children[0], outer + Bound(n.decls))
  {
    hide ResolveType, TypeAttribute;
    assert n.children == [n.children[0]] && n.children[1..] == [];
    assert TypesAll([], outer + Bound(n.decls)) == [];
  }

  /** The bindings in force for the items of a list inside an envelope. */
  function ListScope(root: Node): Bindings
    requires FieldsAre(root, [QName(SOAP, "Header"), QName(SOAP, "Body")]) && |root.children[1].children| == 1
    requires |root.children[1].children[0].children| == 1
  {
    var body := root.children[1];
    var rpc := body.children[0];
    Bound(root.decls) + Bound(body.decls) + Bound(rpc.decls) + Bound(rpc.children[0].decls)
  }

  /** All types of an envelope are those of its header, then those of the listed items. */
  lemma EnvelopeTypes(root: Node)
    requires root.tag == QName(SOAP, "Envelope") && FieldsAre(root, [QName(SOAP, "Header"), QName(SOAP, "Body")])
    requires |root.children[1].children| == 1 && root.children[1].children[0].tag.uri == CWMP
    requires FieldsAre(root.children[1].children[0], [Local("ParameterList")])
    ensures Types(root, map[]) == Types(root.children[0], Bound(root.decls))
                                  + TypesAll(root.children[1].children[0].children[0].children, ListScope(root))
  {
    hide ResolveType, TypeAttribute;
    var header, body := root.children[0], root.children[1];
    var rpc := body.children[0];
    var list := rpc.children[0];
    assert map[] + Bound(root.decls) == Bound(root.decls);
    assert root.children == [header, body] && [header, body][1..] == [body] && [body][1..] == [];
    OneChild(body, Bound(root.decls));
    OneChild(rpc, Bound(root.decls) + Bound(body.decls));
    assert Types(root, map[]) == TypesAll([header, body], Bound(root.decls));
    assert CWMP != "" && SOAP != "";
    assert TypesAll([body], Bound(root.decls)) == Types(body, Bound(root.decls));
  }

  /** When a values reply is accepted, the resolved type that stands at a position of the document's type list is the
      type of the value at that position: no other element can have shifted the list. */
  lemma TypesBelong(root: Node)
    requires ParseReply(root).Accepted? && ParseReply(root).reply.ValuesReply?
    ensures var ps := ParseReply(root).reply.parameters;
            && FieldsAre(root, [QName(SOAP, "Header"), QName(SOAP, "Body")]) && |root.children[1].children| == 1
            && |root.children[1].children[0].children| == 1
            && var items := root.children[1].children[0].children[0].children;
               && |items| == |ps|
               && forall i | 0 <= i < |ps| ::
                    && ItemShape(items[i]) && |items[i].children| == 2 && OwnType(items[i], ListScope(root)).uri == XSD
                    && ps[i].xsdType == "xsd:" + OwnType(items[i], ListScope(root)).local
                    && ps[i].name == items[i].children[0].text && ps[i].value == items[i].children[1].text
  {
    hide ParameterOf, Types, OwnType, ItemShape, ParseReply, Parameters, ListScope;
    ValuesStructure(root);
    var list := root.children[1].children[0].children[0];
    var items, types := list.children, Types(root, map[]);
    ParametersExactly(items, types, |types|);
    var ps := Parameters(items, types, |types|).value;
    forall i | 0 <= i < |items|
      ensures ItemShape(items[i]) && |items[i].children| == 2 && types[i].uri == XSD
              && ps[i].xsdType == "xsd:" + types[i].local
              && ps[i].name == items[i].children[0].text && ps[i].value == items[i].children[1].text
    {
      ParameterShape(items[i], types[i]);
    }
    EnvelopeTypes(root);
    ItemTypes(items, ListScope(root));
  }

  /** What has been checked when a values reply is accepted. */
  lemma ValuesStructure(root: Node)
    requires ParseReply(root).Accepted? && ParseReply(root).reply.ValuesReply?
    ensures root.tag == QName(SOAP, "Envelope") && FieldsAre(root, [QName(SOAP, "Header"), QName(SOAP, "Body")])
    ensures |root.children[1].children| == 1 && root.children[1].children[0].tag == VALUES_RESPONSE
    ensures FieldsAre(root.children[1].children[0], [Local("ParameterList")])
    ensures var items, types := root.children[1].children[0].children[0].children, Types(root, map[]);
            && |items| == |types| && (forall i | 0 <= i < |items| :: items[i].tag == Local("ParameterValueStruct"))
            && Parameters(items, types, |types|) == Some(ParseReply(root).reply.parameters)
  {}

  lemma ParameterShape(item: Node, kind: QName)
    requires item.tag == Local("ParameterValueStruct") && ParameterOf(item, kind).Some?
    ensures var q := ParameterOf(item, kind).value;
            && ItemShape(item) && |item.children| == 2 && kind.uri == XSD && q.xsdType == "xsd:" + kind.local
            && q.name == item.children[0].text && q.value == item.children[1].text
  {
    hide ValueFits;
    PairChildren(item, Local("Name"), VALUE);
  }

  /** Named children of a pair of fields are its two children. */
  lemma PairChildren(n: Node, a: QName, b: QName)
    requires a != b && FieldsAre(n, [a, b])
    ensures Child(n, a) == Some(n.children[0]) && Child(n, b) == Some(n.children[1])
  {
    assert n.children == [n.children[0], n.children[1]];
    assert n.children[1..] == [n.children[1]] && n.children[1..][1..] == [];
    assert WithTag([], a) == [] && WithTag([], b) == [];
    assert WithTag(n.children[1..], a) == [] && WithTag(n.children[1..], b) == [n.children[1]];
  }
}
