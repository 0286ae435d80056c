/** What a bundle of evidence shows of a reply: which parameters it keeps, which values it replaces and by what. */
module Disclosure {
  import opened Text
  import opened Numbers
  import opened Domain
  import opened Policies
  import opened Telemetry
  import opened Huawei
  import opened Xml
  import opened Soap
  import opened SoapPrinter
  import opened Relabel
  import opened Evidence
  import opened EvidenceProofs
  import Grammar
  import FieldNames
  import ReadResults

  // ----- What is shown of one parameter -----

  /** One of the addresses that documentation uses, of that version. */
  ghost predicate Documentation(v4: bool, t: string) {
    exists i: nat :: 1 <= i && t == if v4 then "192.0.2." + InBase(i, false) else "2001:db8::" + InBase(i, true)
  }

  function Observed(lib: Lib, plan: Plan, q: Parameter): Option<TelemetryObservation> {
    match FieldName(plan.path, q.name, plan.scope)
    case None => None
    case Some(name) => Some(Observe(lib, name, q, plan.profileId))
  }

  /** A valid field of addresses; its MAC address or all its addresses are replaced. */
  predicate Replaced(lib: Lib, plan: Plan, q: Parameter) {
    var o := Observed(lib, plan, q);
    plan.scope.Wan? && o.Some? && o.value.state.Valid? && o.value.name in {Ipv4, Ipv6, Dns, Mac}
  }

  /** What is kept: of basic information the printable strings, of the optics the decimal numbers, of a WAN the fields
      that are valid or say nothing. */
  predicate Disclosed(lib: Lib, plan: Plan, q: Parameter) {
    match plan.scope
    case DeviceInfo => q.xsdType == "xsd:string" && |q.value| <= 256 && forall c | c in q.value :: lib.printable(c)
    case Optical =>
      Observed(lib, plan, q).Some? && q.xsdType in {"xsd:string", "xsd:int", "xsd:unsignedInt"}
      && DecimalText(Strip(q.value))
    case _ =>
      var o := Observed(lib, plan, q);
      o.Some? && (o.value.state.Valid? || o.value.state.Unavailable?)
  }

  /** Every part of the kept text is a documentation address of the version of the address it stands for. */
  ghost predicate AllDocumentation(lib: Lib, q: Parameter, kept: string) {
    var parts, shown := Split(Strip(q.value), ','), Split(kept, ',');
    && |shown| == |parts|
    && forall k | 0 <= k < |parts| ::
         lib.parse(Strip(parts[k])).Some? && Documentation(lib.parse(Strip(parts[k])).value.v4, shown[k])
  }

  /** How a kept parameter appears: as it was, unless it is replaced. */
  ghost predicate Appears(lib: Lib, plan: Plan, q: Parameter, x: Parameter) {
    && Disclosed(lib, plan, q) && x.name == q.name && x.xsdType == q.xsdType
    && if !Replaced(lib, plan, q) then x.value == q.value
       else if Observed(lib, plan, q).value.name.Mac? then x.value == "02:00:00:00:00:01"
       else AllDocumentation(lib, q, x.value)
  }

  lemma LabelDocumented(s: Labels, v4: bool, l: string)
    requires GivenLabel(s, v4, l)
    ensures Documentation(v4, l)
  {}

  lemma AddressesDocumented(lib: Lib, name: TelemetryName, q: Parameter, profile: string, s: Labels)
    requires AddressLib(lib) && Proper(lib, s) && s.v4 + s.v6 + 8 <= MOST
    requires (name.Ipv4? || name.Ipv6? || name.Dns?) && Observe(lib, name, q, profile).state.Valid?
    ensures var r := Relabelled(lib, s, Split(Strip(q.value), ','));
            && r.Some? && Proper(lib, r.value.0) && r.value.0.v4 + r.value.0.v6 <= s.v4 + s.v6 + 8
            && AllDocumentation(lib, q, Join(r.value.1, ','))
  {
    hide Strip, Split, Join, Relabelled, Proper, AddressLib, GivenLabel, Documentation, Observe;
    RelabelledIsValid(lib, name, q, profile, s);
    AddressParts(lib, name, q, profile);
    var parts := Split(Strip(q.value), ',');
    RelabelledParts(lib, s, parts);
    var (r, labels) := Relabelled(lib, s, parts).value;
    forall k | 0 <= k < |parts|
      ensures lib.parse(Strip(parts[k])).Some? && Documentation(lib.parse(Strip(parts[k])).value.v4, labels[k])
    {
      assert parts[k] in parts;
      LabelDocumented(r, lib.parse(Strip(parts[k])).value.v4, labels[k]);
    }
  }

  /** One parameter: dropped, or kept as it may appear and listed exactly when it is replaced. */
  ghost predicate StepShows(lib: Lib, plan: Plan, w: Work, q: Parameter, r: Work) {
    && (Disclosed(lib, plan, q) ==>
          |r.retained| == |w.retained| + 1 && r.retained[..|w.retained|] == w.retained
          && Appears(lib, plan, q, r.retained[|w.retained|]))
    && (!Disclosed(lib, plan, q) ==> r.retained == w.retained)
    && r.substituted == w.substituted + if Replaced(lib, plan, q) then [q.name] else []
  }

  lemma StepDiscloses(lib: Lib, plan: Plan, w: Work, q: Parameter)
    requires AddressLib(lib) && Proper(lib, w.labels) && w.labels.v4 + w.labels.v6 + 8 <= MOST && q.name in plan.names
             && !plan.scope.Discovery?
    requires ProjectOne(lib, plan, w, q).Some?
    ensures var r := ProjectOne(lib, plan, w, q).value;
            Proper(lib, r.labels) && r.labels.v4 + r.labels.v6 <= w.labels.v4 + w.labels.v6 + 8
            && StepShows(lib, plan, w, q, r)
  {
    hide FieldName, Observe, Split, Strip, Join, Relabelled, Proper, DecimalText, AddressLib, AllDocumentation;
    if FieldName(plan.path, q.name, plan.scope).Some? {
      var name := FieldName(plan.path, q.name, plan.scope).value;
      ObserveShape(lib, name, q, plan.profileId);
      if Replaced(lib, plan, q) && !name.Mac? { AddressesDocumented(lib, name, q, plan.profileId, w.labels); }
    }
  }

  // ----- What is shown of a reply -----

  /** Of some parameters each that may be shown is kept as it appears, and nothing else is kept. */
  ghost predicate Kept(lib: Lib, plan: Plan, ps: seq<Parameter>, kept: seq<Parameter>) {
    && (forall x | x in kept :: exists q :: q in ps && Appears(lib, plan, q, x))
    && (forall q | q in ps && Disclosed(lib, plan, q) :: exists x :: x in kept && Appears(lib, plan, q, x))
  }

  /** The names listed are those of the parameters replaced. */
  ghost predicate Listed(lib: Lib, plan: Plan, ps: seq<Parameter>, names: seq<string>) {
    forall s :: s in names <==> exists q :: q in ps && q.name == s && Replaced(lib, plan, q)
  }

  ghost predicate Shows(lib: Lib, plan: Plan, ps: seq<Parameter>, w: Work) {
    Kept(lib, plan, ps, w.retained) && Listed(lib, plan, ps, w.substituted)
    && (Ascending(ParameterName, ps) ==> Ascending(Self, w.substituted))
  }

  lemma KeptMore(lib: Lib, plan: Plan, ps: seq<Parameter>, w: Work, q: Parameter, r: Work)
    requires Kept(lib, plan, ps, w.retained) && StepShows(lib, plan, w, q, r)
    ensures Kept(lib, plan, ps + [q], r.retained)
  {
    hide Appears, Disclosed, Replaced;
    if Disclosed(lib, plan, q) { assert r.retained == w.retained + [r.retained[|w.retained|]]; }
  }

  lemma ListedMore(lib: Lib, plan: Plan, ps: seq<Parameter>, w: Work, q: Parameter, r: Work)
    requires Listed(lib, plan, ps, w.substituted) && StepShows(lib, plan, w, q, r)
    ensures Listed(lib, plan, ps + [q], r.substituted)
  {
    hide Appears, Disclosed, Replaced;
  }

  lemma ListedAscends(lib: Lib, plan: Plan, ps: seq<Parameter>, w: Work, q: Parameter, r: Work)
    requires Listed(lib, plan, ps, w.substituted) && StepShows(lib, plan, w, q, r)
    requires Ascending(ParameterName, ps + [q]) && Ascending(Self, w.substituted)
    ensures Ascending(Self, r.substituted)
  {
    hide Appears, Disclosed, Replaced;
    if Replaced(lib, plan, q) {
      forall i | 0 <= i < |w.substituted| ensures Less(Self(w.substituted[i]), Self(q.name)) {
        assert w.substituted[i] in w.substituted;
        var p :| p in ps && p.name == w.substituted[i] && Replaced(lib, plan, p);
        var k :| 0 <= k < |ps| && ps[k] == p;
        assert Less(ParameterName((ps + [q])[k]), ParameterName((ps + [q])[|ps|]));
      }
    }
  }

  lemma FrontAscends(ps: seq<Parameter>, q: Parameter)
    requires Ascending(ParameterName, ps + [q])
    ensures Ascending(ParameterName, ps)
  {
    forall i, j | 0 <= i < j < |ps| ensures Less(ParameterName(ps[i]), ParameterName(ps[j])) {
      assert Less(ParameterName((ps + [q])[i]), ParameterName((ps + [q])[j]));
    }
  }

  lemma {:induction false} AllShown(lib: Lib, plan: Plan, ps: seq<Parameter>, n: nat)
    requires AddressLib(lib) && n <= |ps| <= 16 && (forall q | q in ps :: q.name in plan.names)
             && !plan.scope.Discovery?
             && Projected(lib, plan, ps, n).Some?
    ensures var w := Projected(lib, plan, ps, n).value;
            Proper(lib, w.labels) && w.labels.v4 + w.labels.v6 <= 8 * n && Shows(lib, plan, ps[..n], w)
  {
    hide ProjectOne, Proper, AddressLib, Kept, Listed, StepShows, Ascending;
    if n == 0 {
      NoneLinked(lib);
      NothingShown(lib, plan);
    } else {
      AllShown(lib, plan, ps, n - 1);
      assert ps[n - 1] in ps && ps[..n] == ps[..n - 1] + [ps[n - 1]];
      var w, r := Projected(lib, plan, ps, n - 1).value, Projected(lib, plan, ps, n).value;
      StepDiscloses(lib, plan, w, ps[n - 1]);
      KeptMore(lib, plan, ps[..n - 1], w, ps[n - 1], r);
      ListedMore(lib, plan, ps[..n - 1], w, ps[n - 1], r);
      if Ascending(ParameterName, ps[..n]) {
        FrontAscends(ps[..n - 1], ps[n - 1]);
        ListedAscends(lib, plan, ps[..n - 1], w, ps[n - 1], r);
      }
    }
  }

  lemma NothingShown(lib: Lib, plan: Plan)
    ensures Shows(lib, plan, [], START)
  {}

  lemma SameShown(lib: Lib, plan: Plan, ps: seq<Parameter>, qs: seq<Parameter>, kept: seq<Parameter>,
                  names: seq<string>)
    requires (forall q :: q in ps <==> q in qs) && Kept(lib, plan, ps, kept) && Listed(lib, plan, ps, names)
    ensures Kept(lib, plan, qs, kept) && Listed(lib, plan, qs, names)
  {
    hide Appears, Disclosed, Replaced;
  }

  // ----- What a bundle shows -----

  lemma PackagedSize(plan: Plan, kind: Kind, id: string, ps: seq<Parameter>)
    requires Packaged(plan, kind, ValuesReply(id, ps))
    ensures |ps| <= 16 && DistinctBy(ParameterName, ps) && !plan.scope.Discovery?
            && forall q | q in ps :: q.name in plan.names
  {
    hide Made, ValidParameter;
    PlanSizes(plan);
    SameCount(ps, plan.names, plan);
    forall q | q in ps ensures q.name in plan.names { assert q.name in NameSet(ps); }
  }

  /** The bundle of a reply keeps exactly the parameters that may be shown, each as it appears, and lists in ascending
      order the names of those replaced. */
  lemma BundleShows(lib: Lib, id: string, ps: seq<Parameter>, plan: Plan, kind: Kind, at: Time)
    requires AddressLib(lib) && Packaged(plan, kind, ValuesReply(id, ps))
    ensures var b := EvidenceOf(lib, ValuesReply(id, ps), plan, kind, at);
            && b.Some? && Ascending(Self, b.value.manifest.substituted)
            && Listed(lib, plan, ps, b.value.manifest.substituted)
            && exists kept ::
                 b.value.response == Response(ValuesReply(RPC_ID, kept)) && Kept(lib, plan, ps, kept)
                 && Ascending(ParameterName, kept)
  {
    hide Packaged, Request, Response, WithinLimits, Missing, AddressLib, Verify, Listed, Kept, Projected, Ascending;
    var sorted := SortBy(ParameterName, ps);
    EvidenceFixedPoint(lib, ValuesReply(id, ps), plan, kind, at);
    PackagedSize(plan, kind, id, ps);
    SortAscends(ParameterName, ps);
    SortMembers(ParameterName, ps);
    ProjectedAgain(lib, plan, sorted, |sorted|);
    AllShown(lib, plan, sorted, |sorted|);
    assert sorted[..|sorted|] == sorted;
    var w := Projected(lib, plan, sorted, |sorted|).value;
    SameShown(lib, plan, sorted, ps, w.retained, w.substituted);
    assert EvidenceOf(lib, ValuesReply(id, ps), plan, kind, at)
           == Some(BundleOf(ValuesReply(id, ps), w, plan, kind, at, |ps|));
  }

  lemma {:induction false} UnkeptAre(names: seq<string>, kept: seq<Parameter>)
    ensures forall n :: n in Unkept(names, kept) <==> n in names && n !in NameSet(kept)
  {
    hide NameSet;
    if names != [] {
      UnkeptAre(names[1..], kept);
      assert names == [names[0]] + names[1..];
    }
  }

  /** The manifest says of any packaged reply what was asked, of which device, when and how many entries came; of values
      it lists in ascending order the names asked for that are not kept. */
  lemma ManifestSays(lib: Lib, reply: Reply, plan: Plan, kind: Kind, at: Time)
    requires AddressLib(lib) && Packaged(plan, kind, reply)
    ensures var b := EvidenceOf(lib, reply, plan, kind, at);
            && b.Some?
            && var m := b.value.manifest;
            && m.target == plan.target && m.profileId == plan.profileId && m.profileVersion == plan.profileVersion
            && m.kind == kind && m.scope == plan.scope && m.path == plan.path && m.requested == plan.names
            && m.receivedAt == at && m.receivedCount == EntryCount(reply)
            && Ascending(Self, m.omitted)
            && match reply
               case ValuesReply(_, ps) =>
                 forall n :: n in m.omitted <==>
                   n in plan.names && forall q | q in ps && q.name == n :: !Disclosed(lib, plan, q)
               case NamesReply(id, names) =>
                 && m.omitted == [] && m.substituted == []
                 && exists kept ::
                      b.value.response == Response(NamesReply(id, kept))
                      && forall i :: i in kept <==> i in names && ReadResults.ApprovedName(plan, i.name)
               case FaultReply(_, _) => m.omitted == [] && m.substituted == [] && b.value.response == Response(reply)
  {
    hide Packaged, Request, Response, WithinLimits, AddressLib, Verify, Listed, Kept, Projected, Ascending, Disclosed,
      Appears, Huawei.Listed, ReadResults.ApprovedName;
    forall i ensures Huawei.Listed(plan, i) <==> ReadResults.ApprovedName(plan,
                                                                          i.name) { ReadResults.ListedExactly(plan,
                                                                              i); }
    EvidenceFixedPoint(lib, reply, plan, kind, at);
    NoneAscends();
    if reply.ValuesReply? {
      var sorted := SortBy(ParameterName, reply.parameters);
      var w := Projected(lib, plan, sorted, |sorted|).value;
      SortedSetIs(Unkept(plan.names, w.retained));
      UnkeptAre(plan.names, w.retained);
      OmittedAre(lib, reply.rpcId, reply.parameters, plan, kind, at);
    } else {
      NothingProjected(lib, plan);
    }
  }

  lemma NoneAscends()
    ensures Ascending(Self, [])
  {}

  lemma NothingProjected(lib: Lib, plan: Plan)
    ensures Projected(lib, plan, SortBy(ParameterName, []), |SortBy(ParameterName, [])|) == Some(START)
  {}

  lemma OmittedAre(lib: Lib, id: string, ps: seq<Parameter>, plan: Plan, kind: Kind, at: Time)
    requires AddressLib(lib) && Packaged(plan, kind, ValuesReply(id, ps))
    ensures var sorted := SortBy(ParameterName, ps);
            && Projected(lib, plan, sorted, |sorted|).Some?
            && forall n | n in plan.names ::
                 n !in NameSet(Projected(lib, plan, sorted, |sorted|).value.retained) <==>
                   forall q | q in ps && q.name == n :: !Disclosed(lib, plan, q)
  {
    hide Packaged, AddressLib, Projected, Disclosed, Replaced, Observed, AllDocumentation;
    var sorted := SortBy(ParameterName, ps);
    PackagedSize(plan, kind, id, ps);
    SortAscends(ParameterName, ps);
    SortMembers(ParameterName, ps);
    ProjectedAgain(lib, plan, sorted, |sorted|);
    AllShown(lib, plan, sorted, |sorted|);
    assert sorted[..|sorted|] == sorted;
    assert Shows(lib, plan, sorted, Projected(lib, plan, sorted, |sorted|).value);
  }

  // ----- What any accepted bundle shows -----

  /** A field of addresses that shows none but documentation's, or nothing. */
  ghost predicate Harmless(path: string, scope: Scope, x: Parameter) {
    var name, raw := FieldName(path, x.name, scope), Strip(x.value);
    && (name == Some(Mac) ==> raw == "" || x.value == "02:00:00:00:00:01")
    && (name in {Some(Ipv4), Some(Ipv6), Some(Dns)} ==>
          || raw in {"", "0.0.0.0", "::"}
          || forall t | t in Split(x.value, ',') :: Documentation(true, t) || Documentation(false, t))
  }

  lemma AppearsHarmless(lib: Lib, plan: Plan, q: Parameter, x: Parameter)
    requires plan.scope.Wan? && Appears(lib, plan, q, x)
    ensures Harmless(plan.path, plan.scope, x)
  {
    hide FieldName, Split, Strip, Documentation, DecimalText, UnicastMac, MacText, DnsTexts;
    if FieldName(plan.path, q.name, plan.scope).Some? {
      ObserveShape(lib, FieldName(plan.path, q.name, plan.scope).value, q, plan.profileId);
    }
  }

  lemma {:induction false} ProjectedAsked(lib: Lib, plan: Plan, ps: seq<Parameter>, n: nat)
    requires n <= |ps| && Projected(lib, plan, ps, n).Some?
    ensures forall i | 0 <= i < n :: ps[i].name in plan.names
  {
    hide ProjectWan, FieldName, SafeText, DecimalText;
    if n > 0 { ProjectedAsked(lib, plan, ps, n - 1); }
  }

  ghost predicate HarmlessBundle(b: Bundle) {
    b.manifest.scope.Wan? ==>
      exists reply ::
        b.response == Response(reply)
        && (reply.ValuesReply? ==>
              forall x | x in reply.parameters :: Harmless(b.manifest.path, b.manifest.scope, x))
  }

  lemma BuiltHarmless(lib: Lib, reply: Reply, plan: Plan, kind: Kind, at: Time, count: nat)
    requires AddressLib(lib) && plan.scope.Wan? && Build(lib, reply, plan, kind, at, count).Some?
             && |EntriesOf(reply)| <= 16
    ensures HarmlessBundle(Build(lib, reply, plan, kind, at, count).value)
  {
    hide Projected, Response, Request, WithinLimits, Missing, AddressLib, Harmless, Appears, Disclosed, Listed;
    var ps := SortBy(ParameterName, EntriesOf(reply));
    SortMembers(ParameterName, EntriesOf(reply));
    ProjectedAsked(lib, plan, ps, |ps|);
    AllShown(lib, plan, ps, |ps|);
    var w := Projected(lib, plan, ps, |ps|).value;
    forall x | x in w.retained ensures Harmless(plan.path, plan.scope, x) {
      var q :| q in ps[..|ps|] && Appears(lib, plan, q, x);
      AppearsHarmless(lib, plan, q, x);
    }
  }

  /** No bundle that verifies shows an address of a WAN field other than documentation's. */
  lemma VerifiedIsHarmless(lib: Lib, b: Bundle)
    requires AddressLib(lib) && Verify(lib, b) == Some(b)
    ensures HarmlessBundle(b)
  {
    hide Resolve, ParseReply, MakePlan, WithinLimits, AddressLib, HarmlessBundle, Below, KeptNames, Build;
    var m := b.manifest;
    var plan := MakePlan(m.target, m.scope, PathOf(m.scope, m.path), m.requested).value;
    PlanFitsRequest(m.target, m.scope, PathOf(m.scope, m.path), m.requested);
    assert Made(plan);
    PlanSizes(plan);
    var reply := ParseReply(Resolve(b.response, map[]).value).reply;
    if m.scope.Wan? { BuiltHarmless(lib, Listing(reply, plan), plan, m.kind, m.receivedAt, m.receivedCount); }
    else { assert HarmlessBundle(b) by { NotWan(b); } }
  }

  lemma NotWan(b: Bundle)
    requires !b.manifest.scope.Wan?
    ensures HarmlessBundle(b)
  {}

  // ----- Which bundles verify -----

  /** The bundle holds a document that says the reply, fits its own manifest, and is what building from the two
      gives. */
  ghost predicate EvidenceOfReply(lib: Lib, b: Bundle, plan: Plan, reply: Reply) {
    var m := b.manifest;
    && MakePlan(m.target, m.scope, PathOf(m.scope, m.path), m.requested) == Some(plan)
    && (m.scope.Discovery? ==> m.kind.GetNames?) && (m.scope.Wan? || m.scope.Optical? ==> m.kind.GetValues?)
    && (exists doc :: Resolve(b.response, map[]) == Some(doc) && Grammar.Document(doc, reply))
    && (match reply
        case FaultReply(_, _) => true
        case NamesReply(_, names) =>
          m.kind.GetNames? && |names| <= m.receivedCount && forall i | i in names ::
              FieldNames.BelowPath(m.path, i.name)
        case ValuesReply(_, ps) => m.kind.GetValues? && |ps| <= m.receivedCount == |m.requested|)
    && Build(lib, Listing(reply, plan), plan, m.kind, m.receivedAt, m.receivedCount) == Some(b)
  }

  lemma BuiltManifest(lib: Lib, reply: Reply, plan: Plan, kind: Kind, at: Time, count: nat)
    ensures var b := Build(lib, reply, plan, kind, at, count);
            b.Some? ==>
              && WithinLimits(b.value.manifest) && b.value.manifest.profileId == plan.profileId
              && b.value.manifest.profileVersion == plan.profileVersion && b.value.manifest.path == plan.path
              && b.value.manifest.requested == plan.names && b.value.manifest.scope == plan.scope
  {
    hide Projected, Response, Request, Missing, WithinLimits;
  }

  /** A bundle verifies exactly when it is the evidence of a reply. */
  lemma VerifiesExactly(lib: Lib, b: Bundle)
    ensures Verify(lib, b) == Some(b) <==> exists plan, reply :: EvidenceOfReply(lib, b, plan, reply)
  {
    hide Resolve, ParseReply, MakePlan, WithinLimits, Build, Below, Grammar.Document, KeptNames, EvidenceOfReply;
    if Verify(lib, b) == Some(b) { VerifiedEvidence(lib, b); }
    if plan, reply :| EvidenceOfReply(lib, b, plan, reply) { EvidenceAccepted(lib, b, plan, reply); }
  }

  lemma BelowNames(path: string, names: seq<Info>)
    ensures (exists i :: i in names && !Below(path, i.name)) <==>
      !(forall i | i in names :: FieldNames.BelowPath(path, i.name))
  {
    forall i | i in names ensures Below(path, i.name) <==> FieldNames.BelowPath(path, i.name) {
      FieldNames.BelowExactly(path, i.name);
    }
  }

  lemma VerifiedEvidence(lib: Lib, b: Bundle)
    requires Verify(lib, b) == Some(b)
    ensures exists plan, reply :: EvidenceOfReply(lib, b, plan, reply)
  {
    hide Resolve, ParseReply, MakePlan, WithinLimits, Build, Below, Grammar.Document, KeptNames, FieldNames.BelowPath;
    var m := b.manifest;
    var plan := MakePlan(m.target, m.scope, PathOf(m.scope, m.path), m.requested).value;
    var doc := Resolve(b.response, map[]).value;
    var reply := ParseReply(doc).reply;
    Grammar.AcceptedExactly(doc, reply);
    if reply.NamesReply? { BelowNames(plan.path, reply.names); }
    assert EvidenceOfReply(lib, b, plan, reply);
  }

  lemma EvidenceAccepted(lib: Lib, b: Bundle, plan: Plan, reply: Reply)
    requires EvidenceOfReply(lib, b, plan, reply)
    ensures Verify(lib, b) == Some(b)
  {
    hide Resolve, ParseReply, MakePlan, WithinLimits, Build, Below, Grammar.Document, KeptNames, FieldNames.BelowPath;
    var m := b.manifest;
    var doc :| Resolve(b.response, map[]) == Some(doc) && Grammar.Document(doc, reply);
    Grammar.AcceptedExactly(doc, reply);
    BuiltManifest(lib, Listing(reply, plan), plan, m.kind, m.receivedAt, m.receivedCount);
    if reply.NamesReply? { BelowNames(plan.path, reply.names); }
  }
}
