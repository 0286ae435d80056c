/** Evidence verifies: for every reply that may be kept, rebuilding the bundle from itself gives the bundle. */
module EvidenceProofs {
  import opened Text
  import opened Domain
  import opened Policies
  import opened Telemetry
  import opened TelemetryProofs
  import opened Huawei
  import opened Xml
  import opened Soap
  import opened SoapPrinter
  import opened Relabel
  import opened Evidence

  // ----- Plans -----

  /** A plan that the policy made, for some request. */
  ghost predicate Made(plan: Plan) {
    exists t, scope, path, names :: MakePlan(t, scope, path, names) == Some(plan)
  }

  /** The policy makes the same plan again from what the manifest keeps of it. */
  lemma MadeAgain(plan: Plan)
    requires Made(plan)
    ensures MakePlan(plan.target, plan.scope, PathOf(plan.scope, plan.path), plan.names) == Some(plan)
  {
    hide MakePlan;
    var t, scope, path, names :| MakePlan(t, scope, path, names) == Some(plan);
    PlanFitsRequest(t, scope, path, names);
    PlanIdempotent(t, scope, path, names);
  }

  lemma {:induction false} SplitSize(s: string, sep: char)
    ensures |s| + 1 == Lengths(Split(s, sep))
  {
    if s != "" {
      SplitSize(s[1..], sep);
      var rest := Split(s[1..], sep);
      if s[0] == sep {
        assert ([""] + rest)[1..] == rest;
      } else {
        assert ([[s[0]] + rest[0]] + rest[1..])[1..] == rest[1..];
      }
    }
  }

  function Lengths(parts: seq<string>): nat { if parts == [] then 0 else |parts[0]| + 1 + Lengths(parts[1..]) }

  lemma {:induction false} LengthsBound(parts: seq<string>)
    requires forall p | p in parts :: |p| <= 21
    ensures Lengths(parts) <= 22 * |parts|
  {
    if parts != [] {
      assert parts[0] in parts && forall p | p in parts[1..] :: p in parts;
      LengthsBound(parts[1..]);
    }
  }

  lemma ScopedPathSize(path: string)
    requires WanPath(path) || OpticalPath(path)
    ensures |path| <= 256
  {
    hide Split;
    SplitSize(path, '.');
    var p := Split(path, '.');
    assert |"InternetGatewayDevice"| == 21;
    forall x | x in p ensures |x| <= 21 {
      var i :| 0 <= i < |p| && p[i] == x;
    }
    LengthsBound(p);
  }

  lemma TargetSizes(t: Target)
    requires ProfileOf(t).Some?
    ensures |t.manufacturer| <= 64 && |t.oui| <= 6 && |t.productClass| <= 64
    ensures (t.firmware.Some? ==> |t.firmware.value| <= 256) && (t.model.Some? ==> |t.model.value| <= 256)
    ensures |ProfileOf(t).value| <= 128
  {}

  lemma PlanSizes(plan: Plan)
    requires Made(plan)
    ensures var t := plan.target;
            && |t.manufacturer| <= 64 && |t.oui| <= 6 && |t.productClass| <= 64
            && (t.firmware.Some? ==> |t.firmware.value| <= 256) && (t.model.Some? ==> |t.model.value| <= 256)
            && |plan.profileId| <= 128 && |plan.profileVersion| <= 32 && |plan.path| <= 256 && |plan.names| <= 16
    ensures DistinctBy(Self, plan.names)
  {
    hide Concrete, WanPath, OpticalPath, Fields, ProfileOf;
    var t, scope, path, names :| MakePlan(t, scope, path, names) == Some(plan);
    TargetSizes(t);
    if Measured(scope) {
      SelectionExact(path.value, scope, names);
      SelectionSizes(path.value, scope, names);
      ScopedPathSize(path.value);
      AscendingDistinct(Self, plan.names);
    } else if scope.DeviceInfo? {
      NamesDiffer();
      DistinctNames(names);
      DistinctNames(NAMES);
      SubsetOfNames(names);
    }
  }

  lemma DistinctNames(names: seq<string>)
    requires !Repeats(names)
    ensures DistinctBy(Self, names)
  {}

  lemma SubsetOfNames(names: seq<string>)
    requires !Repeats(names) && forall n | n in names :: n in NAMES
    ensures |names| <= 3
  {
    DistinctNames(names);
    DistinctSize(names);
    SubsetSize(SetOf(names), SetOf(NAMES));
    SetSize(NAMES);
  }

  // ----- What a bundle holds -----

  lemma {:induction false} MissingSize(names: seq<string>, kept: seq<Parameter>)
    ensures |Missing(names, kept)| <= |names|
  {
    UnkeptSize(names, kept);
    OnceSize(Unkept(names, kept));
    SortMembers(Self, Once(Unkept(names, kept)));
  }

  lemma {:induction false} UnkeptSize(names: seq<string>, kept: seq<Parameter>)
    ensures |Unkept(names, kept)| <= |names|
  {
    hide NameSet;
    if names != [] { UnkeptSize(names[1..], kept); }
  }

  lemma {:induction false} OnceSize(s: seq<string>)
    ensures |Once(s)| <= |s|
  {
    if s != [] { OnceSize(s[1..]); }
  }

  /** The replies that the protocol keeps evidence of: those that answer the plan, and faults. */
  ghost predicate Packaged(plan: Plan, kind: Kind, reply: Reply) {
    && Made(plan) && ValidReply(reply)
    && (plan.scope.Discovery? ==> kind.GetNames?) && (Measured(plan.scope) ==> kind.GetValues?)
    && match reply
       case FaultReply(_, _) => true
       case NamesReply(_, names) => kind.GetNames? && forall i | i in names :: ReportedUnder(plan.path, i.name)
       case ValuesReply(_, ps) => kind.GetValues? && NameSet(ps) == SetOf(plan.names)
  }

  /** The parsed reply and the plan pass every check, and rebuilding gives the bundle. */
  ghost predicate Rebuilds(lib: Lib, b: Bundle, plan: Plan, reply: Reply) {
    && EntryCount(reply) <= b.manifest.receivedCount
    && (reply.ValuesReply? ==> b.manifest.kind.GetValues? && b.manifest.receivedCount == |plan.names|)
    && (reply.NamesReply? ==> b.manifest.kind.GetNames? && forall i | i in reply.names :: Below(plan.path, i.name))
    && Build(lib, Listing(reply, plan), plan, b.manifest.kind, b.manifest.receivedAt, b.manifest.receivedCount)
       == Some(b)
  }

  lemma Accepts(lib: Lib, b: Bundle, plan: Plan, kind: Kind, printed: Reply)
    requires Made(plan) && ValidReply(printed) && b.response == Response(printed) && WithinLimits(b.manifest)
    requires (plan.scope.Discovery? ==> kind.GetNames?) && (Measured(plan.scope) ==> kind.GetValues?)
    requires var m := b.manifest;
             && m.target == plan.target && m.profileId == plan.profileId && m.profileVersion == plan.profileVersion
             && m.kind == kind
             && m.scope == plan.scope && m.path == plan.path && m.requested == plan.names
    requires Rebuilds(lib, b, plan, SortedReply(printed))
    ensures Verify(lib, b) == Some(b)
  {
    hide Made, MakePlan, Resolve, ParseReply, Response, Build, Listing, ValidReply, WithinLimits, Below, SortedReply;
    MadeAgain(plan);
    RoundTrip(printed);
  }

  lemma LimitsHold(lib: Lib, reply: Reply, w: Work, plan: Plan, kind: Kind, at: Time, count: nat)
    requires Made(plan) && count <= 128 && |w.substituted| <= 16
    ensures WithinLimits(BundleOf(reply, w, plan, kind, at, count).manifest)
  {
    hide Made, Request, Response, Missing;
    PlanSizes(plan);
    MissingSize(plan.names, w.retained);
  }

  lemma FaultVerifies(lib: Lib, id: string, code: int, plan: Plan, kind: Kind, at: Time)
    requires Packaged(plan, kind, FaultReply(id, code))
    ensures var b := EvidenceOf(lib, FaultReply(id, code), plan, kind, at); b.Some? && Verify(lib, b.value) == b
  {
    hide Made, Request, WithinLimits, Missing;
    var reply := FaultReply(id, code);
    LimitsHold(lib, reply, START, plan, kind, at, 0);
    LimitsHold(lib, FaultReply(RPC_ID, code), START, plan, kind, at, 0);
    var b := EvidenceOf(lib, reply, plan, kind, at).value;
    Accepts(lib, b, plan, kind, reply);
  }

  lemma {:induction false} AllListed(names: seq<Info>, plan: Plan)
    requires forall i | i in names :: Listed(plan, i)
    ensures KeptNames(names, plan) == names
  {
    hide Listed;
    if names != [] {
      assert Listed(plan, names[0]);
      forall i | i in names[1..] ensures Listed(plan, i) { assert i in names; }
      AllListed(names[1..], plan);
      assert names == [names[0]] + names[1..];
    }
  }

  lemma NamesVerify(lib: Lib, id: string, names: seq<Info>, plan: Plan, kind: Kind, at: Time)
    requires Packaged(plan, kind, NamesReply(id, names))
    ensures var b := EvidenceOf(lib, NamesReply(id, names), plan, kind, at); b.Some? && Verify(lib, b.value) == b
  {
    hide Made, Request, WithinLimits, Missing, Listed, Concrete, KeptNames, Verify;
    var kept := KeptNames(names, plan);
    var sorted := SortBy(InfoName, kept);
    SortAscends(InfoName, kept);
    SortIdempotent(InfoName, sorted);
    AllListed(sorted, plan);
    var printed := NamesReply(id, kept);
    LimitsHold(lib, printed, START, plan, kind, at, |names|);
    LimitsHold(lib, NamesReply(RPC_ID, sorted), START, plan, kind, at, |names|);
    var b := EvidenceOf(lib, NamesReply(id, names), plan, kind, at).value;
    assert Response(NamesReply(RPC_ID, sorted)) == Response(printed);
    Accepts(lib, b, plan, kind, printed);
  }

  lemma RetainedValid(ps: seq<Parameter>, kept: seq<Parameter>)
    requires Ascending(ParameterName, ps) && |ps| <= 16 && (forall q | q in ps :: ValidParameter(q))
             && KeptOf(ps, |ps|, kept)
    ensures ValidReply(ValuesReply(RPC_ID, kept)) && Ascending(ParameterName, kept)
  {
    hide ValueFits;
    AscendingDistinct(ParameterName, kept);
    forall k | k in kept ensures ValidParameter(k) {
      var i :| 0 <= i < |ps| && ps[i].name == k.name && ps[i].xsdType == k.xsdType
               && (ps[i].value == k.value || (k.xsdType == "xsd:string" && |k.value| <= 112));
      assert ValidParameter(ps[i]);
      if ps[i].value != k.value { StringFits(k.value); }
    }
  }

  lemma StringFits(value: string)
    ensures ValueFits("string", value) && "string" in KINDS && "xsd:string" == "xsd:" + "string"
  {}

  lemma ValuesVerify(lib: Lib, id: string, ps: seq<Parameter>, plan: Plan, kind: Kind, at: Time)
    requires AddressLib(lib) && Packaged(plan, kind, ValuesReply(id, ps))
    ensures var b := EvidenceOf(lib, ValuesReply(id, ps), plan, kind, at); b.Some? && Verify(lib, b.value) == b
  {
    hide Made, Request, Response, WithinLimits, Missing, AddressLib, ValidParameter, Verify;
    var sorted := SortBy(ParameterName, ps);
    SortAscends(ParameterName, ps);
    forall q | q in sorted ensures q.name in plan.names {
      assert q.name in NameSet(ps);
    }
    ProjectedAgain(lib, plan, sorted, |sorted|);
    var w := Projected(lib, plan, sorted, |sorted|).value;
    var again := Projected(lib, plan, w.retained, |w.retained|).value;
    RetainedValid(sorted, w.retained);
    SortIdempotent(ParameterName, w.retained);
    LimitsHold(lib, ValuesReply(id, ps), w, plan, kind, at, |ps|);
    LimitsHold(lib, ValuesReply(RPC_ID, w.retained), again, plan, kind, at, |ps|);
    SameCount(ps, plan.names, plan);
    var b := EvidenceOf(lib, ValuesReply(id, ps), plan, kind, at).value;
    Accepts(lib, b, plan, kind, ValuesReply(RPC_ID, w.retained));
  }

  lemma SameCount(ps: seq<Parameter>, names: seq<string>, plan: Plan)
    requires Made(plan) && names == plan.names && DistinctBy(ParameterName, ps) && NameSet(ps) == SetOf(names)
    ensures |ps| == |names|
  {
    hide Made;
    PlanSizes(plan);
    DistinctSize(names);
    NameCount(ps);
  }

  lemma NamesGrow(ps: seq<Parameter>, q: Parameter)
    ensures NameSet(ps + [q]) == NameSet(ps) + {q.name}
  {
    forall x ensures x in NameSet(ps + [q]) <==> x in NameSet(ps) || x == q.name {
      if x in NameSet(ps) {
        var p :| p in ps && p.name == x;
        assert p in ps + [q];
      } else if x == q.name {
        assert q in ps + [q];
      }
    }
  }

  lemma {:induction false} NameCount(ps: seq<Parameter>)
    requires DistinctBy(ParameterName, ps)
    ensures |NameSet(ps)| == |ps|
  {
    if ps != [] {
      var n := |ps| - 1;
      NameCount(ps[..n]);
      var front := NameSet(ps[..n]);
      assert ps[n].name !in front by {
        assert forall i | 0 <= i < n :: ParameterName(ps[..n][i]) != ParameterName(ps[n]);
      }
      NamesGrow(ps[..n], ps[n]);
      assert ps == ps[..n] + [ps[n]];
    }
  }

  /** Every reply that the protocol keeps evidence of gives a bundle, and the bundle verifies: rebuilding it from the
      reply it holds gives the very same bundle. */
  lemma EvidenceFixedPoint(lib: Lib, reply: Reply, plan: Plan, kind: Kind, at: Time)
    requires AddressLib(lib) && Packaged(plan, kind, reply)
    ensures var b := EvidenceOf(lib, reply, plan, kind, at); b.Some? && Verify(lib, b.value) == b
  {
    hide AddressLib, Packaged, EvidenceOf, Verify;
    match reply
    case FaultReply(id, code) => FaultVerifies(lib, id, code, plan, kind, at);
    case NamesReply(id, names) => NamesVerify(lib, id, names, plan, kind, at);
    case ValuesReply(id, ps) => ValuesVerify(lib, id, ps, plan, kind, at);
  }

  // ----- Pseudonyms -----

  /** A WAN field of one or more addresses, observed valid. */
  predicate AddressField(lib: Lib, plan: Plan, q: Parameter) {
    && (plan.scope.Wan? || plan.scope.Discovery?)
    && match FieldName(plan.path, q.name, plan.scope)
       case None => false
       case Some(name) => (name.Ipv4? || name.Ipv6? || name.Dns?) && Observe(lib, name, q, plan.profileId).state.Valid?
  }

  /** The address at a position of a field. */
  function AddressAt(lib: Lib, q: Parameter, k: nat): Option<Address>
    requires k < |Split(Strip(q.value), ',')|
  {
    lib.parse(Strip(Split(Strip(q.value), ',')[k]))
  }

  /** A kept field shows, for each address of the original, the label that was given to it. */
  ghost predicate Renamed(lib: Lib, s: Labels, q: Parameter, kept: Parameter) {
    var parts, labels := Split(Strip(q.value), ','), Split(kept.value, ',');
    && kept.name == q.name && |labels| == |parts|
    && forall k | 0 <= k < |parts| ::
         var a := AddressAt(lib, q, k);
         a.Some? && a.value.text in s.given && labels[k] == s.given[a.value.text]
  }

  lemma RenamedStays(lib: Lib, s: Labels, r: Labels, q: Parameter, kept: Parameter)
    requires Renamed(lib, s, q, kept) && forall t | t in s.given :: t in r.given && r.given[t] == s.given[t]
    ensures Renamed(lib, r, q, kept)
  {}

  /** What one step adds: labels only grow, what was kept stays, and an address field is kept renamed. */
  lemma StepRenames(lib: Lib, plan: Plan, w: Work, q: Parameter)
    requires AddressLib(lib) && Proper(lib, w.labels) && w.labels.v4 + w.labels.v6 + 8 <= MOST && q.name in plan.names
    requires ProjectOne(lib, plan, w, q).Some?
    ensures var r := ProjectOne(lib, plan, w, q).value;
            && Proper(lib, r.labels) && r.labels.v4 + r.labels.v6 <= w.labels.v4 + w.labels.v6 + 8
            && (forall t | t in w.labels.given :: t in r.labels.given && r.labels.given[t] == w.labels.given[t])
            && (forall k | k in w.retained :: k in r.retained)
            && (AddressField(lib, plan, q) ==> exists kept :: kept in r.retained && Renamed(lib, r.labels, q, kept))
  {
    hide FieldName, Observe, Split, Strip, Join, Relabelled, Proper, SafeText, DecimalText, AddressLib;
    var r := ProjectOne(lib, plan, w, q).value;
    var field := FieldName(plan.path, q.name, plan.scope);
    if r.labels != w.labels || AddressField(lib, plan, q) {
      var name := field.value;
      RelabelledIsValid(lib, name, q, plan.profileId, w.labels);
      AddressParts(lib, name, q, plan.profileId);
      RelabelledParts(lib, w.labels, Split(Strip(q.value), ','));
      var kept := r.retained[|w.retained|];
      assert kept in r.retained;
      assert Renamed(lib, r.labels, q, kept);
    }
  }

  lemma {:induction false} AllRenamed(lib: Lib, plan: Plan, ps: seq<Parameter>, n: nat)
    requires AddressLib(lib) && n <= |ps| <= 16 && (forall q | q in ps :: q.name in plan.names)
             && Projected(lib, plan, ps, n).Some?
    ensures var w := Projected(lib, plan, ps, n).value;
            && Proper(lib, w.labels) && w.labels.v4 + w.labels.v6 <= 8 * n
            && forall i | 0 <= i < n && AddressField(lib, plan, ps[i]) ::
               exists kept :: kept in w.retained && Renamed(lib, w.labels, ps[i], kept)
  {
    hide ProjectOne, Proper, AddressLib, AddressField, Renamed;
    if n == 0 {
      NoneLinked(lib);
    } else {
      AllRenamed(lib, plan, ps, n - 1);
      var w, r := Projected(lib, plan, ps, n - 1).value, Projected(lib, plan, ps, n).value;
      assert ps[n - 1] in ps;
      StepRenames(lib, plan, w, ps[n - 1]);
      forall i | 0 <= i < n - 1 && AddressField(lib, plan, ps[i]) ensures exists kept ::
          kept in r.retained && Renamed(lib, r.labels, ps[i], kept) {
        var kept :| kept in w.retained && Renamed(lib, w.labels, ps[i], kept);
        RenamedStays(lib, w.labels, r.labels, ps[i], kept);
      }
    }
  }

  /** Two kept fields tell their addresses apart exactly as the originals do. */
  ghost predicate Matched(lib: Lib, p: Parameter, a: Parameter, q: Parameter, b: Parameter) {
    var xs, ys := Split(a.value, ','), Split(b.value, ',');
    && a.name == p.name && b.name == q.name && |xs| == |Split(Strip(p.value), ',')|
    && |ys| == |Split(Strip(q.value), ',')|
    && forall i, j | 0 <= i < |xs| && 0 <= j < |ys| ::
         && AddressAt(lib, p, i).Some? && AddressAt(lib, q, j).Some?
         && (xs[i] == ys[j] <==> AddressAt(lib, p, i).value.text == AddressAt(lib, q, j).value.text)
  }

  lemma RenamedMatch(lib: Lib, s: Labels, p: Parameter, a: Parameter, q: Parameter, b: Parameter)
    requires Proper(lib, s) && Renamed(lib, s, p, a) && Renamed(lib, s, q, b)
    ensures Matched(lib, p, a, q, b)
  {}

  /** Across all parameters of a reply and both versions of addresses, two addresses have the same pseudonym exactly
      when they are the same address. */
  lemma PseudonymsFaithful(lib: Lib, plan: Plan, ps: seq<Parameter>, p: Parameter, q: Parameter)
    requires AddressLib(lib) && |ps| <= 16 && (forall x | x in ps :: x.name in plan.names)
             && Projected(lib, plan, ps, |ps|).Some?
    requires p in ps && q in ps && AddressField(lib, plan, p) && AddressField(lib, plan, q)
    ensures var kept := Projected(lib, plan, ps, |ps|).value.retained;
            exists a, b :: a in kept && b in kept && Matched(lib, p, a, q, b)
  {
    hide Projected, AddressField, AddressLib, Renamed, Matched, Proper;
    AllRenamed(lib, plan, ps, |ps|);
    var w := Projected(lib, plan, ps, |ps|).value;
    var i :| 0 <= i < |ps| && ps[i] == p;
    var j :| 0 <= j < |ps| && ps[j] == q;
    var a :| a in w.retained && Renamed(lib, w.labels, p, a);
    var b :| b in w.retained && Renamed(lib, w.labels, q, b);
    RenamedMatch(lib, w.labels, p, a, q, b);
  }
}
