/** The reviewed Huawei policy: which plans it makes, which values and names it keeps, how it reads the
    basic inventory, and why the queue may rely on it. */
module Huawei {
  import opened Text
  import opened Domain
  import opened Registers
  import opened Policies
  import opened Telemetry
  import opened TelemetryProofs

  const MODEL_NAME := DEVICE_INFO + "ModelName"
  const SOFTWARE_VERSION := DEVICE_INFO + "SoftwareVersion"
  const HARDWARE_VERSION := DEVICE_INFO + "HardwareVersion"
  const NAMES := [MODEL_NAME, SOFTWARE_VERSION, HARDWARE_VERSION]

  const X6_TARGET := Target("Huawei Technologies Co., Ltd", "00259E", "EG8145X6-10", Some("V5R022C00S364"),
                            Some("EG8145X6-10"))
  const V5_TARGET := Target("Huawei Technologies Co., Ltd", "00259E", "EG8145V5-V2", Some("V5R021C00S210"),
                            Some("EG8145V5-V2"))

  const VERSION := "1"

  const DISCOVERY_FIELDS := {
    "ExternalIPAddress", "MACAddress", "DNSServers", "ConnectionStatus", "ConnectionType", "TransportType",
    "X_HW_SERVICELIST", "X_HW_IPv6Address", "X_HW_IPv6Prefix", "X_HW_IPv6Enable", "RXPower", "TXPower", "RxPower",
    "TxPower", "ReceivePower", "TransmitPower", "IPAddress", "Origin", "Prefix", "AddressingType", "Enable"}

  // ----- Plans -----

  /** The reviewed profile of a device; a V5 device is known even before it has reported its model. */
  function ProfileOf(t: Target): Option<string> {
    if t == V5_TARGET || (t.model.None? && t.(model := V5_TARGET.model) == V5_TARGET) then Some(V5_PROFILE)
    else if t == X6_TARGET then Some(X6_PROFILE)
    else None
  }

  predicate Repeats(names: seq<string>) { exists i, j :: 0 <= i < j < |names| && names[i] == names[j] }

  function MakePlan(t: Target, scope: Scope, path: Option<string>, names: seq<string>): Option<Plan> {
    match ProfileOf(t)
    case None => None
    case Some(profile) =>
      match scope
      case DeviceInfo =>
        if path.Some? || Repeats(names) || exists n :: n in names && n !in NAMES then None
        else Some(Plan(profile, VERSION, t, if names != [] then names else NAMES, DEVICE_INFO, scope))
      case Discovery =>
        if path.None? || |path.value| > 256 || !Concrete(path.value) then None
        else Some(Plan(profile, VERSION, t, [], path.value, scope))
      case _ =>
        if path.None? || SelectNames(path.value, scope, names).None? then None
        else Some(Plan(profile, VERSION, t, SelectNames(path.value, scope, names).value, path.value, scope))
  }

  function RestorePlan(profile: string, version: string, scope: Scope, path: Option<string>,
                       names: seq<string>): Option<Plan> {
    if version != VERSION || profile !in {X6_PROFILE, V5_PROFILE} then None
    else MakePlan(if profile == X6_PROFILE then X6_TARGET else V5_TARGET, scope, path, names)
  }

  lemma {:induction false} FieldsAre(path: string, scope: Scope, available: seq<string>)
    ensures forall n :: n in Fields(path, scope, available) <==> n in available && FieldName(path, n, scope).Some?
  {
    hide FieldName;
    if available != [] {
      FieldsAre(path, scope, available[1..]);
      assert available == [available[0]] + available[1..];
    }
  }

  /** The selection holds exactly the available fields, ascending; it exists if and only if the path fits the
      scope, there are one to sixteen, and a WAN comes with the two names that classify it. */
  lemma SelectionExact(path: string, scope: Scope, available: seq<string>)
    ensures var r, chosen := SelectNames(path, scope, available), SetOf(Fields(path, scope, available));
            && (r.Some? <==>
                  && (if scope.Wan? then WanPath(path) else OpticalPath(path)) && 1 <= |chosen| <= 16
                  && (scope.Wan? ==> path + "X_HW_SERVICELIST" in available && path + "TransportType" in available))
            && (r.Some? ==>
                  && Ascending(Self, r.value) && |r.value| == |chosen|
                  && forall n :: n in r.value <==> n in available && FieldName(path, n, scope).Some?)
  {
    hide WanPath, OpticalPath, FieldName;
    FieldsAre(path, scope, available);
    var fields := Fields(path, scope, available);
    SortedSetIs(fields);
    ClassifierFields(path);
    assert SortedSet(fields) == [] <==> |SetOf(fields)| == 0;
  }

  lemma ClassifierFields(path: string)
    ensures FieldName(path, path + "X_HW_SERVICELIST", Wan).Some? && FieldName(path, path + "TransportType", Wan).Some?
  {}

  lemma SelectionSizes(path: string, scope: Scope, available: seq<string>)
    requires SelectNames(path, scope, available).Some?
    ensures 1 <= |SelectNames(path, scope, available).value| <= 16
  {}

  /** Choosing again among what was chosen changes nothing. */
  lemma SelectionIdempotent(path: string, scope: Scope, available: seq<string>)
    requires SelectNames(path, scope, available).Some?
    ensures SelectNames(path, scope, SelectNames(path, scope, available).value) == SelectNames(path, scope, available)
  {
    hide WanPath, OpticalPath, FieldName, SelectNames;
    SelectionExact(path, scope, available);
    var names := SelectNames(path, scope, available).value;
    SelectionExact(path, scope, names);
    FieldsAre(path, scope, names);
    FieldsAre(path, scope, available);
    ClassifierFields(path);
    assert SetOf(Fields(path, scope, names)) == SetOf(Fields(path, scope, available));
    AscendingUnique(Self, names, SelectNames(path, scope, names).value);
  }

  lemma PlanFitsRequest(t: Target, scope: Scope, path: Option<string>, names: seq<string>)
    requires MakePlan(t, scope, path, names).Some?
    ensures PlanFits(NAMES, MakePlan(t, scope, path, names).value, t, scope, path, names)
  {
    hide Concrete, SelectNames, ProfileOf, FieldName;
    if Measured(scope) { SelectionExact(path.value, scope, names); SelectionSizes(path.value, scope, names); }
  }

  /** A plan is restored exactly when some device of that profile and version would get one, and then with its core. */
  lemma RestoresOnly(profile: string, version: string, scope: Scope, path: Option<string>, names: seq<string>)
    ensures var again := RestorePlan(profile, version, scope, path, names);
            && (again.Some? <==>
                  exists t ::
                    MakePlan(t, scope, path, names).Some?
                    && MakePlan(t, scope, path, names).value.profileId == profile
                    && MakePlan(t, scope, path, names).value.profileVersion == version)
            && (again.Some? ==> again.value.profileId == profile && again.value.profileVersion == version)
  {
    hide Concrete, SelectNames, Repeats;
    if t :| MakePlan(t, scope, path, names).Some? && MakePlan(t, scope, path, names).value.profileId == profile
            && MakePlan(t, scope, path, names).value.profileVersion == version {
      RestoresPlan(t, scope, path, names);
    }
    if RestorePlan(profile, version, scope, path, names).Some? {
      var t := if profile == X6_PROFILE then X6_TARGET else V5_TARGET;
      assert MakePlan(t, scope, path, names) == RestorePlan(profile, version, scope, path, names);
    }
  }

  /** A plan can be made again from the profile stored with it, with every part that judging depends on. */
  lemma RestoresPlan(t: Target, scope: Scope, path: Option<string>, names: seq<string>)
    requires MakePlan(t, scope, path, names).Some?
    ensures var plan := MakePlan(t, scope, path, names).value;
            var again := RestorePlan(plan.profileId, plan.profileVersion, scope, path, names);
            again.Some? && SameCore(plan, again.value)
  {
    hide Concrete, SelectNames, Repeats;
    ProfileTargets(t);
  }

  lemma ProfileTargets(t: Target)
    ensures ProfileOf(X6_TARGET) == Some(X6_PROFILE) && ProfileOf(V5_TARGET) == Some(V5_PROFILE)
            && X6_PROFILE != V5_PROFILE
    ensures ProfileOf(t).Some? ==> ProfileOf(t).value in {X6_PROFILE, V5_PROFILE}
  {}

  /** A stored plan asked for again with its own names is the same plan. */
  lemma PlanIdempotent(t: Target, scope: Scope, path: Option<string>, names: seq<string>)
    requires MakePlan(t, scope, path, names).Some?
    ensures MakePlan(t, scope, path, MakePlan(t, scope, path, names).value.names) == MakePlan(t, scope, path, names)
  {
    hide Concrete, SelectNames, ProfileOf;
    if Measured(scope) {
      SelectionIdempotent(path.value, scope, names);
    } else if scope.DeviceInfo? {
      NamesDiffer();
    }
  }

  lemma NamesDiffer()
    ensures !Repeats(NAMES) && NAMES != []
  {
    assert MODEL_NAME[|DEVICE_INFO|] == 'M' && SOFTWARE_VERSION[|DEVICE_INFO|] == 'S'
           && HARDWARE_VERSION[|DEVICE_INFO|] == 'H';
  }

  // ----- What a reply leaves behind -----

  predicate SafeText(lib: Lib, s: string, limit: nat) { |s| <= limit && forall c | c in s :: lib.printable(c) }

  predicate Keepable(lib: Lib, plan: Plan, q: Parameter) {
    plan.scope.DeviceInfo? && q.name in NAMES && q.name in plan.names && q.xsdType == "xsd:string"
        && SafeText(lib, q.value, 256)
  }

  lemma DistinctCons<T(!new)>(key: T -> string, s: seq<T>, kept: seq<T>)
    requires s != [] && DistinctBy(key, s) && DistinctBy(key, kept) && forall x | x in kept :: x in s[1..]
    ensures DistinctBy(key, [s[0]] + kept)
  {
    forall j | 0 <= j < |kept| ensures key(s[0]) != key(kept[j]) {
      assert kept[j] in s[1..];
      var i :| 0 <= i < |s[1..]| && s[1..][i] == kept[j];
      assert key(s[0]) != key(s[i + 1]);
    }
  }

  function Permitted(lib: Lib, ps: seq<Parameter>, plan: Plan): (r: seq<Parameter>)
    ensures |r| <= |ps| && forall q :: q in r <==> q in ps && Keepable(lib, plan, q)
    ensures DistinctBy(ParameterName, ps) ==> DistinctBy(ParameterName, r)
  {
    if ps == [] then []
    else
      var rest := Permitted(lib, ps[1..], plan);
      assert ps == [ps[0]] + ps[1..];
      if Keepable(lib, plan, ps[0]) then
        assert DistinctBy(ParameterName, ps) ==> DistinctBy(ParameterName, [ps[0]] + rest) by {
          if DistinctBy(ParameterName, ps) { DistinctTail(ParameterName, ps); DistinctCons(ParameterName, ps, rest); }
        }
        [ps[0]] + rest
      else
        assert DistinctBy(ParameterName, ps) ==> DistinctBy(ParameterName, rest) by {
          if DistinctBy(ParameterName, ps) { DistinctTail(ParameterName, ps); }
        }
        rest
  }

  lemma DistinctTail<T(!new)>(key: T -> string, s: seq<T>)
    requires s != [] && DistinctBy(key, s)
    ensures DistinctBy(key, s[1..])
  {}

  predicate Listed(plan: Plan, i: Info) {
    if plan.scope.DeviceInfo? then i.name in plan.names
    else Concrete(i.name) || Split(i.name, '.')[|Split(i.name, '.')| - 1] in DISCOVERY_FIELDS
  }

  function KeptNames(names: seq<Info>, plan: Plan): (r: seq<Info>)
    ensures |r| <= |names| && forall i :: i in r <==> i in names && Listed(plan, i)
    ensures DistinctBy(InfoName, names) ==> DistinctBy(InfoName, r)
  {
    if names == [] then []
    else
      var rest := KeptNames(names[1..], plan);
      assert names == [names[0]] + names[1..];
      if Listed(plan, names[0]) then
        assert DistinctBy(InfoName, names) ==> DistinctBy(InfoName, [names[0]] + rest) by {
          if DistinctBy(InfoName, names) { DistinctTail(InfoName, names); DistinctCons(InfoName, names, rest); }
        }
        [names[0]] + rest
      else
        assert DistinctBy(InfoName, names) ==> DistinctBy(InfoName, rest) by {
          if DistinctBy(InfoName, names) { DistinctTail(InfoName, names); }
        }
        rest
  }

  // ----- The basic inventory -----

  /** Sorting by this key sorts by the position of the path, then by the value. */
  function CandidateKey(suffix: string): Parameter -> string {
    (q: Parameter) => (if q.name == "Device.DeviceInfo." + suffix then "0" else "1") + q.value
  }

  predicate Reports(suffix: string, q: Parameter) {
    q.name == "Device.DeviceInfo." + suffix || q.name == DEVICE_INFO + suffix
  }

  function Reporting(suffix: string, ps: seq<Parameter>): (r: seq<Parameter>)
    ensures forall q :: q in r <==> q in ps && Reports(suffix, q)
  {
    if ps == [] then []
    else
      assert ps == [ps[0]] + ps[1..];
      (if Reports(suffix, ps[0]) then [ps[0]] else []) + Reporting(suffix, ps[1..])
  }

  predicate Control(c: char) { c < 32 as char || c == 127 as char }

  function TextFault(s: string): Option<InvalidReason> {
    if exists c :: c in s && Control(c) then Some(ControlCharacter)
    else if Strip(s) == "" then Some(EmptyText)
    else if |s| > 256 then Some(TooLong)
    else None
  }

  function FirstFault(cs: seq<Parameter>): Option<TextObservation> {
    if cs == [] then None
    else if TextFault(cs[0].value).Some? then Some(InvalidText(Some(cs[0].name), TextFault(cs[0].value).value))
    else FirstFault(cs[1..])
  }

  /** One field of the basic inventory, from the candidates in their fixed order. */
  function Judged(cs: seq<Parameter>): TextObservation {
    if cs == [] then NotReported
    else if FirstFault(cs).Some? then FirstFault(cs).value
    else if exists q :: q in cs && Strip(q.value) != Strip(cs[0].value) then InvalidText(None, ConflictingText)
    else ValidText(Strip(cs[0].value), cs[0].name)
  }

  function TextOf(ps: seq<Parameter>, suffix: string): TextObservation {
    Judged(SortBy(CandidateKey(suffix), Reporting(suffix, ps)))
  }

  /** The loop over the sorted candidates, collecting their values in a set. */
  method ReadText(ps: seq<Parameter>, suffix: string) returns (r: TextObservation)
    ensures r == TextOf(ps, suffix)
  {
    var cs := SortBy(CandidateKey(suffix), Reporting(suffix, ps));
    if cs == [] { return NotReported; }
    var values: set<string> := {};
    for i := 0 to |cs|
      invariant FirstFault(cs) == FirstFault(cs[i..])
      invariant values == set k | 0 <= k < i :: Strip(cs[k].value)
    {
      var reason := TextFault(cs[i].value);
      assert cs[i..][0] == cs[i] && cs[i..][1..] == cs[i + 1..];
      if reason.Some? { return InvalidText(Some(cs[i].name), reason.value); }
      values := values + {Strip(cs[i].value)};
    }
    assert Strip(cs[0].value) in values;
    if values != {Strip(cs[0].value)} {
      assert exists v :: v in values && v != Strip(cs[0].value);
      return InvalidText(None, ConflictingText);
    }
    forall q | q in cs ensures Strip(q.value) == Strip(cs[0].value) {
      var k :| 0 <= k < |cs| && cs[k] == q;
      assert Strip(cs[k].value) in values;
    }
    return ValidText(Strip(cs[0].value), cs[0].name);
  }

  lemma {:induction false} NoFault(cs: seq<Parameter>)
    ensures FirstFault(cs).None? <==> forall q | q in cs :: TextFault(q.value).None?
    ensures FirstFault(cs).Some? ==> FirstFault(cs).value.InvalidText? && FirstFault(cs).value.source.Some?
  {
    hide TextFault;
    if cs != [] {
      NoFault(cs[1..]);
      assert cs == [cs[0]] + cs[1..];
    }
  }

  /** A field is valid exactly when it is reported, every report of it is clean, and all of them say the same. */
  lemma ValidTextExactly(ps: seq<Parameter>, suffix: string, v: string)
    ensures (TextOf(ps, suffix).ValidText? && TextOf(ps, suffix).value == v) <==>
              && (exists q :: q in ps && Reports(suffix, q))
              && (forall q | q in ps && Reports(suffix, q) :: TextFault(q.value).None? && Strip(q.value) == v)
  {
    hide TextFault, Strip, Reports;
    var cs := SortBy(CandidateKey(suffix), Reporting(suffix, ps));
    SortMembers(CandidateKey(suffix), Reporting(suffix, ps));
    NoFault(cs);
    if cs != [] { assert cs[0] in cs; }
    if q :| q in ps && Reports(suffix, q) { assert q in cs; }
  }

  lemma CandidatesDistinct(suffix: string, ps: seq<Parameter>)
    requires DistinctBy(ParameterName, ps)
    ensures DistinctBy(CandidateKey(suffix), Reporting(suffix, ps))
  {
    ReportingDistinct(suffix, ps);
    var cs, key := Reporting(suffix, ps), CandidateKey(suffix);
    forall i, j | 0 <= i < j < |cs| ensures key(cs[i]) != key(cs[j]) {
      assert ParameterName(cs[i]) != ParameterName(cs[j]);
      assert cs[i] in cs && cs[j] in cs;
      assert key(cs[i])[0] != key(cs[j])[0];
    }
  }

  lemma {:induction false} ReportingDistinct(suffix: string, ps: seq<Parameter>)
    requires DistinctBy(ParameterName, ps)
    ensures DistinctBy(ParameterName, Reporting(suffix, ps))
  {
    hide Reports;
    if ps != [] {
      DistinctTail(ParameterName, ps);
      ReportingDistinct(suffix, ps[1..]);
      DistinctCons(ParameterName, ps, Reporting(suffix, ps[1..]));
    }
  }

  /** The order of the parameters does not matter to a field. */
  lemma TextOrderFree(suffix: string, ps: seq<Parameter>, qs: seq<Parameter>)
    requires SameEntries(ParameterName, ps, qs)
    ensures TextOf(ps, suffix) == TextOf(qs, suffix)
  {
    hide Judged, Reports;
    CandidatesDistinct(suffix, ps);
    CandidatesDistinct(suffix, qs);
    SortCanonical(CandidateKey(suffix), Reporting(suffix, ps), Reporting(suffix, qs));
  }

  const GENERIC_PROFILE := "generic-device-info"

  /** The profile is the plan's own only while the device still reports the plan's firmware and model. */
  function Normalize(ps: seq<Parameter>, plan: Plan, now: Time, id: Id): Inventory {
    var model, firmware := TextOf(ps, "ModelName"), TextOf(ps, "SoftwareVersion");
    var own := && firmware.ValidText? && Some(firmware.value) == plan.target.firmware
               && (model.ValidText? ==> model.value == plan.target.productClass);
    Inventory(model, firmware, TextOf(ps, "HardwareVersion"), if own then plan.profileId else GENERIC_PROFILE,
              if own then plan.profileVersion else VERSION, now, GetParameterValues, Some(id))
  }

  // ----- The policy and its contract -----

  function HuaweiPolicy(lib: Lib, evidence: (Reply, Plan, Kind, Time) -> Option<string>): Policy {
    Policy(NAMES, MakePlan, RestorePlan,
           (ps: seq<Parameter>, plan: Plan) => Permitted(lib, ps, plan),
           KeptNames, Normalize,
           (ps: seq<Parameter>, plan: Plan, now: Time, id: Id) => Collect(lib, ps, plan, now, id),
           (ps: seq<Parameter>, plan: Plan, c: Collection) => ResultItems(lib, ps, plan, c),
           evidence)
  }

  /** Everything that the queue's theorems assume of a policy holds of this one. */
  lemma HuaweiMeetsContract(lib: Lib, evidence: (Reply, Plan, Kind, Time) -> Option<string>)
    ensures Contract(HuaweiPolicy(lib, evidence))
  {
    hide MakePlan, RestorePlan, Normalize, Collect, ResultItems, Keepable, PlanFits, CollectionOk, Concrete;
    var p := HuaweiPolicy(lib, evidence);
    forall t, s, path, names | MakePlan(t, s, path, names).Some?
      ensures PlanFits(NAMES, MakePlan(t, s, path, names).value, t, s, path, names)
    {
      PlanFitsRequest(t, s, path, names);
    }
    PermittedMeets(lib, evidence);
    ObservationsMeet(lib, evidence);
    DiscoveryMeets(lib, evidence);
  }

  lemma PermittedMeets(lib: Lib, evidence: (Reply, Plan, Kind, Time) -> Option<string>)
    ensures PermittedContract(HuaweiPolicy(lib, evidence))
  {
    var p := HuaweiPolicy(lib, evidence);
    forall ps, plan
      ensures && |p.permitted(ps, plan)| <= |ps|
              && (forall q | q in p.permitted(ps, plan) :: q in ps && q.name in plan.names)
              && (!plan.scope.DeviceInfo? ==> p.permitted(ps, plan) == [])
              && (DistinctBy(ParameterName, ps) ==> DistinctBy(ParameterName, p.permitted(ps, plan)))
    {
      var r := Permitted(lib, ps, plan);
      assert r == [] || r[0] in r;
    }
  }

  lemma ObservationsMeet(lib: Lib, evidence: (Reply, Plan, Kind, Time) -> Option<string>)
    ensures ObservationContract(HuaweiPolicy(lib, evidence))
  {
    hide Collected, CollectionOk, TextOf, AnswersPlan;
    var p := HuaweiPolicy(lib, evidence);
    forall ps, plan, now, id: Id
      | p.collect(ps, plan, now, id).Some? && AnswersPlan(ps, plan) && |plan.names| <= 16 && Measured(plan.scope)
      ensures CollectionOk(p.collect(ps, plan, now, id).value)
    {
      CollectionChecks(lib, ps, plan, now, id);
    }
  }

  lemma DiscoveryMeets(lib: Lib, evidence: (Reply, Plan, Kind, Time) -> Option<string>)
    ensures DiscoveryContract(HuaweiPolicy(lib, evidence))
  {
    hide Concrete;
  }

  /** Everything that recognising a resent reply assumes of a policy holds of this one. */
  lemma HuaweiIsStable(lib: Lib, evidence: (Reply, Plan, Kind, Time) -> Option<string>)
    ensures StablePlans(HuaweiPolicy(lib, evidence)) && StableJudgement(HuaweiPolicy(lib, evidence))
  {
    hide MakePlan, RestorePlan, Collect, ResultItems, Keepable, Listed, TextOf, SameCore, SomeField;
    PlansStable(lib, evidence);
    CollectStable(lib, evidence);
    var p := HuaweiPolicy(lib, evidence);
    forall ps, qs, a, b | SameCore(a, b) && SameEntries(ParameterName, ps, qs)
      ensures SameEntries(ParameterName, p.permitted(ps, a), p.permitted(qs, b))
    {
      SameKept(lib, a, b);
    }
    forall ns, ms, a, b | SameCore(a, b) && SameEntries(InfoName, ns, ms)
      ensures SameEntries(InfoName, p.discoveryNames(ns, a), p.discoveryNames(ms, b))
    {
      SameKept(lib, a, b);
    }
    forall ps, qs | SameEntries(ParameterName, ps, qs)
      ensures TextOf(ps, "ModelName") == TextOf(qs, "ModelName")
              && TextOf(ps, "SoftwareVersion") == TextOf(qs, "SoftwareVersion")
              && TextOf(ps, "HardwareVersion") == TextOf(qs, "HardwareVersion")
    {
      TextOrderFree("ModelName", ps, qs);
      TextOrderFree("SoftwareVersion", ps, qs);
      TextOrderFree("HardwareVersion", ps, qs);
    }
  }

  lemma SameKept(lib: Lib, a: Plan, b: Plan)
    requires SameCore(a, b)
    ensures forall q :: Keepable(lib, a, q) <==> Keepable(lib, b, q)
    ensures forall i :: Listed(a, i) <==> Listed(b, i)
  {}

  lemma PlansStable(lib: Lib, evidence: (Reply, Plan, Kind, Time) -> Option<string>)
    ensures StablePlans(HuaweiPolicy(lib, evidence))
  {
    hide RestorePlan, Concrete, SelectNames, Repeats, ProfileOf;
    forall t, s, path, names | MakePlan(t, s, path, names).Some?
      ensures var plan := MakePlan(t, s, path, names).value;
              var again := RestorePlan(plan.profileId, plan.profileVersion, s, path, names);
              again.Some? && SameCore(plan, again.value)
    {
      RestoresPlan(t, s, path, names);
    }
  }

  ghost predicate SameCollected(p: Policy, a: Plan, b: Plan, ps: seq<Parameter>, qs: seq<Parameter>, t: Time, u: Time,
                                i: Id, k: Id) {
    var x, y := p.collect(ps, a, t, i), p.collect(qs, b, u, k);
    && x.Some? == y.Some?
    && (x.Some? ==>
          && (forall s :: SomeField(x.value, s) <==> SomeField(y.value, s))
          && SameEntries(ItemName, p.collectionResults(ps, a, x.value), p.collectionResults(qs, b, y.value)))
  }

  lemma CollectStable(lib: Lib, evidence: (Reply, Plan, Kind, Time) -> Option<string>)
    ensures var p := HuaweiPolicy(lib, evidence);
            forall ps, qs, a, b, t, u, i: Id, k: Id {:trigger p.collect(ps, a, t, i), p.collect(qs, b, u, k)} ::
              SameCore(a, b) && SameEntries(ParameterName, ps, qs) ==> SameCollected(p, a, b, ps, qs, t, u, i, k)
  {
    hide Collected, SomeField, SameCore, ResultItem;
    var p := HuaweiPolicy(lib, evidence);
    forall ps, qs, a, b, t, u, i: Id, k: Id | SameCore(a, b) && SameEntries(ParameterName, ps, qs)
      ensures SameCollected(p, a, b, ps, qs, t, u, i, k)
    {
      CollectOrderFree(lib, a, b, ps, qs, t, u, i, k);
      if Collect(lib, ps, a, t, i).Some? { ResultsOrderFree(lib, a, b, ps, qs, t, u, i, k); }
    }
  }
}
