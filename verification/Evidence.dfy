/** Evidence of one read: a reconstruction of the reply without personal values, and the check that
    rebuilds it from itself. */
module Evidence {
  import opened Text
  import opened Domain
  import opened Policies
  import opened Telemetry
  import opened Huawei
  import opened Xml
  import opened Soap
  import opened SoapPrinter
  import opened Relabel

  datatype Manifest = Manifest(target: Target, profileId: string, profileVersion: string, kind: Kind, scope: Scope,
                               path: string,
                               requested: seq<string>, receivedAt: Time, receivedCount: nat,
                               omitted: seq<string>, substituted: seq<string>)

  datatype Bundle = Bundle(manifest: Manifest, request: Element, response: Element)

  const MAC_LABEL := "02:00:00:00:00:01"

  /** The variables of the building loop. */
  datatype Work = Work(retained: seq<Parameter>, substituted: seq<string>, labels: Labels)

  const START := Work([], [], NONE)

  predicate Addressed(name: TelemetryName) { name.Ipv4? || name.Ipv6? || name.Dns? || name.Mac? }

  function Keep(w: Work, q: Parameter): Work { w.(retained := w.retained + [q]) }

  /** A WAN parameter: kept when valid or empty, with its addresses replaced. None stands for an address that cannot be
      read. */
  function ProjectWan(lib: Lib, profile: string, w: Work, name: TelemetryName, q: Parameter): Option<Work> {
    var o := Observe(lib, name, q, profile);
    if !o.state.Valid? && !o.state.Unavailable? then Some(w)
    else if o.state.Unavailable? || !Addressed(name) then Some(Keep(w, q))
    else if name.Mac? then Some(Keep(w, q.(value := MAC_LABEL)).(substituted := w.substituted + [q.name]))
    else
      match Relabelled(lib, w.labels, Split(Strip(q.value), ','))
      case None => None
      case Some((labels, parts)) =>
        Some(Work(w.retained + [q.(value := Join(parts, ','))], w.substituted + [q.name], labels))
  }

  /** One parameter of the reply; None when it was not asked for. */
  function ProjectOne(lib: Lib, plan: Plan, w: Work, q: Parameter): Option<Work> {
    if q.name !in plan.names then None
    else if plan.scope.DeviceInfo? then
      Some(if q.xsdType == "xsd:string" && SafeText(lib, q.value, 256) then Keep(w, q) else w)
    else
      match FieldName(plan.path, q.name, plan.scope)
      case None => Some(w)
      case Some(name) =>
        if plan.scope.Optical? then
          Some(if q.xsdType in {"xsd:string", "xsd:int", "xsd:unsignedInt"} && DecimalText(Strip(q.value))
               then Keep(w, q) else w)
        else ProjectWan(lib, plan.profileId, w, name, q)
  }

  function Projected(lib: Lib, plan: Plan, ps: seq<Parameter>, n: nat): Option<Work>
    requires n <= |ps|
  {
    if n == 0 then Some(START)
    else
      match Projected(lib, plan, ps, n - 1)
      case None => None
      case Some(w) => ProjectOne(lib, plan, w, ps[n - 1])
  }

  /** The names that are missing, ascending. */
  function Missing(names: seq<string>, kept: seq<Parameter>): seq<string> { SortedSet(Unkept(names, kept)) }

  function Unkept(names: seq<string>, kept: seq<Parameter>): seq<string> {
    if names == [] then []
    else (if names[0] in NameSet(kept) then [] else [names[0]]) + Unkept(names[1..], kept)
  }

  /** The declared limits of a manifest. */
  predicate WithinLimits(m: Manifest) {
    && |m.target.manufacturer| <= 64 && |m.target.oui| <= 6 && |m.target.productClass| <= 64
    && (m.target.firmware.Some? ==> |m.target.firmware.value| <= 256)
    && (m.target.model.Some? ==> |m.target.model.value| <= 256)
    && |m.profileId| <= 128 && |m.profileVersion| <= 32 && |m.path| <= 256 && |m.requested| <= 16
    && m.receivedCount <= 128 && |m.omitted| <= 16 && |m.substituted| <= 16
  }

  function EntriesOf(reply: Reply): seq<Parameter> { if reply.ValuesReply? then reply.parameters else [] }

  function BundleOf(reply: Reply, w: Work, plan: Plan, kind: Kind, at: Time, count: nat): Bundle {
    Bundle(Manifest(plan.target, plan.profileId, plan.profileVersion, kind, plan.scope, plan.path, plan.names, at,
                    count,
                    if reply.ValuesReply? then Missing(plan.names, w.retained) else [], w.substituted),
           Request(RPC_ID, kind, plan),
           Response(if reply.ValuesReply? then ValuesReply(RPC_ID, w.retained) else reply))
  }

  function Build(lib: Lib, reply: Reply, plan: Plan, kind: Kind, at: Time, count: nat): Option<Bundle> {
    var ps := SortBy(ParameterName, EntriesOf(reply));
    match Projected(lib, plan, ps, |ps|)
    case None => None
    case Some(w) =>
      var b := BundleOf(reply, w, plan, kind, at, count);
      if WithinLimits(b.manifest) then Some(b) else None
  }

  function EntryCount(reply: Reply): nat {
    match reply
    case FaultReply(_, _) => 0
    case NamesReply(_, names) => |names|
    case ValuesReply(_, ps) => |ps|
  }

  function Listing(reply: Reply, plan: Plan): Reply {
    if reply.NamesReply? then reply.(names := KeptNames(reply.names, plan)) else reply
  }

  /** What the policy keeps of a reply it has judged. */
  function EvidenceOf(lib: Lib, reply: Reply, plan: Plan, kind: Kind, at: Time): Option<Bundle> {
    Build(lib, Listing(reply, plan), plan, kind, at, EntryCount(reply))
  }

  /** The loop over the sorted parameters. */
  method BuildEvidence(lib: Lib, reply: Reply, plan: Plan, kind: Kind, at: Time, count: nat) returns (r: Option<Bundle>)
    ensures r == Build(lib, reply, plan, kind, at, count)
  {
    hide ProjectOne, Response, Request, WithinLimits;
    var ps := SortBy(ParameterName, EntriesOf(reply));
    var w := START;
    for i := 0 to |ps|
      invariant Projected(lib, plan, ps, i) == Some(w)
    {
      var next := ProjectOne(lib, plan, w, ps[i]);
      if next.None? {
        ProjectionFails(lib, plan, ps, i + 1, |ps|);
        return None;
      }
      w := next.value;
    }
    var b := BundleOf(reply, w, plan, kind, at, count);
    return if WithinLimits(b.manifest) then Some(b) else None;
  }

  lemma {:induction false} ProjectionFails(lib: Lib, plan: Plan, ps: seq<Parameter>, n: nat, m: nat)
    requires n <= m <= |ps| && Projected(lib, plan, ps, n).None?
    ensures Projected(lib, plan, ps, m).None?
  {
    hide ProjectOne;
    if n < m { ProjectionFails(lib, plan, ps, n, m - 1); }
  }

  // ----- Verifying -----

  predicate Below(path: string, name: string) {
    StartsWith(name, path) && '.' !in StripRight(name[|path|..], Dot)
  }

  function PathOf(scope: Scope, path: string): Option<string> { if scope.DeviceInfo? then None else Some(path) }

  /** Remakes the plan, parses the kept reply and rebuilds the bundle; the result must be the bundle itself. */
  function Verify(lib: Lib, b: Bundle): Option<Bundle> {
    var m := b.manifest;
    if !WithinLimits(m) then None
    else if (m.scope.Discovery? && !m.kind.GetNames?) || (Measured(m.scope) && !m.kind.GetValues?) then None
    else
      match MakePlan(m.target, m.scope, PathOf(m.scope, m.path), m.requested)
      case None => None
      case Some(plan) =>
        var doc := Resolve(b.response, map[]);
        if plan.profileId != m.profileId || plan.profileVersion != m.profileVersion || plan.path != m.path
            || plan.names != m.requested
        then None
        else if doc.None? || !ParseReply(doc.value).Accepted? then None
        else
          var reply := ParseReply(doc.value).reply;
          if (reply.NamesReply? && !m.kind.GetNames?) || (reply.ValuesReply? && !m.kind.GetValues?) then None
          else if EntryCount(reply) > m.receivedCount || (reply.ValuesReply? && m.receivedCount != |plan.names|)
              then None
          else if reply.NamesReply? && exists i :: i in reply.names && !Below(plan.path, i.name) then None
          else if Build(lib, Listing(reply, plan), plan, m.kind, m.receivedAt, m.receivedCount) == Some(b) then Some(b)
          else None
  }

  // ----- Projecting what was projected -----

  lemma JoinChars(parts: seq<string>, n: nat)
    requires |parts| <= n && forall p | p in parts :: |p| <= 13 && forall c | c in p :: AddressChar(c) && !Blank(c)
    ensures |Join(parts, ',')| <= 14 * n && forall c | c in Join(parts, ',') :: c != '%' && !Blank(c)
    decreases n
  {
    if |parts| > 1 {
      assert parts[0] in parts;
      assert forall p | p in parts[1..] :: p in parts;
      JoinChars(parts[1..], n - 1);
    } else if |parts| == 1 {
      assert parts[0] in parts;
    }
  }

  lemma JoinNonEmpty(parts: seq<string>)
    requires parts != [] && parts[0] != ""
    ensures Join(parts, ',') != "" && Join(parts, ',')[0] == parts[0][0]
  {}

  lemma {:induction false} AllAddresses(lib: Lib, parts: seq<string>)
    requires DnsTexts(lib, parts).Some?
    ensures forall p | p in parts :: lib.parse(Strip(p)).Some?
  {
    hide Strip;
    if parts != [] {
      var n := |parts| - 1;
      assert parts == parts[..n] + [parts[n]];
      AllAddresses(lib, parts[..n]);
    }
  }

  lemma {:induction false} LabelsAreDns(lib: Lib, parts: seq<string>)
    requires forall p | p in parts :: var a := lib.parse(Strip(p));
             a.Some? && !a.value.unspecified && !a.value.multicast
    ensures DnsTexts(lib, parts).Some?
  {
    hide Strip;
    if parts != [] {
      var n := |parts| - 1;
      assert parts[n] in parts && forall p | p in parts[..n] :: p in parts;
      LabelsAreDns(lib, parts[..n]);
    }
  }

  lemma NoZone(s: string, parts: seq<string>)
    requires '%' !in s && parts == Split(s, ',')
    ensures forall p | p in parts :: Scopeless(Strip(p))
  {
    forall p | p in parts ensures Scopeless(Strip(p)) {
      PartOf(s, ',', p);
      StripWithin(p);
    }
  }

  lemma {:induction false} PartOf(s: string, sep: char, p: string)
    requires p in Split(s, sep)
    ensures forall c | c in p :: c in s
  {
    if s != "" {
      var rest := Split(s[1..], sep);
      forall q | q in rest ensures forall c | c in q :: c in s { PartOf(s[1..], sep, q); }
      assert rest[0] in rest;
      assert forall q | q in rest[1..] :: q in rest;
    }
  }

  lemma {:induction false} StripLeftWithin(s: string, drop: char -> bool)
    ensures forall c | c in StripLeft(s, drop) :: c in s
  {
    if s != "" && drop(s[0]) { StripLeftWithin(s[1..], drop); }
  }

  lemma StripWithin(s: string)
    ensures forall c | c in Strip(s) :: c in s
  {
    StripRightShape(s, Blank);
    StripLeftWithin(StripRight(s, Blank), Blank);
  }

  /** A valid address field is a list of addresses that can be replaced one by one. */
  lemma AddressParts(lib: Lib, name: TelemetryName, q: Parameter, profile: string)
    requires AddressLib(lib) && (name.Ipv4? || name.Ipv6? || name.Dns?) && Observe(lib, name, q, profile).state.Valid?
    ensures var raw := Strip(q.value); var parts := Split(raw, ',');
            && q.xsdType == "xsd:string" && 1 <= |parts| <= 8 && Addresses(lib, parts)
            && (!name.Dns? ==> parts == [raw] && Strip(raw) == raw && lib.parse(raw).value.v4 == name.Ipv4?)
  {
    hide StripLeft, StripRight;
    var raw := Strip(q.value);
    var parts := Split(raw, ',');
    NoZone(raw, parts);
    if name.Dns? {
      AllAddresses(lib, parts);
    } else {
      AddressAlone(lib, raw);
    }
  }

  lemma AddressAlone(lib: Lib, raw: string)
    requires AddressLib(lib) && lib.parse(raw).Some? && Scopeless(raw)
    ensures Split(raw, ',') == [raw] && Strip(raw) == raw
  {
    assert ',' !in raw;
    SplitNone(raw, ',');
    Unpadded(raw);
  }

  /** The labels of a list, joined, are read back as the same labels. */
  lemma JoinedLabels(lib: Lib, s: Labels, labels: seq<string>, versions: seq<bool>)
    requires AddressLib(lib) && s.v4 + s.v6 <= MOST && 1 <= |labels| <= 8 && |versions| == |labels|
    requires forall k | 0 <= k < |labels| :: GivenLabel(s, versions[k], labels[k])
    ensures var text := Join(labels, ',');
            && Split(text, ',') == labels && Strip(text) == text && text != "" && |text| <= 112 && '%' !in text
            && DnsTexts(lib, labels).Some?
    ensures forall k | 0 <= k < |labels| ::
      lib.parse(labels[k]) == Some(Address(versions[k], labels[k], false, false)) && labels[k] != ""
  {
    hide Alias, Strip, DnsTexts, Join, GivenLabel;
    forall k | 0 <= k < |labels|
      ensures && lib.parse(labels[k]) == Some(Address(versions[k], labels[k], false, false))
              && Strip(labels[k]) == labels[k]
              && labels[k] != "" && |labels[k]| <= 13 && ',' !in labels[k]
              && forall c | c in labels[k] :: AddressChar(c) && !Blank(c)
    {
      LabelText(lib, s, versions[k], labels[k]);
    }
    forall p | p in labels
      ensures ',' !in p && |p| <= 13 && (forall c | c in p :: AddressChar(c) && !Blank(c))
              && lib.parse(Strip(p)).Some? && !lib.parse(Strip(p)).value.unspecified
              && !lib.parse(Strip(p)).value.multicast
    {
      var k :| 0 <= k < |labels| && labels[k] == p;
    }
    SplitJoin(labels, ',');
    JoinChars(labels, 8);
    JoinNonEmpty(labels);
    Unpadded(Join(labels, ','));
    LabelsAreDns(lib, labels);
  }

  lemma LabelNotZero(s: Labels, v4: bool, l: string)
    requires GivenLabel(s, v4, l)
    ensures l != "" && l[0] == if v4 then '1' else '2'
  {}

  /** A relabelled field is as valid as the field was. */
  lemma RelabelledIsValid(lib: Lib, name: TelemetryName, q: Parameter, profile: string, s: Labels)
    requires AddressLib(lib) && Proper(lib, s) && s.v4 + s.v6 + 8 <= MOST
    requires (name.Ipv4? || name.Ipv6? || name.Dns?) && Observe(lib, name, q, profile).state.Valid?
    ensures var parts := Split(Strip(q.value), ',');
            && Relabelled(lib, s, parts).Some?
            && var text := Join(Relabelled(lib, s, parts).value.1, ',');
               && Observe(lib, name, q.(value := text), profile).state.Valid? && Strip(text) == text && |text| <= 112
               && Split(text, ',') == Relabelled(lib, s, parts).value.1
  {
    hide Strip, Split, Join, Alias, DnsTexts, Relabelled, Proper, GivenLabel, AddressLib;
    AddressParts(lib, name, q, profile);
    var parts := Split(Strip(q.value), ',');
    RelabelledParts(lib, s, parts);
    var (r, labels) := Relabelled(lib, s, parts).value;
    var versions := seq(|parts|, k requires 0 <= k < |parts| => lib.parse(Strip(parts[k])).Some?
                        && lib.parse(Strip(parts[k])).value.v4);
    forall k | 0 <= k < |labels| ensures GivenLabel(r, versions[k], labels[k]) {
      assert parts[k] in parts;
    }
    JoinedLabels(lib, r, labels, versions);
    LabelNotZero(r, versions[0], labels[0]);
    if !name.Dns? {
      assert labels == [labels[0]] && parts[0] == Strip(q.value);
      JoinOne(labels[0]);
    }
  }

  lemma JoinOne(s: string)
    ensures Join([s], ',') == s
  {}

  /** Two runs that have kept and replaced the same, with labels in step. */
  ghost predicate InStep(lib: Lib, w: Work, again: Work) {
    && w.retained == again.retained && w.substituted == again.substituted
    && Proper(lib, w.labels) && Linked(w.labels, again.labels)
  }

  /** One step either drops the parameter or keeps it, perhaps with another value; a second run over what was kept
      keeps it unchanged. */
  ghost predicate StepsAgain(lib: Lib, plan: Plan, w: Work, again: Work, q: Parameter, r: Work) {
    || r == w
    || (&& |r.retained| == |w.retained| + 1
        && var kept := r.retained[|w.retained|];
           && r.retained == w.retained + [kept] && kept.name == q.name && kept.xsdType == q.xsdType
           && (kept.value == q.value || (kept.xsdType == "xsd:string" && |kept.value| <= 112))
           && ProjectOne(lib, plan, again, kept).Some? && InStep(lib, r, ProjectOne(lib, plan, again, kept).value)
           && |r.substituted| <= |w.substituted| + 1 && r.labels.v4 + r.labels.v6 <= w.labels.v4 + w.labels.v6 + 8)
  }

  lemma KeptSame(lib: Lib, plan: Plan, w: Work, again: Work, q: Parameter)
    requires InStep(lib, w, again) && ProjectOne(lib, plan, w, q) == Some(Keep(w, q))
             && ProjectOne(lib, plan, again, q) == Some(Keep(again, q))
    ensures StepsAgain(lib, plan, w, again, q, Keep(w, q))
  {}

  lemma MacLabelClean()
    ensures Strip(MAC_LABEL) == MAC_LABEL && MacText(MAC_LABEL) == MAC_LABEL
  {}

  lemma MacLabelUnicast()
    ensures UnicastMac(MAC_LABEL)
  {
    var m := MAC_LABEL;
    assert m[0] == '0' && m[1] == '2' && m[3] == '0' && m[4] == '0' && m[6] == '0' && m[7] == '0' && m[9] == '0'
           && m[10] == '0';
    assert m[12] == '0' && m[13] == '0' && m[15] == '0' && m[16] == '1';
    assert m[2] == ':' && m[5] == ':' && m[8] == ':' && m[11] == ':' && m[14] == ':';
    assert m[1] == '2' && "02468ace"[1] == '2' && "00:00:00:00:00:00"[1] == '0';
  }

  lemma MacAgain(lib: Lib, q: Parameter, profile: string)
    requires Observe(lib, Mac, q, profile).state.Valid?
    ensures Observe(lib, Mac, q.(value := MAC_LABEL), profile).state.Valid? && q.xsdType == "xsd:string"
  {
    hide Strip, MacText, UnicastMac;
    MacLabelClean();
    MacLabelUnicast();
    assert |MAC_LABEL| == 17;
  }

  lemma WanAgain(lib: Lib, plan: Plan, w: Work, again: Work, q: Parameter, name: TelemetryName)
    requires AddressLib(lib) && InStep(lib, w, again) && w.labels.v4 + w.labels.v6 + 8 <= MOST && q.name in plan.names
    requires !plan.scope.DeviceInfo? && !plan.scope.Optical? && FieldName(plan.path, q.name, plan.scope) == Some(name)
    ensures ProjectOne(lib, plan, w, q).Some? && StepsAgain(lib, plan, w, again, q, ProjectOne(lib, plan, w, q).value)
  {
    hide Observe, FieldName, Strip, Split, Join, Relabelled, Proper, Linked, AddressLib;
    var o := Observe(lib, name, q, plan.profileId);
    if o.state.Valid? && name.Mac? {
      MacAgain(lib, q, plan.profileId);
    } else if o.state.Valid? && Addressed(name) {
      RelabelledIsValid(lib, name, q, plan.profileId, w.labels);
      AddressParts(lib, name, q, plan.profileId);
      var parts := Split(Strip(q.value), ',');
      RelabelledParts(lib, w.labels, parts);
      RelabelledAgain(lib, w.labels, again.labels, parts);
      var (r, labels) := Relabelled(lib, w.labels, parts).value;
      var kept := q.(value := Join(labels, ','));
      var (r2, same) := Relabelled(lib, again.labels, labels).value;
      assert ProjectOne(lib, plan, again, kept)
             == Some(Work(again.retained + [kept], again.substituted + [q.name], r2));
    } else if o.state.Valid? || o.state.Unavailable? {
      KeptSame(lib, plan, w, again, q);
    }
  }

  lemma StepAgain(lib: Lib, plan: Plan, w: Work, again: Work, q: Parameter)
    requires AddressLib(lib) && InStep(lib, w, again) && w.labels.v4 + w.labels.v6 + 8 <= MOST && q.name in plan.names
    ensures ProjectOne(lib, plan, w, q).Some? && StepsAgain(lib, plan, w, again, q, ProjectOne(lib, plan, w, q).value)
  {
    hide FieldName, InStep, StepsAgain, SafeText, DecimalText, Strip, ProjectWan, AddressLib;
    if !plan.scope.DeviceInfo? && !plan.scope.Optical? && FieldName(plan.path, q.name, plan.scope).Some? {
      WanAgain(lib, plan, w, again, q, FieldName(plan.path, q.name, plan.scope).value);
    } else if ProjectOne(lib, plan, w, q).value != w {
      KeptSame(lib, plan, w, again, q);
    } else {
      Dropped(lib, plan, w, again, q);
    }
  }

  lemma Dropped(lib: Lib, plan: Plan, w: Work, again: Work, q: Parameter)
    ensures StepsAgain(lib, plan, w, again, q, w)
  {}

  lemma {:induction false} ProjectedPrefix(lib: Lib, plan: Plan, ps: seq<Parameter>, rs: seq<Parameter>, n: nat)
    requires n <= |ps| && n <= |rs| && ps[..n] == rs[..n]
    ensures Projected(lib, plan, ps, n) == Projected(lib, plan, rs, n)
  {
    hide ProjectOne;
    if n > 0 {
      assert ps[..n - 1] == ps[..n][..n - 1] && rs[..n - 1] == rs[..n][..n - 1];
      assert ps[n - 1] == ps[..n][n - 1] && rs[n - 1] == rs[..n][n - 1];
      ProjectedPrefix(lib, plan, ps, rs, n - 1);
    }
  }

  /** What is kept of a reply, in terms of the reply. */
  ghost predicate KeptOf(ps: seq<Parameter>, n: nat, kept: seq<Parameter>)
    requires n <= |ps|
  {
    && |kept| <= n
    && (forall k | k in kept :: exists i ::
          0 <= i < n && ps[i].name == k.name && ps[i].xsdType == k.xsdType
          && (ps[i].value == k.value
              || (k.xsdType == "xsd:string" && |k.value| <= 112)))
    && (Ascending(ParameterName, ps) ==> Ascending(ParameterName, kept))
  }

  lemma KeptGrows(ps: seq<Parameter>, n: nat, kept: seq<Parameter>, k: Parameter)
    requires 0 < n <= |ps| && KeptOf(ps, n - 1, kept)
    requires ps[n - 1].name == k.name && ps[n - 1].xsdType == k.xsdType
    requires ps[n - 1].value == k.value || (k.xsdType == "xsd:string" && |k.value| <= 112)
    ensures KeptOf(ps, n, kept + [k])
  {}

  /** Projecting what was projected changes nothing: the relabelling is a fixed point. */
  lemma {:induction false} ProjectedAgain(lib: Lib, plan: Plan, ps: seq<Parameter>, n: nat)
    requires AddressLib(lib) && n <= |ps| <= 16 && forall q | q in ps :: q.name in plan.names
    ensures Projected(lib, plan, ps, n).Some?
    ensures var w := Projected(lib, plan, ps, n).value;
            && KeptOf(ps, n, w.retained) && |w.substituted| <= n && w.labels.v4 + w.labels.v6 <= 8 * n
            && Projected(lib, plan, w.retained, |w.retained|).Some?
            && InStep(lib, w, Projected(lib, plan, w.retained, |w.retained|).value)
  {
    hide ProjectOne, InStep, AddressLib;
    if n == 0 {
      StartInStep(lib);
    } else {
      ProjectedAgain(lib, plan, ps, n - 1);
      var w, q := Projected(lib, plan, ps, n - 1).value, ps[n - 1];
      var again := Projected(lib, plan, w.retained, |w.retained|).value;
      assert q in ps;
      StepAgain(lib, plan, w, again, q);
      var r := Projected(lib, plan, ps, n).value;
      if r != w {
        var kept := r.retained[|w.retained|];
        KeptGrows(ps, n, w.retained, kept);
        ProjectedPrefix(lib, plan, w.retained, r.retained, |w.retained|);
        assert r.retained[..|w.retained|] == w.retained[..|w.retained|];
      }
    }
  }

  lemma StartInStep(lib: Lib)
    ensures InStep(lib, START, START)
  {}
}
