/** Telemetry mappings of the reviewed profiles: which parameter is which field, what a value is worth,
    and how the addresses of several sources become one field. */
module Telemetry {
  import opened Text
  import opened Numbers
  import opened Domain

  /** A parsed address: its version, its canonical text, and whether it is unspecified or multicast. */
  datatype Address = Address(v4: bool, text: string, unspecified: bool, multicast: bool)

  /** Library calls: address parsing, and which characters are printable. */
  datatype Lib = Lib(parse: string -> Option<Address>, printable: char -> bool)

  const X6_PROFILE := "huawei-eg8145x6-10-v5r022c00s364"
  const V5_PROFILE := "huawei-eg8145v5-v2-v5r021c00s210"

  // ----- Field names -----

  /** An instance number: 1 to 9999 without leading zeros. */
  predicate Instance(s: string) { Digits(s) && |s| <= 4 && s[0] != '0' }

  predicate WanPath(path: string) {
    var p := Split(path, '.');
    && |p| == 8 && p[0] == "InternetGatewayDevice" && p[1] == "WANDevice" && Instance(p[2])
    && p[3] == "WANConnectionDevice" && Instance(p[4]) && p[5] == "WANPPPConnection" && Instance(p[6]) && p[7] == ""
  }

  predicate OpticalPath(path: string) {
    var p := Split(path, '.');
    |p| == 5 && p[0] == "InternetGatewayDevice" && p[1] == "WANDevice" && Instance(p[2])
        && p[3] == "X_GponInterafceConfig" && p[4] == ""
  }

  predicate Ipv6Name(relative: string) {
    var p := Split(relative, '.');
    |p| == 4 && p[0] == "X_HW_IPv6" && p[1] == "IPv6Address" && Instance(p[2]) && p[3] == "IPAddress"
  }

  function RelativeField(relative: string, scope: Scope): Option<TelemetryName> {
    if scope.Optical? then
      if relative == "RXPower" then Some(RxPower) else if relative == "TXPower" then Some(TxPower) else None
    else if relative == "ExternalIPAddress" then Some(Ipv4)
    else if relative == "MACAddress" then Some(Mac)
    else if relative == "DNSServers" then Some(Dns)
    else if relative == "ConnectionStatus" then Some(ConnectionStatus)
    else if relative == "TransportType" then Some(TransportType)
    else if relative == "X_HW_SERVICELIST" then Some(ServiceList)
    else if Ipv6Name(relative) then Some(Ipv6)
    else None
  }

  function FieldName(path: string, parameter: string, scope: Scope): Option<TelemetryName> {
    if StartsWith(parameter, path) then RelativeField(parameter[|path|..], scope) else None
  }

  /** Each entry once. */
  function Once(s: seq<string>): seq<string> {
    if s == [] then [] else if s[0] in s[1..] then Once(s[1..]) else [s[0]] + Once(s[1..])
  }

  /** Python's `sorted(set(...))`. */
  function SortedSet(s: seq<string>): seq<string> { SortBy(Self, Once(s)) }

  function Fields(path: string, scope: Scope, available: seq<string>): seq<string> {
    if available == [] then []
    else (if FieldName(path, available[0], scope).Some? then [available[0]]
          else []) + Fields(path, scope, available[1..])
  }

  /** The names to read: the available ones that are fields, ascending, at most sixteen, with the two that classify a
      WAN. */
  function SelectNames(path: string, scope: Scope, available: seq<string>): Option<seq<string>> {
    var names := SortedSet(Fields(path, scope, available));
    if !(if scope.Wan? then WanPath(path) else OpticalPath(path)) then None
    else if names == [] || |names| > 16 then None
    else if scope.Wan? && (path + "X_HW_SERVICELIST" !in names || path + "TransportType" !in names) then None
    else Some(names)
  }

  // ----- Observing one value -----

  predicate Integer(raw: string) { Digits(Unsigned(raw)) && |Unsigned(raw)| <= 10 }

  predicate DecimalText(raw: string) {
    var p := Split(Unsigned(raw), '.');
    && 1 <= |p| <= 2 && Digits(p[0]) && |p[0]| <= 10 && (|p| == 2 ==> Digits(p[1]) && |p[1]| <= 4)
  }

  function Lower(c: char): char { if 'A' <= c <= 'Z' then (c as int + 32) as char else c }

  function MacText(raw: string): string {
    seq(|raw|, i requires 0 <= i < |raw| => if raw[i] == '-' then ':' else Lower(raw[i]))
  }

  predicate UnicastMac(m: string) {
    && |m| == 17 && (forall i | 0 <= i < 17 :: if i % 3 == 2 then m[i] == ':' else HexDigit(m[i]))
    && m != "00:00:00:00:00:00" && m[1] in "02468ace"
  }

  /** The addresses of a list, in order, each once; None when some part is not a usable address. */
  function DnsTexts(lib: Lib, parts: seq<string>): Option<seq<string>> {
    if parts == [] then Some([])
    else
      var front := DnsTexts(lib, parts[..|parts| - 1]);
      var last := lib.parse(Strip(parts[|parts| - 1]));
      if front.None? || last.None? || last.value.unspecified || last.value.multicast then None
      else if last.value.text in front.value then front
      else Some(front.value + [last.value.text])
  }

  const STATUSES := {"Unconfigured", "Connecting", "Authenticating", "Connected", "PendingDisconnect", "Disconnecting",
                      "Disconnected"}
  const SERVICES := {"INTERNET", "TR069", "VOIP", "IPTV", "OTHER"}

  function Good(name: TelemetryName, source: string, value: TelemetryValue, dBm: bool): TelemetryObservation {
    TelemetryObservation(name, Valid, source, Some(value), dBm, None, [])
  }

  function Bad(name: TelemetryName, state: TelemetryState, source: string,
               reason: TelemetryReason): TelemetryObservation {
    TelemetryObservation(name, state, source, None, false, Some(reason), [])
  }

  function ObservePower(name: TelemetryName, q: Parameter, raw: string, profileId: string): TelemetryObservation {
    if q.xsdType !in {"xsd:int", "xsd:unsignedInt", "xsd:string"} || !DecimalText(raw)
        then Bad(name, Invalid, q.name, InvalidNumber)
    else if profileId !in {X6_PROFILE, V5_PROFILE} || q.xsdType != "xsd:int" || !Integer(raw) then
      Bad(name, Unverified, q.name, UnverifiedUnit)
    else if !(-80 <= SignedValue(raw) <= 20) then Bad(name, Invalid, q.name, OutOfRange)
    else Good(name, q.name, Number(SignedValue(raw)), true)
  }

  function ObserveAddress(lib: Lib, name: TelemetryName, q: Parameter, raw: string): TelemetryObservation {
    var ip := lib.parse(raw);
    if '%' in raw || ip.None? || ip.value.v4 != name.Ipv4? || ip.value.unspecified || ip.value.multicast
    then Bad(name, Invalid, q.name, InvalidIp)
    else Good(name, q.name, Labels([ip.value.text]), false)
  }

  function ObserveLabels(name: TelemetryName, q: Parameter, raw: string, profileId: string): TelemetryObservation {
    var texts := if name.ServiceList? && profileId == X6_PROFILE && raw == "TR069_INTERNET" then ["TR069", "INTERNET"]
        else Split(raw, ',');
    var choices := if name.ConnectionStatus? then STATUSES else if name.TransportType? then {"PPPoE"} else SERVICES;
    if (!name.ServiceList? && |texts| != 1) || exists t :: t in texts && t !in choices
        then Bad(name, Invalid, q.name, InvalidType)
    else Good(name, q.name, if name.ServiceList? then Labels(texts) else Label(raw), false)
  }

  function Observe(lib: Lib, name: TelemetryName, q: Parameter, profileId: string): TelemetryObservation {
    var raw := Strip(q.value);
    if raw == "" || (name.Ipv4? && raw == "0.0.0.0") || (name.Ipv6? && raw == "::")
        then Bad(name, Unavailable, q.name, Empty)
    else if name.RxPower? || name.TxPower? then ObservePower(name, q, raw, profileId)
    else if q.xsdType != "xsd:string" || |raw| > 1024 then Bad(name, Invalid, q.name, InvalidType)
    else if name.Ipv4? || name.Ipv6? then ObserveAddress(lib, name, q, raw)
    else if name.Dns? then
      var parts := Split(raw, ',');
      if |parts| > 8 || '%' in raw || DnsTexts(lib, parts).None? then Bad(name, Invalid, q.name, InvalidDns)
      else Good(name, q.name, Labels(DnsTexts(lib, parts).value), false)
    else if name.Mac? then
      if UnicastMac(MacText(raw)) then Good(name, q.name, Label(MacText(raw)), false)
          else Bad(name, Invalid, q.name, InvalidMac)
    else ObserveLabels(name, q, raw, profileId)
  }

  lemma ObserveShape(lib: Lib, name: TelemetryName, q: Parameter, profileId: string)
    ensures var o := Observe(lib, name, q, profileId);
            && o.name == name && o.source == q.name && o.sources == [] && (o.state.Valid? <==> o.value.Some?)
            && (o.state.Valid? <==> o.reason.None?)
            && (name.Ipv6? && o.state.Valid? ==> o.value.value.Labels? && |o.value.value.texts| == 1)
            && (name.Ipv6? ==> !o.state.Unverified?) && (o.state.Unavailable? ==> o.reason == Some(Empty))
  {
    hide Split, Strip, MacText, UnicastMac, DnsTexts, SignedValue, Integer, DecimalText;
  }

  // ----- Joining the sources of one field -----

  function TextsOf(o: TelemetryObservation): seq<string> {
    if o.value.Some? && o.value.value.Labels? then o.value.value.texts else []
  }

  /** Two observations of the same field: for addresses, their sources and values are joined; anything else is
      replaced. */
  function Joined(previous: Option<TelemetryObservation>, o: TelemetryObservation): TelemetryObservation {
    if previous.None? || !o.name.Ipv6? then o
    else
      var sources := SortBy(Self, previous.value.sources + o.sources);
      var first := if sources != [] then sources[0] else o.source;
      if previous.value.state.Invalid? || o.state.Invalid? then
        TelemetryObservation(o.name, Invalid, first, None, false, Some(ConflictingValues), sources)
      else
        var values := SortedSet(TextsOf(previous.value) + TextsOf(o));
        TelemetryObservation(o.name, if values != [] then Valid else Unavailable, first,
                             if values != [] then Some(Labels(values)) else None, false,
                             if values != [] then None else Some(Empty), sources)
  }

  /** The field a parameter is, observed with itself as its only source. */
  function Seen(lib: Lib, plan: Plan, q: Parameter): Option<TelemetryObservation> {
    match FieldName(plan.path, q.name, plan.scope)
    case None => None
    case Some(name) => Some(Observe(lib, name, q, plan.profileId).(sources := [q.name]))
  }

  function FieldAt(fields: seq<TelemetryObservation>, name: TelemetryName): Option<TelemetryObservation> {
    if fields == [] then None
    else if fields[0].name == name then Some(fields[0])
    else FieldAt(fields[1..], name)
  }

  /** A dictionary keeps a key's first position when its value is replaced. */
  function PutField(fields: seq<TelemetryObservation>, o: TelemetryObservation): seq<TelemetryObservation> {
    if fields == [] then [o]
    else if fields[0].name == o.name then [o] + fields[1..]
    else [fields[0]] + PutField(fields[1..], o)
  }

  /** The fields after the first `n` parameters of a reply; None when one of them is not a field. */
  function Collected(lib: Lib, plan: Plan, ps: seq<Parameter>, n: nat): Option<seq<TelemetryObservation>>
    requires n <= |ps|
  {
    if n == 0 then Some([])
    else
      var before, o := Collected(lib, plan, ps, n - 1), Seen(lib, plan, ps[n - 1]);
      if before.None? || o.None? then None
      else Some(PutField(before.value, Joined(FieldAt(before.value, o.value.name), o.value)))
  }

  predicate InternetPppoe(fields: seq<TelemetryObservation>) {
    var service, transport := FieldAt(fields, ServiceList), FieldAt(fields, TransportType);
    && service.Some? && "INTERNET" in TextsOf(service.value)
    && transport.Some? && transport.value.value == Some(Label("PPPoE"))
  }

  function Collect(lib: Lib, ps: seq<Parameter>, plan: Plan, now: Time, id: Id): Option<Collection> {
    match Collected(lib, plan, ps, |ps|)
    case None => None
    case Some(fields) =>
      if plan.scope.Wan? && !InternetPppoe(fields) then None
      else Some(Collection(if plan.scope.Wan? then WanKind else OpticalKind, plan.path, plan.profileId,
                           plan.profileVersion, now, id, fields))
  }

  // ----- The join in closed form -----

  /** The parameters of a reply that are one field. */
  function SourcesFor(plan: Plan, ps: seq<Parameter>, n: nat, name: TelemetryName): set<Parameter>
    requires n <= |ps|
  {
    set i | 0 <= i < n && FieldName(plan.path, ps[i].name, plan.scope) == Some(name) :: ps[i]
  }

  ghost predicate AnyInvalid(lib: Lib, profile: string, qs: set<Parameter>) {
    exists q :: q in qs && Observe(lib, Ipv6, q, profile).state.Invalid?
  }

  function AllTexts(lib: Lib, profile: string, qs: set<Parameter>): set<string> {
    set q, t | q in qs && t in TextsOf(Observe(lib, Ipv6, q, profile)) :: t
  }

  function NamesOf(qs: set<Parameter>): set<string> { set q | q in qs :: q.name }

  /** What several address sources come to, whatever order they arrived in: invalid if any of them is, else the sorted
      union of their addresses, with their names sorted. */
  ghost function JoinOf(lib: Lib, profile: string, qs: set<Parameter>): TelemetryObservation
    requires qs != {}
  {
    var sources := SortedNames(NamesOf(qs));
    assert sources != [] by {
      var q :| q in qs;
      assert q.name in NamesOf(qs);
    }
    if |qs| == 1 then
      var q :| q in qs;
      Observe(lib, Ipv6, q, profile).(sources := [q.name])
    else if AnyInvalid(lib, profile, qs) then
      TelemetryObservation(Ipv6, Invalid, sources[0], None, false, Some(ConflictingValues), sources)
    else
      var values := SortedNames(AllTexts(lib, profile, qs));
      TelemetryObservation(Ipv6, if values != [] then Valid else Unavailable, sources[0],
                           if values != [] then Some(Labels(values)) else None, false,
                           if values != [] then None else Some(Empty), sources)
  }

  // ----- The loop computes the closed form -----

  lemma SortedIs(names: set<string>, list: seq<string>)
    requires Ascending(Self, list) && forall x :: x in list <==> x in names
    ensures list == SortedNames(names)
  {
    AscendingUnique(Self, list, SortedNames(names));
  }

  lemma {:induction false} OnceMembers(s: seq<string>)
    ensures DistinctBy(Self, Once(s)) && forall x :: x in Once(s) <==> x in s
  {
    if s != [] {
      OnceMembers(s[1..]);
      assert s == [s[0]] + s[1..];
    }
  }

  lemma SortedSetIs(s: seq<string>)
    ensures SortedSet(s) == SortedNames(SetOf(s))
  {
    OnceMembers(s);
    SortAscends(Self, Once(s));
    SortedIs(SetOf(s), SortedSet(s));
  }

  lemma SortExtends(names: set<string>, x: string)
    requires x !in names
    ensures SortBy(Self, SortedNames(names) + [x]) == SortedNames(names + {x})
  {
    var list := SortedNames(names) + [x];
    AscendingDistinct(Self, SortedNames(names));
    assert DistinctBy(Self, list) by {
      forall i, j | 0 <= i < j < |list| ensures Self(list[i]) != Self(list[j]) {
        if j < |list| - 1 { assert Self(SortedNames(names)[i]) != Self(SortedNames(names)[j]); }
            else { assert list[i] in SortedNames(names); }
      }
    }
    SortAscends(Self, list);
    SortedIs(names + {x}, SortBy(Self, list));
  }

  lemma Singleton(qs: set<Parameter>, q: Parameter)
    requires |qs| == 1 && q in qs
    ensures qs == {q}
  {
    assert |qs - {q}| == 0;
  }

  /** What a join says of its sources: their names, whether any was invalid, and all their addresses. */
  lemma JoinFacts(lib: Lib, profile: string, qs: set<Parameter>)
    requires qs != {}
    ensures var j := JoinOf(lib, profile, qs);
            && j.name.Ipv6? && j.sources == SortedNames(NamesOf(qs))
            && (j.state.Invalid? <==> AnyInvalid(lib, profile, qs))
            && (!AnyInvalid(lib, profile, qs) ==> SetOf(TextsOf(j)) == AllTexts(lib, profile, qs))
            && (j.state.Valid? <==> j.value.Some?) && (j.state.Valid? <==> j.reason.None?) && !j.state.Unverified?
            && j.sources != [] && j.source == j.sources[0] && Ascending(Self, TextsOf(j))
            && (j.state.Unavailable? ==> j.reason == Some(Empty))
            && (|qs| > 1 && j.state.Invalid? ==> j.reason == Some(ConflictingValues))
  {
    hide Observe, AllTexts, NamesOf;
    var q :| q in qs;
    Named(qs, q);
    if |qs| == 1 {
      Singleton(qs, q);
      ObserveShape(lib, Ipv6, q, profile);
      JoinOne(lib, profile, q);
      TextsGrow(lib, profile, {}, q);
      assert {} + {q} == qs;
      SortedIs(NamesOf(qs), [q.name]);
    }
  }

  lemma JoinOne(lib: Lib, profile: string, q: Parameter)
    ensures JoinOf(lib, profile, {q}) == Observe(lib, Ipv6, q, profile).(sources := [q.name])
    ensures AllTexts(lib, profile, {}) == {} && NamesOf({}) == {}
  {}

  lemma TextsGrow(lib: Lib, profile: string, qs: set<Parameter>, q: Parameter)
    ensures AllTexts(lib, profile, qs + {q})
            == AllTexts(lib, profile, qs) + SetOf(TextsOf(Observe(lib, Ipv6, q, profile)))
    ensures NamesOf(qs + {q}) == NamesOf(qs) + {q.name}
  {}

  lemma JoinMany(lib: Lib, profile: string, qs: set<Parameter>)
    requires |qs| > 1
    ensures var sources, values := SortedNames(NamesOf(qs)), SortedNames(AllTexts(lib, profile, qs));
            && sources != []
            && JoinOf(lib, profile, qs) ==
                 if AnyInvalid(lib, profile, qs) then
                   TelemetryObservation(Ipv6, Invalid, sources[0], None, false, Some(ConflictingValues), sources)
                 else
                   TelemetryObservation(Ipv6, if values != [] then Valid else Unavailable, sources[0],
                                        if values != [] then Some(Labels(values)) else None, false,
                                        if values != [] then None else Some(Empty), sources)
  {
    hide Observe, AllTexts, NamesOf, AnyInvalid;
    JoinFacts(lib, profile, qs);
  }

  /** Joining one more source to a join gives the join of all. */
  lemma JoinStep(lib: Lib, profile: string, qs: set<Parameter>, q: Parameter)
    requires qs != {} && q.name !in NamesOf(qs)
    ensures Joined(Some(JoinOf(lib, profile, qs)), Observe(lib, Ipv6, q, profile).(sources := [q.name]))
            == JoinOf(lib, profile, qs + {q})
  {
    hide Observe, AllTexts, NamesOf, AnyInvalid, JoinOf, TextsOf;
    var all, o := qs + {q}, Observe(lib, Ipv6, q, profile);
    ObserveShape(lib, Ipv6, q, profile);
    assert q !in qs by { Named(qs, q); }
    assert |all| == |qs| + 1;
    SizeOne(qs);
    JoinFacts(lib, profile, qs);
    TextsGrow(lib, profile, qs, q);
    SortExtends(NamesOf(qs), q.name);
    UnionIs(TextsOf(JoinOf(lib, profile, qs)), TextsOf(o));
    InvalidGrows(lib, profile, qs, q);
    JoinMany(lib, profile, all);
    SameTexts(o, [q.name]);
  }

  lemma SameTexts(o: TelemetryObservation, sources: seq<string>)
    ensures TextsOf(o.(sources := sources)) == TextsOf(o)
  {}

  lemma UnionIs(a: seq<string>, b: seq<string>)
    ensures SortedSet(a + b) == SortedNames(SetOf(a) + SetOf(b))
  {
    SortedSetIs(a + b);
    assert SetOf(a + b) == SetOf(a) + SetOf(b);
  }

  lemma SizeOne(qs: set<Parameter>)
    requires qs != {}
    ensures |qs| >= 1
  {}

  lemma Named(qs: set<Parameter>, q: Parameter)
    ensures q in qs ==> q.name in NamesOf(qs)
  {}

  lemma InvalidGrows(lib: Lib, profile: string, qs: set<Parameter>, q: Parameter)
    ensures AnyInvalid(lib, profile, qs + {q}) <==>
      AnyInvalid(lib, profile, qs) || Observe(lib, Ipv6, q, profile).state.Invalid?
  {}

  /** A field other than the address list has one name under a path. */
  lemma OneSource(path: string, scope: Scope, a: string, b: string)
    requires FieldName(path, a, scope).Some? && FieldName(path, a, scope) == FieldName(path, b, scope)
             && FieldName(path, a, scope) != Some(Ipv6)
    ensures a == b
  {}

  /** The field that a reply gives to a name, said without the loop. */
  ghost function FieldOf(lib: Lib, plan: Plan, ps: seq<Parameter>, n: nat,
                         name: TelemetryName): Option<TelemetryObservation>
    requires n <= |ps|
  {
    var qs := SourcesFor(plan, ps, n, name);
    if qs == {} then None
    else if name.Ipv6? then Some(JoinOf(lib, plan.profileId, qs))
    else
      var q :| q in qs;
      Some(Observe(lib, name, q, plan.profileId).(sources := [q.name]))
  }

  lemma {:induction false} PutFieldAt(fields: seq<TelemetryObservation>, o: TelemetryObservation, name: TelemetryName)
    ensures FieldAt(PutField(fields, o), name) == if name == o.name then Some(o) else FieldAt(fields, name)
  {
    if fields != [] && fields[0].name != o.name {
      PutFieldAt(fields[1..], o, name);
      assert ([fields[0]] + PutField(fields[1..], o))[1..] == PutField(fields[1..], o);
    } else if fields != [] {
      assert ([o] + fields[1..])[1..] == fields[1..];
    }
  }

  lemma SourcesGrow(plan: Plan, ps: seq<Parameter>, n: nat, name: TelemetryName)
    requires 0 < n <= |ps|
    ensures SourcesFor(plan, ps, n, name) ==
              SourcesFor(plan, ps, n - 1, name) + if FieldName(plan.path, ps[n - 1].name, plan.scope) == Some(name)
                  then {ps[n - 1]} else {}
  {}

  lemma SourcesFresh(plan: Plan, ps: seq<Parameter>, n: nat, name: TelemetryName)
    requires 0 < n <= |ps| && DistinctBy(ParameterName, ps)
    ensures ps[n - 1].name !in NamesOf(SourcesFor(plan, ps, n - 1, name))
  {}

  /** After any prefix of a reply with distinct names, every field is its closed form. */
  lemma {:induction false} CollectedClosed(lib: Lib, plan: Plan, ps: seq<Parameter>, n: nat, name: TelemetryName)
    requires n <= |ps| && DistinctBy(ParameterName, ps) && Collected(lib, plan, ps, n).Some?
    ensures FieldAt(Collected(lib, plan, ps, n).value, name) == FieldOf(lib, plan, ps, n, name)
  {
    hide FieldName, Observe, JoinOf, Joined, SourcesFor, NamesOf;
    if n == 0 {
      NoSources(plan, ps, name);
    } else {
      var q, before := ps[n - 1], Collected(lib, plan, ps, n - 1).value;
      var o := Seen(lib, plan, q).value;
      CollectedClosed(lib, plan, ps, n - 1, name);
      SourcesGrow(plan, ps, n, name);
      ObserveShape(lib, FieldName(plan.path, q.name, plan.scope).value, q, plan.profileId);
      JoinedName(FieldAt(before, o.name), o);
      PutFieldAt(before, Joined(FieldAt(before, o.name), o), name);
      if o.name == name {
        SourcesFresh(plan, ps, n, name);
        FieldStep(lib, plan, SourcesFor(plan, ps, n - 1, name), q, name, ps, n);
      } else {
        FieldSame(lib, plan, ps, n - 1, ps, n, name);
      }
    }
  }

  lemma NoSources(plan: Plan, ps: seq<Parameter>, name: TelemetryName)
    ensures SourcesFor(plan, ps, 0, name) == {}
  {}

  /** A field depends only on the set of its sources. */
  lemma FieldSame(lib: Lib, plan: Plan, ps: seq<Parameter>, n: nat, rs: seq<Parameter>, m: nat, name: TelemetryName)
    requires n <= |ps| && m <= |rs| && SourcesFor(plan, ps, n, name) == SourcesFor(plan, rs, m, name)
    ensures FieldOf(lib, plan, ps, n, name) == FieldOf(lib, plan, rs, m, name)
  {}

  lemma JoinedName(previous: Option<TelemetryObservation>, o: TelemetryObservation)
    ensures Joined(previous, o).name == o.name
  {}

  lemma FieldStep(lib: Lib, plan: Plan, qs: set<Parameter>, q: Parameter, name: TelemetryName, ps: seq<Parameter>,
                  n: nat)
    requires 0 < n <= |ps| && q == ps[n - 1] && FieldName(plan.path, q.name, plan.scope) == Some(name)
    requires qs == SourcesFor(plan, ps, n - 1, name) && q.name !in NamesOf(qs)
    requires SourcesFor(plan, ps, n, name) == qs + {q}
    ensures Some(Joined(FieldOf(lib, plan, ps, n - 1, name),
                        Observe(lib, name, q, plan.profileId).(sources := [q.name])))
            == FieldOf(lib, plan, ps, n, name)
  {
    hide Observe;
    ObserveShape(lib, name, q, plan.profileId);
    if name.Ipv6? {
      if qs == {} {
        assert qs + {q} == {q} && |{q}| == 1;
      } else {
        JoinStep(lib, plan.profileId, qs, q);
      }
    } else {
      forall x | x in qs + {q} ensures x == q {
        if x in qs {
          OneSource(plan.path, plan.scope, x.name, q.name);
          Named(qs, x);
        }
      }
    }
  }
}
