/** What the other replies are worth under the Huawei policy, and the results they leave: the default read of the basic
    inventory, a read of names, and the items of a telemetry read, each said of the parameters themselves. */
module ReadResults {
  import opened Text
  import opened Domain
  import opened Policies
  import opened Jobs
  import opened Queue
  import opened Telemetry
  import opened TelemetryProofs
  import opened Verdicts
  import FieldNames
  import AnswerProofs
  import Huawei

  // ----- The basic inventory -----

  /** Text that an inventory may hold: some characters besides white space, at most 256, no control character. */
  predicate ClearText(s: string) {
    Strip(s) != "" && |s| <= 256 && forall c | c in s :: 32 as char <= c && c != 127 as char
  }

  lemma FaultlessIsClear(s: string)
    ensures Huawei.TextFault(s).None? <==> ClearText(s)
  {
    hide Strip;
  }

  /** The field of a reply that has one report of it. */
  lemma OneReport(ps: seq<Parameter>, suffix: string, q: Parameter)
    requires q in ps && Huawei.Reports(suffix, q) && forall x | x in ps && Huawei.Reports(suffix, x) :: x == q
    ensures var t := Huawei.TextOf(ps, suffix);
            && (t.ValidText? <==> ClearText(q.value)) && (t.ValidText? ==> t == ValidText(Strip(q.value), q.name))
            && !t.NotReported?
  {
    hide Strip, ClearText;
    FaultlessIsClear(q.value);
    var candidates := SortBy(Huawei.CandidateKey(suffix), Huawei.Reporting(suffix, ps));
    SortMembers(Huawei.CandidateKey(suffix), Huawei.Reporting(suffix, ps));
    assert q in candidates && forall x | x in candidates :: x == q;
    Huawei.NoFault(candidates);
    assert candidates[0] in candidates;
  }

  /** The parameter of a name. */
  predicate Named(ps: seq<Parameter>, name: string, q: Parameter) { q in ps && q.name == name }

  const MODEL := DEVICE_INFO + "ModelName"
  const SOFTWARE := DEVICE_INFO + "SoftwareVersion"
  const HARDWARE := DEVICE_INFO + "HardwareVersion"

  predicate Basic(ps: seq<Parameter>) { NameSet(ps) == {MODEL, SOFTWARE, HARDWARE} }

  lemma BasicNames()
    ensures Huawei.NAMES == [MODEL, SOFTWARE, HARDWARE] && SetOf(Huawei.NAMES) == {MODEL, SOFTWARE, HARDWARE}
  {
    hide DEVICE_INFO;
  }

  lemma ReportedOnce(ps: seq<Parameter>, suffix: string, q: Parameter)
    requires DistinctBy(ParameterName, ps) && Basic(ps) && Named(ps, DEVICE_INFO + suffix, q)
    ensures forall x | x in ps && Huawei.Reports(suffix, x) :: x == q
  {
    forall x | x in ps && Huawei.Reports(suffix, x) ensures x == q {
      assert x.name in NameSet(ps);
      assert MODEL[0] == 'I' && SOFTWARE[0] == 'I' && HARDWARE[0] == 'I';
      assert x.name == DEVICE_INFO + suffix by { assert ("Device.DeviceInfo." + suffix)[0] == 'D'; }
      OneNamed(ps, x, q);
    }
  }

  /** What the default read shows of one name: its text without surrounding white space, or nothing if it is not
      clear. */
  function TextItem(q: Parameter): Item {
    Item(q.name, if ClearText(q.value) then Some(Strip(q.value)) else None, None)
  }

  ghost predicate ObservesText(o: TextObservation, q: Parameter) {
    (o.ValidText? <==> ClearText(q.value)) && (o.ValidText? ==> o == ValidText(Strip(q.value), q.name))
        && !o.NotReported?
  }

  lemma FieldObserved(ps: seq<Parameter>, suffix: string, name: string)
    requires DistinctBy(ParameterName, ps) && Basic(ps) && name == DEVICE_INFO + suffix && name in NameSet(ps)
    ensures exists q :: Named(ps, name, q) && ObservesText(Huawei.TextOf(ps, suffix), q)
  {
    hide Huawei.TextOf, ClearText, Strip;
    var q :| q in ps && q.name == name;
    ReportedOnce(ps, suffix, q);
    OneReport(ps, suffix, q);
    assert Named(ps, name, q);
  }

  /** The inventory that a default read observes: each of its three fields from the parameter of that field's own
      name. */
  ghost predicate ObservesInventory(inv: Inventory, ps: seq<Parameter>, now: Time, id: Id) {
    && (exists q :: Named(ps, MODEL, q) && ObservesText(inv.model, q))
    && (exists q :: Named(ps, SOFTWARE, q) && ObservesText(inv.firmware, q))
    && (exists q :: Named(ps, HARDWARE, q) && ObservesText(inv.hardware, q))
    && inv.receivedAt == now && inv.via.GetParameterValues? && inv.operation == Some(id)
  }

  lemma InventoryObserved(ps: seq<Parameter>, plan: Plan, now: Time, id: Id)
    requires DistinctBy(ParameterName, ps) && Basic(ps)
    ensures ObservesInventory(Huawei.Normalize(ps, plan, now, id), ps, now, id)
  {
    hide Huawei.TextOf, ObservesText;
    FieldObserved(ps, "ModelName", MODEL);
    FieldObserved(ps, "SoftwareVersion", SOFTWARE);
    FieldObserved(ps, "HardwareVersion", HARDWARE);
  }

  lemma ItemOf(ps: seq<Parameter>, name: string, o: TextObservation)
    requires DistinctBy(ParameterName, ps) && exists q :: Named(ps, name, q) && ObservesText(o, q)
    ensures exists q :: Named(ps, name, q)
    ensures forall q | Named(ps, name, q) ::
      TextItem(q) == Item(name, ObservationValue(o), None) && (o.ValidText? <==> ClearText(q.value))
  {
    hide ClearText, Strip;
    var q :| Named(ps, name, q) && ObservesText(o, q);
    forall x | Named(ps, name, x) ensures x == q { OneNamed(ps, x, q); }
  }

  /** The reply still shows the firmware of the plan's device, and its product class if it shows a model at all. */
  predicate StillOwn(ps: seq<Parameter>, target: Target) {
    && (exists q :: q in ps && q.name == SOFTWARE && ClearText(q.value) && Some(Strip(q.value)) == target.firmware)
    && (forall q | q in ps && q.name == MODEL && ClearText(q.value) :: Strip(q.value) == target.productClass)
  }

  /** The inventory is that of the reviewed profile exactly while the device shows the firmware and class of the plan,
      and else that of the generic profile. */
  lemma ProfileNoted(ps: seq<Parameter>, plan: Plan, now: Time, id: Id)
    requires DistinctBy(ParameterName, ps) && Basic(ps)
    ensures var inv := Huawei.Normalize(ps, plan, now, id);
            && inv.profileId == (if StillOwn(ps, plan.target) then plan.profileId else "generic-device-info")
            && inv.profileVersion == (if StillOwn(ps, plan.target) then plan.profileVersion else "1")
  {
    hide Huawei.TextOf, ClearText, Strip;
    FieldObserved(ps, "ModelName", MODEL);
    FieldObserved(ps, "SoftwareVersion", SOFTWARE);
    var m :| Named(ps, MODEL, m) && ObservesText(Huawei.TextOf(ps, "ModelName"), m);
    var f :| Named(ps, SOFTWARE, f) && ObservesText(Huawei.TextOf(ps, "SoftwareVersion"), f);
    forall x | Named(ps, MODEL, x) ensures x == m { OneNamed(ps, x, m); }
    forall x | Named(ps, SOFTWARE, x) ensures x == f { OneNamed(ps, x, f); }
  }

  /** The default read succeeds exactly when the reply names the three fields and no others, every value is a string and
      each is clear text; once it names them as strings, the result has one item a name, its text or nothing, and the
      inventory is observed field by field, valid or not. */
  lemma InventoryRead(lib: Lib, rule: EvidenceRule, ask: Ask, plan: Plan, rpcId: string, ps: seq<Parameter>, now: Time,
                      id: Id)
    requires DistinctBy(ParameterName, ps) && ask.kind.GetValues? && ask.requested == [] && plan.scope.DeviceInfo?
             && plan.names == Huawei.NAMES
    ensures var j := Judge(Huawei.HuaweiPolicy(lib, rule), ask, plan, ValuesReply(rpcId, ps), now, id);
            && j.Some? && j.value.telemetry.None?
            && j.value.reason == (if !Basic(ps) then Some(UnexpectedParameters)
                                  else if exists q :: q in ps && (q.xsdType != "xsd:string" || !ClearText(q.value))
                                      then Some(InvalidValues)
                                  else None)
            && (if Basic(ps) && forall q | q in ps :: q.xsdType == "xsd:string" then
                  && Ascending(ItemName, j.value.items)
                  && (forall item :: item in j.value.items <==> exists q :: q in ps && item == TextItem(q))
                  && j.value.inventory == Some(Huawei.Normalize(ps, plan, now, id))
                  && ObservesInventory(Huawei.Normalize(ps, plan, now, id), ps, now, id)
                else j.value.items == [] && j.value.inventory.None?)
  {
    hide Huawei.Normalize, ObservesText, Strip, ClearText, TextItem, SortBy;
    BasicNames();
    if Basic(ps) && forall q | q in ps :: q.xsdType == "xsd:string" {
      InventoryObserved(ps, plan, now, id);
      BasicItems(ps, Huawei.Normalize(ps, plan, now, id), now, id);
      var inv := Huawei.Normalize(ps, plan, now, id);
      assert BasicList(inv) == seq(3, i requires 0 <= i < 3 =>
          Item(plan.names[i], ObservationValue([inv.model, inv.firmware, inv.hardware][i]), None));
    }
  }

  function BasicList(inv: Inventory): seq<Item> {
    [Item(MODEL, ObservationValue(inv.model), None), Item(SOFTWARE, ObservationValue(inv.firmware), None),
     Item(HARDWARE, ObservationValue(inv.hardware), None)]
  }

  lemma BasicItems(ps: seq<Parameter>, inv: Inventory, now: Time, id: Id)
    requires DistinctBy(ParameterName, ps) && Basic(ps) && ObservesInventory(inv, ps, now, id)
    ensures var items := SortBy(ItemName, BasicList(inv));
            Ascending(ItemName, items) && forall item :: item in items <==> exists q :: q in ps && item == TextItem(q)
    ensures (inv.model.ValidText? && inv.firmware.ValidText? && inv.hardware.ValidText?) <==>
      forall q | q in ps :: ClearText(q.value)
  {
    hide ObservesText, TextItem, ClearText, SortBy, DistinctBy;
    ItemOf(ps, MODEL, inv.model);
    ItemOf(ps, SOFTWARE, inv.firmware);
    ItemOf(ps, HARDWARE, inv.hardware);
    var list := BasicList(inv);
    ListDistinct(inv);
    SortMembers(ItemName, list);
    SortAscends(ItemName, list);
    forall q | q in ps ensures Named(ps, MODEL, q) || Named(ps, SOFTWARE, q) || Named(ps, HARDWARE, q) {
      assert q.name in NameSet(ps);
    }
    ListMembers(inv);
  }

  lemma ListMembers(inv: Inventory)
    ensures forall item :: item in BasicList(inv) <==>
      || item == Item(MODEL, ObservationValue(inv.model), None)
      || item == Item(SOFTWARE, ObservationValue(inv.firmware), None)
      || item == Item(HARDWARE, ObservationValue(inv.hardware), None)
  {}

  lemma ListDistinct(inv: Inventory)
    ensures DistinctBy(ItemName, BasicList(inv))
  {
    NamesApart();
  }

  lemma NamesApart()
    ensures MODEL != SOFTWARE && SOFTWARE != HARDWARE && MODEL != HARDWARE
  {
    assert MODEL[33] == 'M' && SOFTWARE[33] == 'S' && HARDWARE[33] == 'H';
  }

  // ----- Fields with two paths -----

  /** Why a text is not clear; the first of these that applies. */
  predicate FaultIs(s: string, reason: InvalidReason) {
    match reason
    case ControlCharacter => exists c :: c in s && (c < 32 as char || c == 127 as char)
    case EmptyText => Strip(s) == "" && forall c | c in s :: 32 as char <= c && c != 127 as char
    case TooLong => Strip(s) != "" && |s| > 256 && forall c | c in s :: 32 as char <= c && c != 127 as char
    case ConflictingText => false
  }

  lemma FaultExactly(s: string, reason: InvalidReason)
    ensures Huawei.TextFault(s) == Some(reason) <==> FaultIs(s, reason)
    ensures Huawei.TextFault(s).None? <==> ClearText(s)
  {
    hide Strip;
  }

  /** A report of a field under the path of the newer data model, and one under that of the older. */
  predicate Under(ps: seq<Parameter>, path: string, suffix: string, q: Parameter) { q in ps && q.name == path + suffix }

  const NEWER := "Device.DeviceInfo."
  const OLDER := "InternetGatewayDevice.DeviceInfo."

  predicate InTurn(suffix: string, a: Parameter, b: Parameter) { a.name == NEWER + suffix && b.name == OLDER + suffix }

  /** What one field of a reply is observed as, from its reports in their fixed order. */
  ghost predicate FieldIs(cs: seq<Parameter>, t: TextObservation) {
    && (t.NotReported? <==> cs == [])
    && (forall k | 0 <= k < |cs| && !ClearText(cs[k].value) && (forall i | 0 <= i < k :: ClearText(cs[i].value)) ::
          t.InvalidText? && t.source == Some(cs[k].name) && FaultIs(cs[k].value, t.reason))
    && (cs != [] && (forall k | 0 <= k < |cs| :: ClearText(cs[k].value)) ==>
          if forall k | 0 <= k < |cs| :: Strip(cs[k].value) == Strip(cs[0].value)
          then t == ValidText(Strip(cs[0].value), cs[0].name)
          else t == InvalidText(None, ConflictingText))
  }

  lemma {:induction false} FaultFound(cs: seq<Parameter>, k: nat)
    requires k < |cs| && !ClearText(cs[k].value) && forall i | 0 <= i < k :: ClearText(cs[i].value)
    ensures var t := Huawei.FirstFault(cs);
            t.Some? && t.value.InvalidText? && t.value.source == Some(cs[k].name)
                && FaultIs(cs[k].value, t.value.reason)
  {
    hide ClearText, FaultIs, Huawei.TextFault;
    forall reason ensures Huawei.TextFault(cs[0].value) == Some(reason) <==> FaultIs(cs[0].value, reason) {
      FaultExactly(cs[0].value, reason);
    }
    FaultExactly(cs[0].value, EmptyText);
    if k > 0 { FaultFound(cs[1..], k - 1); }
  }

  lemma JudgedIs(cs: seq<Parameter>)
    ensures FieldIs(cs, Huawei.Judged(cs))
  {
    hide ClearText, FaultIs, Huawei.TextFault, Strip;
    Huawei.NoFault(cs);
    forall q | q in cs ensures Huawei.TextFault(q.value).None? <==>
          ClearText(q.value) { FaultExactly(q.value, EmptyText); }
    forall k | 0 <= k < |cs| && !ClearText(cs[k].value) && (forall i | 0 <= i < k :: ClearText(cs[i].value))
      ensures Huawei.Judged(cs).InvalidText? && Huawei.Judged(cs).source == Some(cs[k].name)
              && FaultIs(cs[k].value, Huawei.Judged(cs).reason)
    {
      FaultFound(cs, k);
    }
    assert forall k | 0 <= k < |cs| :: cs[k] in cs;
  }

  /** With distinct names a field has at most two reports, and that of the newer path comes first. */
  lemma FieldExactly(ps: seq<Parameter>, suffix: string)
    requires DistinctBy(ParameterName, ps)
    ensures exists cs: seq<Parameter> ::
      && FieldIs(cs, Huawei.TextOf(ps, suffix)) && |cs| <= 2
      && (forall q :: q in cs <==> Under(ps, NEWER, suffix, q) || Under(ps, OLDER, suffix, q))
      && (forall i, j | 0 <= i < j < |cs| :: InTurn(suffix, cs[i], cs[j]))
  {
    hide FieldIs;
    var reports, key := Huawei.Reporting(suffix, ps), Huawei.CandidateKey(suffix);
    var cs := SortBy(key, reports);
    Huawei.CandidatesDistinct(suffix, ps);
    SortMembers(key, reports);
    SortAscends(key, reports);
    JudgedIs(cs);
    forall i, j | 0 <= i < j < |cs| ensures InTurn(suffix, cs[i], cs[j]) {
      assert cs[i] in cs && cs[j] in cs;
      Ordered(ps, suffix, cs[i], cs[j]);
    }
    AtMostTwo(cs, suffix);
  }

  lemma AtMostTwo(cs: seq<Parameter>, suffix: string)
    requires forall i, j | 0 <= i < j < |cs| :: InTurn(suffix, cs[i], cs[j])
    ensures |cs| <= 2
  {
    NeverSame(suffix);
    assert |cs| > 2 ==> InTurn(suffix, cs[0], cs[1]) && InTurn(suffix, cs[1], cs[2]);
  }

  lemma NeverSame(suffix: string)
    ensures NEWER + suffix != OLDER + suffix
  {
    assert (NEWER + suffix)[0] == 'D' && (OLDER + suffix)[0] == 'I';
  }

  lemma Ordered(ps: seq<Parameter>, suffix: string, a: Parameter, b: Parameter)
    requires DistinctBy(ParameterName, ps) && a in ps && b in ps && Huawei.Reports(suffix, a)
             && Huawei.Reports(suffix, b)
    requires Less(Huawei.CandidateKey(suffix)(a), Huawei.CandidateKey(suffix)(b))
    ensures a.name == NEWER + suffix && b.name == OLDER + suffix
  {
    NeverSame(suffix);
    var key := Huawei.CandidateKey(suffix);
    if a.name == b.name {
      OneNamed(ps, a, b);
      LessIrreflexive(key(a));
    } else {
      assert key(a)[0] == (if a.name == NEWER + suffix then '0' else '1');
      assert key(b)[0] == (if b.name == NEWER + suffix then '0' else '1');
    }
  }

  // ----- Names -----

  /** A reply of another kind than what was asked is not judged; a fault fails the operation and leaves nothing. */
  lemma OtherReplies(lib: Lib, rule: EvidenceRule, ask: Ask, plan: Plan, reply: Reply, now: Time, id: Id)
    requires plan.scope.DeviceInfo? && ask.requested == [] ==> |plan.names| == 3
    requires !plan.scope.DeviceInfo? && ask.kind.GetValues? ==> Measured(plan.scope)
    ensures var j := Judge(Huawei.HuaweiPolicy(lib, rule), ask, plan, reply, now, id);
            && (j.None? ==> (reply.ValuesReply? && ask.kind.GetNames?) || (reply.NamesReply? && ask.kind.GetValues?))
            && ((reply.ValuesReply? && ask.kind.GetNames?) || (reply.NamesReply? && ask.kind.GetValues?) ==> j.None?)
            && (reply.FaultReply? ==> j == Some(Verdict(Some(CpeFault), [], None, None)))
  {
    hide JudgeTelemetry, JudgeNames, Huawei.Permitted, MapItems, SortBy, Huawei.Normalize;
  }

  /** The last segments that a discovery result keeps of leaves. */
  predicate KnownField(segment: string) {
    segment in {"ExternalIPAddress", "MACAddress", "DNSServers", "ConnectionStatus", "ConnectionType", "TransportType",
                "X_HW_SERVICELIST", "X_HW_IPv6Address", "X_HW_IPv6Prefix", "X_HW_IPv6Enable", "RXPower", "TXPower",
                "RxPower", "TxPower", "ReceivePower", "TransmitPower", "IPAddress", "Origin", "Prefix",
                    "AddressingType",
                "Enable"}
  }

  /** Which reported names a result keeps: of basic information those asked for, of a discovery the concrete objects and
      the leaves that end in a known segment. */
  ghost predicate ApprovedName(plan: Plan, n: string) {
    if plan.scope.DeviceInfo? then n in plan.names
    else Concrete(n) || exists segment :: KnownField(segment) && FieldNames.EndsIn(n, segment)
  }

  lemma KnownHasNoDot(segment: string)
    ensures KnownField(segment) <==> segment in Huawei.DISCOVERY_FIELDS
    ensures KnownField(segment) ==> '.' !in segment
  {}

  lemma ListedExactly(plan: Plan, i: Info)
    ensures Huawei.Listed(plan, i) <==> ApprovedName(plan, i.name)
  {
    hide Concrete, KnownField, Split, Huawei.DISCOVERY_FIELDS, FieldNames.EndsIn;
    var last := Split(i.name, '.')[|Split(i.name, '.')| - 1];
    KnownHasNoDot(last);
    if KnownField(last) { FieldNames.LastPart(i.name, last); }
    if segment :| KnownField(segment) && FieldNames.EndsIn(i.name, segment) {
      KnownHasNoDot(segment);
      FieldNames.LastPart(i.name, segment);
    }
  }

  /** A read of names succeeds exactly when every name is reported under the path; its result has an item for every name
      that is an object or of a known kind, and no other. */
  lemma NamesRead(lib: Lib, rule: EvidenceRule, ask: Ask, plan: Plan, rpcId: string, names: seq<Info>, now: Time,
                  id: Id)
    requires DistinctBy(InfoName, names) && ask.kind.GetNames?
    ensures var j := Judge(Huawei.HuaweiPolicy(lib, rule), ask, plan, NamesReply(rpcId, names), now, id);
            && j.Some? && j.value.inventory.None? && j.value.telemetry.None?
            && j.value.reason == (if exists i :: i in names && !ReportedUnder(plan.path, i.name)
                                  then Some(UnexpectedParameters) else None)
            && (j.value.reason.Some? ==> j.value.items == [])
            && (j.value.reason.None? ==>
                  && Ascending(ItemName, j.value.items)
                  && forall item :: item in j.value.items <==>
                       exists i ::
                         i in names && ApprovedName(plan, i.name) && item == Item(i.name, None, Some(i.writable)))
  {
    hide ReportedUnder, Huawei.Listed, SortBy, ApprovedName;
    forall i ensures Huawei.Listed(plan, i) <==> ApprovedName(plan, i.name) { ListedExactly(plan, i); }
    var kept := Huawei.KeptNames(names, plan);
    AnswerProofs.MappedDistinct(InfoName, NameItem, kept);
    SortAscends(ItemName, MapItems(NameItem, kept));
    forall item ensures item in MapItems(NameItem, kept) <==> exists i :: i in kept && item == NameItem(i) {
      AnswerProofs.MapItemsMembers(NameItem, kept, item);
    }
  }

  // ----- Telemetry -----

  /** The item of one parameter: of the optics its text unless invalid or empty, of a WAN its value unless it has
      none. */
  function Reading(lib: Lib, plan: Plan, q: Parameter): Item {
    var o := Alone(lib, plan, q);
    Item(q.name,
         if o.None? then None
         else if plan.scope.Optical? then
           if o.value.state.Valid? || o.value.state.Unverified? then Some(Strip(q.value)) else None
         else if o.value.state.Valid? && o.value.value.Some? then Written(o.value.value.value)
         else None,
         None)
  }

  lemma ItemReads(lib: Lib, plan: Plan, ps: seq<Parameter>, q: Parameter)
    requires Measured(plan.scope) && DistinctBy(ParameterName, ps) && q in ps && Collected(lib, plan, ps, |ps|).Some?
    ensures ResultItem(lib, plan, Collected(lib, plan, ps, |ps|).value, q) == Reading(lib, plan, q)
  {
    hide FieldName, Observe, Collected, StateOf, Strip, Written;
    if plan.scope.Optical? { OpticalState(lib, plan, ps, q); }
    var name := FieldName(plan.path, q.name, plan.scope);
    if name.Some? { ObserveShape(lib, name.value, q, plan.profileId); }
  }

  /** A telemetry read that is judged by its values has one item a parameter, that of its own reading. */
  lemma TelemetryItems(lib: Lib, rule: EvidenceRule, ask: Ask, plan: Plan, rpcId: string, ps: seq<Parameter>, now: Time,
                       id: Id)
    requires DistinctBy(ParameterName, ps) && ask.kind.GetValues? && Measured(plan.scope)
    requires forall n | n in plan.names :: FieldName(plan.path, n, plan.scope).Some?
    ensures var j := Judge(Huawei.HuaweiPolicy(lib, rule), ask, plan, ValuesReply(rpcId, ps), now, id);
            && j.Some? && j.value.inventory.None?
            && (if j.value.reason in {Some(UnexpectedParameters), Some(NotInternetPppoe)} then
                  j.value.items == [] && j.value.telemetry.None?
                else
                  && Ascending(ItemName, j.value.items)
                  && (forall item :: item in j.value.items <==> exists q :: q in ps && item == Reading(lib, plan, q))
                  && j.value.telemetry == Collect(lib, ps, plan, now, id) && j.value.telemetry.Some?)
  {
    hide FieldName, Observe, Collected, InternetPppoe, SortBy, ResultItem, Reading, SomeField;
    if NameSet(ps) == SetOf(plan.names) && Collect(lib, ps, plan, now, id).Some? {
      var c := Collect(lib, ps, plan, now, id).value;
      var items := ResultItems(lib, ps, plan, c);
      MapsOver(lib, ps, plan, c);
      SortMembers(ItemName, items);
      SortAscends(ItemName, items);
      forall item ensures item in items <==> exists q :: q in ps && item == Reading(lib, plan, q) {
        if q :| q in ps && item == Reading(lib, plan, q) {
          ItemReads(lib, plan, ps, q);
          var k :| 0 <= k < |ps| && ps[k] == q;
          assert items[k] == item;
        }
        if item in items {
          var k :| 0 <= k < |items| && items[k] == item;
          ItemReads(lib, plan, ps, ps[k]);
        }
      }
    }
  }
}
