/** What a values reply is worth under the Huawei policy, parameter by parameter: the judgement that goes through plans,
    collections and sorted results comes to a condition on each reported parameter. */
module Verdicts {
  import opened Text
  import opened Domain
  import opened Policies
  import opened Jobs
  import opened Queue
  import opened Telemetry
  import opened TelemetryProofs
  import AnswerProofs
  import Replay
  import Huawei

  type EvidenceRule = (Reply, Plan, Kind, Time) -> Option<string>

  /** A value that a selection may keep. */
  predicate CleanText(lib: Lib, q: Parameter) { q.xsdType == "xsd:string" && Huawei.SafeText(lib, q.value, 256) }

  function Shown(q: Parameter): Item { Item(q.name, Some(q.value), None) }

  lemma {:induction false} ShownItems(ps: seq<Parameter>)
    requires DistinctBy(ParameterName, ps)
    ensures DistinctBy(ItemName, MapItems(ValueItem, ps))
    ensures forall item :: item in MapItems(ValueItem, ps) <==> exists q :: q in ps && item == Shown(q)
  {
    AnswerProofs.MappedDistinct(ParameterName, ValueItem, ps);
    forall item ensures item in MapItems(ValueItem, ps) <==> exists q :: q in ps && item == Shown(q) {
      AnswerProofs.MapItemsMembers(ValueItem, ps, item);
    }
  }

  /** Reading selected names succeeds exactly when the reply names them all and no others and every value is clean text;
      the result is then the reported values, one item a name, in ascending order. */
  lemma SelectedRead(lib: Lib, rule: EvidenceRule, ask: Ask, plan: Plan, rpcId: string, ps: seq<Parameter>, now: Time,
                     id: Id)
    requires DistinctBy(ParameterName, ps) && ask.kind.GetValues? && ask.requested != [] && plan.scope.DeviceInfo?
    requires forall n | n in plan.names :: n in Huawei.NAMES
    ensures var j := Judge(Huawei.HuaweiPolicy(lib, rule), ask, plan, ValuesReply(rpcId, ps), now, id);
            && j.Some? && j.value.inventory.None? && j.value.telemetry.None?
            && j.value.reason == (if NameSet(ps) != SetOf(plan.names) then Some(UnexpectedParameters)
                                  else if exists q :: q in ps && !CleanText(lib, q) then Some(InvalidValues)
                                  else None)
            && (j.value.reason.None? ==>
                  && Ascending(ItemName, j.value.items)
                  && forall item :: item in j.value.items <==> exists q :: q in ps && item == Shown(q))
  {
    hide Huawei.SafeText, MapItems, SortBy;
    if NameSet(ps) == SetOf(plan.names) {
      var kept := Huawei.Permitted(lib, ps, plan);
      forall q | q in ps ensures Huawei.Keepable(lib, plan, q) <==> CleanText(lib, q) {
        assert q.name in NameSet(ps);
      }
      if exists q :: q in ps && !CleanText(lib, q) {
        var q :| q in ps && !CleanText(lib, q);
        FewerKept(ps, kept, q);
      } else {
        assert forall x :: x in kept <==> x in ps;
        Replay.SameSize(ParameterName, kept, ps);
        ShownItems(kept);
        SortAscends(ItemName, MapItems(ValueItem, kept));
      }
    }
  }

  lemma FewerKept(ps: seq<Parameter>, kept: seq<Parameter>, q: Parameter)
    requires DistinctBy(ParameterName, ps) && DistinctBy(ParameterName, kept) && (forall x | x in kept :: x in ps)
             && q in ps && q !in kept
    ensures |kept| < |ps|
  {
    var a, b := set x | x in kept, set x | x in ps;
    Members(kept);
    Members(ps);
    assert q in b && q !in a && a <= b;
    Strictly(a, b, q);
  }

  lemma {:induction false} Members(ps: seq<Parameter>)
    requires DistinctBy(ParameterName, ps)
    ensures |set x | x in ps| == |ps|
  {
    if ps != [] {
      var n := |ps| - 1;
      Members(ps[..n]);
      assert forall i | 0 <= i < n :: ParameterName(ps[i]) != ParameterName(ps[n]);
      assert ps == ps[..n] + [ps[n]];
      assert (set x | x in ps) == (set x | x in ps[..n]) + {ps[n]};
    }
  }

  lemma Strictly(a: set<Parameter>, b: set<Parameter>, q: Parameter)
    requires a <= b && q in b && q !in a
    ensures |a| < |b|
  {
    assert b == a + (b - a) && q in b - a;
  }

  // ----- Telemetry reads -----

  /** The observation of one reported parameter on its own. */
  function Alone(lib: Lib, plan: Plan, q: Parameter): Option<TelemetryObservation> {
    match FieldName(plan.path, q.name, plan.scope)
    case None => None
    case Some(name) => Some(Observe(lib, name, q, plan.profileId))
  }

  ghost predicate SomeAlone(lib: Lib, plan: Plan, ps: seq<Parameter>, s: TelemetryState) {
    exists q :: q in ps && Alone(lib, plan, q).Some? && Alone(lib, plan, q).value.state == s
  }

  /** Some field is invalid, or unverified, exactly when some parameter is so on its own: joining the addresses neither
      hides nor invents one. */
  lemma StatesAlone(lib: Lib, plan: Plan, ps: seq<Parameter>, s: TelemetryState)
    requires DistinctBy(ParameterName, ps) && Collected(lib, plan, ps, |ps|).Some? && s in {Invalid, Unverified}
    ensures (exists f :: f in Collected(lib, plan, ps, |ps|).value && f.state == s) <==> SomeAlone(lib, plan, ps, s)
  {
    hide FieldName, Observe, JoinOf, FieldOf, SourcesFor, Collected;
    var fields := Collected(lib, plan, ps, |ps|).value;
    CollectedDistinct(lib, plan, ps, |ps|);
    if f :| f in fields && f.state == s {
      FieldIn(lib, plan, ps, f);
      FieldAlone(lib, plan, ps, f.name, s);
    }
    if SomeAlone(lib, plan, ps, s) {
      var q :| q in ps && Alone(lib, plan, q).Some? && Alone(lib, plan, q).value.state == s;
      var name := FieldName(plan.path, q.name, plan.scope).value;
      HasField(lib, plan, ps, q, name);
      AloneField(lib, plan, ps, q, name, s);
      CollectedClosed(lib, plan, ps, |ps|, name);
      ListedField(fields, name);
    }
  }

  lemma FieldAlone(lib: Lib, plan: Plan, ps: seq<Parameter>, name: TelemetryName, s: TelemetryState)
    requires FieldOf(lib, plan, ps, |ps|, name).Some? && FieldOf(lib, plan, ps, |ps|, name).value.state == s
             && s in {Invalid, Unverified}
    ensures SomeAlone(lib, plan, ps, s)
  {
    hide FieldName, Observe, JoinOf, SourcesFor;
    var qs := SourcesFor(plan, ps, |ps|, name);
    SourceNames(plan, ps, name);
    if name.Ipv6? {
      JoinFacts(lib, plan.profileId, qs);
      var q :| q in qs && Observe(lib, Ipv6, q, plan.profileId).state.Invalid?;
      assert Alone(lib, plan, q).value.state == s;
    } else {
      var q :| q in qs && FieldOf(lib, plan, ps, |ps|, name)
          == Some(Observe(lib, name, q, plan.profileId).(sources := [q.name]));
      assert Alone(lib, plan, q).value.state == s;
    }
  }

  lemma AloneField(lib: Lib, plan: Plan, ps: seq<Parameter>, q: Parameter, name: TelemetryName, s: TelemetryState)
    requires DistinctBy(ParameterName, ps) && q in ps && FieldName(plan.path, q.name, plan.scope) == Some(name)
    requires Observe(lib, name, q, plan.profileId).state == s && s in {Invalid, Unverified}
             && FieldOf(lib, plan, ps, |ps|, name).Some?
    ensures FieldOf(lib, plan, ps, |ps|, name).value.state == s
  {
    hide FieldName, Observe, JoinOf;
    var qs := SourcesFor(plan, ps, |ps|, name);
    assert q in qs;
    ObserveShape(lib, name, q, plan.profileId);
    if name.Ipv6? {
      JoinFacts(lib, plan.profileId, qs);
    } else {
      forall x | x in qs ensures x == q {
        OneSource(plan.path, plan.scope, x.name, q.name);
        OneNamed(ps, x, q);
      }
    }
  }

  /** The reply shows an Internet connection over PPPoE. */
  ghost predicate ShowsInternet(lib: Lib, plan: Plan, ps: seq<Parameter>) {
    && (exists q ::
          q in ps && FieldName(plan.path, q.name, plan.scope) == Some(ServiceList)
          && "INTERNET" in TextsOf(Observe(lib, ServiceList, q, plan.profileId)))
    && (exists q ::
          q in ps && FieldName(plan.path, q.name, plan.scope) == Some(TransportType)
          && Observe(lib, TransportType, q, plan.profileId).value == Some(Label("PPPoE")))
  }

  lemma FieldFrom(lib: Lib, plan: Plan, ps: seq<Parameter>, name: TelemetryName)
    requires DistinctBy(ParameterName, ps) && !name.Ipv6? && Collected(lib, plan, ps, |ps|).Some?
    ensures forall q | q in ps && FieldName(plan.path, q.name, plan.scope) == Some(name) ::
              FieldAt(Collected(lib, plan, ps, |ps|).value, name)
                  == Some(Observe(lib, name, q, plan.profileId).(sources := [q.name]))
    ensures FieldAt(Collected(lib, plan, ps, |ps|).value, name).Some? ==>
              exists q :: q in ps && FieldName(plan.path, q.name, plan.scope) == Some(name)
  {
    hide FieldName, Observe, JoinOf, Collected;
    CollectedClosed(lib, plan, ps, |ps|, name);
    var qs := SourcesFor(plan, ps, |ps|, name);
    SourceNames(plan, ps, name);
    forall q | q in ps && FieldName(plan.path, q.name, plan.scope) == Some(name) ensures q in qs
        && forall x | x in qs :: x == q {
      forall x | x in qs ensures x == q {
        OneSource(plan.path, plan.scope, x.name, q.name);
        OneNamed(ps, x, q);
      }
    }
  }

  lemma InternetAlone(lib: Lib, plan: Plan, ps: seq<Parameter>)
    requires DistinctBy(ParameterName, ps) && Collected(lib, plan, ps, |ps|).Some?
    ensures InternetPppoe(Collected(lib, plan, ps, |ps|).value) <==> ShowsInternet(lib, plan, ps)
  {
    hide FieldName, Observe, Collected;
    FieldFrom(lib, plan, ps, ServiceList);
    FieldFrom(lib, plan, ps, TransportType);
  }

  /** A telemetry read is judged parameter by parameter: refused when it is not an Internet connection over PPPoE,
      invalid when any parameter is, unverified when any power is, and good otherwise. */
  lemma TelemetryRead(lib: Lib, rule: EvidenceRule, ask: Ask, plan: Plan, rpcId: string, ps: seq<Parameter>, now: Time,
                      id: Id)
    requires DistinctBy(ParameterName, ps) && ask.kind.GetValues? && Measured(plan.scope)
    requires forall n | n in plan.names :: FieldName(plan.path, n, plan.scope).Some?
    ensures var j := Judge(Huawei.HuaweiPolicy(lib, rule), ask, plan, ValuesReply(rpcId, ps), now, id);
            && j.Some?
            && j.value.reason == (if NameSet(ps) != SetOf(plan.names) then Some(UnexpectedParameters)
                                  else if plan.scope.Wan? && !ShowsInternet(lib, plan, ps) then Some(NotInternetPppoe)
                                  else if SomeAlone(lib, plan, ps, Invalid) then Some(InvalidValues)
                                  else if SomeAlone(lib, plan, ps, Unverified) then Some(UnverifiedUnits)
                                  else None)
  {
    hide FieldName, Observe, Collected, InternetPppoe, ShowsInternet, SomeAlone, SortBy, ResultItem;
    if NameSet(ps) == SetOf(plan.names) {
      forall q | q in ps ensures FieldName(plan.path, q.name, plan.scope).Some? {
        assert q.name in NameSet(ps) && q.name in SetOf(plan.names);
      }
      CollectedSome(lib, plan, ps, |ps|);
      assert forall i | 0 <= i < |ps| :: ps[i] in ps;
      StatesAlone(lib, plan, ps, Invalid);
      StatesAlone(lib, plan, ps, Unverified);
      InternetAlone(lib, plan, ps);
    }
  }
}
