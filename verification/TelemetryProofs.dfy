/** What a telemetry collection promises: it does not depend on the order of the reply, and it always
    satisfies what the observation table checks. */
module TelemetryProofs {
  import opened Text
  import opened Domain
  import opened Policies
  import opened Registers
  import opened Telemetry

  // ----- The fields of a collection -----

  /** The loop that fills the fields, one parameter of the reply at a time. */
  method CollectFields(lib: Lib, plan: Plan, ps: seq<Parameter>) returns (fields: Option<seq<TelemetryObservation>>)
    requires DistinctBy(ParameterName, ps)
    ensures fields == Collected(lib, plan, ps, |ps|)
    ensures fields.Some? <==> forall q | q in ps :: FieldName(plan.path, q.name, plan.scope).Some?
    ensures fields.Some? ==> forall name :: FieldAt(fields.value, name) == FieldOf(lib, plan, ps, |ps|, name)
  {
    hide FieldName, Observe, JoinOf, SourcesFor, FieldOf, Joined, PutField;
    CollectedSome(lib, plan, ps, |ps|);
    var found: seq<TelemetryObservation> := [];
    for i := 0 to |ps|
      invariant Collected(lib, plan, ps, i) == Some(found)
    {
      match Seen(lib, plan, ps[i])
      case None =>
        assert FieldName(plan.path, ps[i].name, plan.scope).None? by { SeenField(lib, plan, ps[i]); }
        return None;
      case Some(o) =>
        found := PutField(found, Joined(FieldAt(found, o.name), o));
    }
    forall name ensures FieldAt(found, name) == FieldOf(lib, plan, ps, |ps|, name) {
      CollectedClosed(lib, plan, ps, |ps|, name);
    }
    return Some(found);
  }

  lemma SeenField(lib: Lib, plan: Plan, q: Parameter)
    ensures Seen(lib, plan, q).Some? <==> FieldName(plan.path, q.name, plan.scope).Some?
  {}

  lemma {:induction false} CollectedSome(lib: Lib, plan: Plan, ps: seq<Parameter>, n: nat)
    requires n <= |ps|
    ensures Collected(lib, plan, ps, n).Some? <==> forall i | 0 <= i < n ::
            FieldName(plan.path, ps[i].name, plan.scope).Some?
  {
    hide FieldName, Observe, Joined, PutField;
    if n > 0 { CollectedSome(lib, plan, ps, n - 1); }
  }

  ghost predicate DistinctFields(fields: seq<TelemetryObservation>) {
    forall i, j | 0 <= i < j < |fields| :: fields[i].name != fields[j].name
  }

  lemma {:induction false} PutDistinct(fields: seq<TelemetryObservation>, o: TelemetryObservation)
    requires DistinctFields(fields)
    ensures DistinctFields(PutField(fields, o))
    ensures forall f | f in PutField(fields, o) :: f == o || f in fields
  {
    if fields != [] {
      assert fields == [fields[0]] + fields[1..];
      if fields[0].name != o.name {
        PutDistinct(fields[1..], o);
        forall f | f in PutField(fields[1..], o) ensures f.name != fields[0].name {
          if f != o {
            var i :| 0 <= i < |fields[1..]| && fields[1..][i] == f;
            assert fields[0].name != fields[i + 1].name;
          }
        }
      }
    }
  }

  lemma {:induction false} CollectedDistinct(lib: Lib, plan: Plan, ps: seq<Parameter>, n: nat)
    requires n <= |ps| && Collected(lib, plan, ps, n).Some?
    ensures DistinctFields(Collected(lib, plan, ps, n).value)
  {
    hide FieldName, Observe, Joined, PutField, DistinctFields;
    if n == 0 {
      NoFields();
    } else {
      CollectedDistinct(lib, plan, ps, n - 1);
      var before, o := Collected(lib, plan, ps, n - 1).value, Seen(lib, plan, ps[n - 1]).value;
      PutDistinct(before, Joined(FieldAt(before, o.name), o));
    }
  }

  lemma NoFields()
    ensures DistinctFields([])
  {}

  /** With distinct names, looking a field up finds exactly the listed ones. */
  lemma {:induction false} ListedField(fields: seq<TelemetryObservation>, name: TelemetryName)
    requires DistinctFields(fields)
    ensures FieldAt(fields, name).Some? ==>
      FieldAt(fields, name).value in fields && FieldAt(fields, name).value.name == name
    ensures forall f | f in fields && f.name == name :: FieldAt(fields, name) == Some(f)
  {
    if fields != [] {
      assert fields == [fields[0]] + fields[1..];
      if fields[0].name == name {
        forall f | f in fields && f.name == name ensures f == fields[0] {
          var i :| 0 <= i < |fields| && fields[i] == f;
        }
      } else {
        ListedField(fields[1..], name);
      }
    }
  }

  lemma FieldIn(lib: Lib, plan: Plan, ps: seq<Parameter>, f: TelemetryObservation)
    requires DistinctBy(ParameterName, ps) && Collected(lib, plan, ps, |ps|).Some?
             && f in Collected(lib, plan, ps, |ps|).value
    ensures FieldOf(lib, plan, ps, |ps|, f.name) == Some(f)
  {
    hide FieldName, Observe, JoinOf, SourcesFor, FieldOf;
    CollectedDistinct(lib, plan, ps, |ps|);
    ListedField(Collected(lib, plan, ps, |ps|).value, f.name);
    CollectedClosed(lib, plan, ps, |ps|, f.name);
  }

  // ----- The table's checks -----

  /** A name that is a field under an optical path is a power, under a WAN path anything else. */
  lemma FieldKind(path: string, parameter: string, scope: Scope)
    requires FieldName(path, parameter, scope).Some? && Measured(scope)
    ensures KindHas(if scope.Wan? then WanKind else OpticalKind, FieldName(path, parameter, scope).value)
  {}

  lemma {:induction false} SetSize(names: seq<string>)
    ensures |SetOf(names)| <= |names|
  {
    if names != [] {
      SetSize(names[1..]);
      assert names == [names[0]] + names[1..];
      assert SetOf(names) == {names[0]} + SetOf(names[1..]);
    }
  }

  lemma SubsetSize(a: set<string>, b: set<string>)
    requires a <= b
    ensures |a| <= |b|
  {
    assert b == a + (b - a);
  }

  /** The sources of a field are among the parameters of the reply, each under the field's own name. */
  lemma SourceNames(plan: Plan, ps: seq<Parameter>, name: TelemetryName)
    ensures NamesOf(SourcesFor(plan, ps, |ps|, name)) <= NameSet(ps)
    ensures forall q | q in SourcesFor(plan, ps, |ps|, name) ::
            q in ps && FieldName(plan.path, q.name, plan.scope) == Some(name)
  {}

  lemma FieldShape(lib: Lib, plan: Plan, ps: seq<Parameter>, name: TelemetryName)
    requires FieldOf(lib, plan, ps, |ps|, name).Some?
    ensures var o := FieldOf(lib, plan, ps, |ps|, name).value;
            && o.name == name && (o.state.Valid? <==> o.value.Some?) && (o.state.Valid? <==> o.reason.None?)
            && 1 <= |o.sources| && (forall x | x in o.sources :: x in NameSet(ps)) && Ascending(Self, o.sources)
            && (exists q :: q in ps && FieldName(plan.path, q.name, plan.scope) == Some(name))
  {
    hide FieldName, Observe, JoinOf, SourcesFor, NamesOf, NameSet;
    var qs := SourcesFor(plan, ps, |ps|, name);
    SourceNames(plan, ps, name);
    var q :| q in qs;
    if name.Ipv6? {
      JoinFacts(lib, plan.profileId, qs);
    } else {
      forall x | x in qs
        ensures var o := Observe(lib, name, x, plan.profileId);
                && o.name == name && (o.state.Valid? <==> o.value.Some?) && (o.state.Valid? <==> o.reason.None?)
                && x.name in NamesOf(qs)
      {
        ObserveShape(lib, name, x, plan.profileId);
        Named(qs, x);
      }
    }
  }

  /** Every field of a collection satisfies the table's CHECK constraints, with one to sixteen sources,
      when the reply answers a plan of at most sixteen names. */
  lemma CollectionChecks(lib: Lib, ps: seq<Parameter>, plan: Plan, now: Time, id: Id)
    requires AnswersPlan(ps, plan) && |plan.names| <= 16 && Measured(plan.scope)
             && Collect(lib, ps, plan, now, id).Some?
    ensures CollectionOk(Collect(lib, ps, plan, now, id).value)
    ensures forall o | o in Collect(lib, ps, plan, now, id).value.fields :: 1 <= |o.sources| <= 16
  {
    hide FieldName, Observe, JoinOf, SourcesFor, FieldOf, NameSet, KindHas, Collected;
    var c := Collect(lib, ps, plan, now, id).value;
    CollectedDistinct(lib, plan, ps, |ps|);
    SetSize(plan.names);
    forall o | o in c.fields ensures ObservationOk(c.kind, o) && 1 <= |o.sources| <= 16 {
      FieldIn(lib, plan, ps, o);
      FieldShape(lib, plan, ps, o.name);
      AscendingDistinct(Self, o.sources);
      DistinctSize(o.sources);
      SubsetSize(SetOf(o.sources), NameSet(ps));
      var q :| q in ps && FieldName(plan.path, q.name, plan.scope) == Some(o.name);
      FieldKind(plan.path, q.name, plan.scope);
    }
  }

  lemma {:induction false} DistinctSize(names: seq<string>)
    requires DistinctBy(Self, names)
    ensures |SetOf(names)| == |names|
  {
    if names != [] {
      var n := |names| - 1;
      DistinctSize(names[..n]);
      assert forall i | 0 <= i < n :: Self(names[i]) != Self(names[n]);
      assert SetOf(names) == SetOf(names[..n]) + {names[n]};
    }
  }

  // ----- Order does not matter -----

  lemma SameSources(a: Plan, b: Plan, ps: seq<Parameter>, qs: seq<Parameter>, name: TelemetryName)
    requires a.path == b.path && a.scope == b.scope && forall x :: x in ps <==> x in qs
    ensures SourcesFor(a, ps, |ps|, name) == SourcesFor(b, qs, |qs|, name)
  {
    hide FieldName;
    forall x | x in SourcesFor(a, ps, |ps|, name) ensures x in SourcesFor(b, qs, |qs|, name) { assert x in qs; }
    forall x | x in SourcesFor(b, qs, |qs|, name) ensures x in SourcesFor(a, ps, |ps|, name) { assert x in ps; }
  }

  /** Two orderings of a reply give every field the same observation, and are refused together. */
  lemma CollectedOrderFree(lib: Lib, a: Plan, b: Plan, ps: seq<Parameter>, qs: seq<Parameter>)
    requires SameCore(a, b) && SameEntries(ParameterName, ps, qs)
    ensures var x, y := Collected(lib, a, ps, |ps|), Collected(lib, b, qs, |qs|);
            && x.Some? == y.Some?
            && (x.Some? ==> forall name :: FieldAt(x.value, name) == FieldAt(y.value, name))
  {
    hide FieldName, Observe, JoinOf, SourcesFor;
    CollectedSome(lib, a, ps, |ps|);
    CollectedSome(lib, b, qs, |qs|);
    assert forall i | 0 <= i < |ps| :: ps[i] in qs;
    assert forall i | 0 <= i < |qs| :: qs[i] in ps;
    if Collected(lib, a, ps, |ps|).Some? && Collected(lib, b, qs, |qs|).Some? {
      forall name ensures FieldAt(Collected(lib, a, ps, |ps|).value, name)
          == FieldAt(Collected(lib, b, qs, |qs|).value, name) {
        CollectedClosed(lib, a, ps, |ps|, name);
        CollectedClosed(lib, b, qs, |qs|, name);
        SameSources(a, b, ps, qs, name);
      }
    }
  }

  lemma {:induction false} SameStates(x: seq<TelemetryObservation>, y: seq<TelemetryObservation>, s: TelemetryState)
    requires DistinctFields(x) && DistinctFields(y) && forall name :: FieldAt(x, name) == FieldAt(y, name)
    ensures (exists f :: f in x && f.state == s) ==> exists f :: f in y && f.state == s
  {
    if f :| f in x && f.state == s {
      ListedField(x, f.name);
      ListedField(y, f.name);
    }
  }

  /** The collection of a reply is the same map from fields to observations for every ordering of the reply. */
  lemma CollectOrderFree(lib: Lib, a: Plan, b: Plan, ps: seq<Parameter>, qs: seq<Parameter>, t: Time, u: Time, i: Id,
                         k: Id)
    requires SameCore(a, b) && SameEntries(ParameterName, ps, qs)
    ensures var x, y := Collect(lib, ps, a, t, i), Collect(lib, qs, b, u, k);
            && x.Some? == y.Some?
            && (x.Some? ==>
                  && (forall name :: FieldAt(x.value.fields, name) == FieldAt(y.value.fields, name))
                  && forall s :: SomeField(x.value, s) <==> SomeField(y.value, s))
  {
    hide FieldName, Observe, Collected;
    CollectedOrderFree(lib, a, b, ps, qs);
    var x, y := Collect(lib, ps, a, t, i), Collect(lib, qs, b, u, k);
    if x.Some? && y.Some? {
      CollectedDistinct(lib, a, ps, |ps|);
      CollectedDistinct(lib, b, qs, |qs|);
      forall s ensures SomeField(x.value, s) <==> SomeField(y.value, s) {
        SameStates(x.value.fields, y.value.fields, s);
        SameStates(y.value.fields, x.value.fields, s);
      }
    }
  }

  // ----- Result items -----

  /** The state that the last field with a source gives it. */
  function StateOf(fields: seq<TelemetryObservation>, source: string): Option<TelemetryState> {
    if fields == [] then None
    else if fields[|fields| - 1].source == source then Some(fields[|fields| - 1].state)
    else StateOf(fields[..|fields| - 1], source)
  }

  function Quoted(texts: seq<string>): string {
    if texts == [] then "" else if |texts| == 1 then "\"" + texts[0] + "\""
        else "\"" + texts[0] + "\", " + Quoted(texts[1..])
  }

  /** How a value is written in a result. Labels and canonical addresses need no escaping. */
  function Written(v: TelemetryValue): Option<string> {
    match v
    case Labels(texts) => Some("[" + Quoted(texts) + "]")
    case Label(text) => Some(text)
    case Number(_) => None
  }

  function ResultItem(lib: Lib, plan: Plan, fields: seq<TelemetryObservation>, q: Parameter): Item {
    if plan.scope.Optical? then
      Item(q.name, if StateOf(fields, q.name) in {Some(Valid), Some(Unverified)} then Some(Strip(q.value))
           else None, None)
    else
      match FieldName(plan.path, q.name, plan.scope)
      case None => Item(q.name, None, None)
      case Some(name) =>
        var v := Observe(lib, name, q, plan.profileId).value;
        Item(q.name, if v.None? then None else Written(v.value), None)
  }

  function ResultItems(lib: Lib, ps: seq<Parameter>, plan: Plan, c: Collection): (r: seq<Item>)
    ensures |r| == |ps|
    ensures forall i | 0 <= i < |ps| :: r[i] == ResultItem(lib, plan, c.fields, ps[i])
  {
    if ps == [] then [] else [ResultItem(lib, plan, c.fields, ps[0])] + ResultItems(lib, ps[1..], plan, c)
  }

  lemma {:induction false} StateFound(fields: seq<TelemetryObservation>, f: TelemetryObservation)
    requires f in fields && forall g | g in fields && g.source == f.source :: g == f
    ensures StateOf(fields, f.source) == Some(f.state)
  {
    var n := |fields| - 1;
    assert fields == fields[..n] + [fields[n]];
    if fields[n].source != f.source { StateFound(fields[..n], f); }
  }

  /** A power is read from exactly one parameter, and observed from it. */
  lemma PowerField(lib: Lib, plan: Plan, ps: seq<Parameter>, f: TelemetryObservation)
    requires plan.scope.Optical? && FieldOf(lib, plan, ps, |ps|, f.name) == Some(f)
    ensures exists q ::
      q in ps && q.name == f.source && FieldName(plan.path, q.name, plan.scope) == Some(f.name)
      && f == Observe(lib, f.name, q, plan.profileId).(sources := [q.name])
  {}

  lemma NotIpv6(plan: Plan, q: Parameter)
    requires plan.scope.Optical?
    ensures FieldName(plan.path, q.name, plan.scope) != Some(Ipv6)
  {}

  /** An optical result shows the reported text exactly when its own reading was valid or merely unverified. */
  lemma OpticalState(lib: Lib, plan: Plan, ps: seq<Parameter>, q: Parameter)
    requires plan.scope.Optical? && DistinctBy(ParameterName, ps) && q in ps && Collected(lib, plan, ps, |ps|).Some?
    ensures FieldName(plan.path, q.name, plan.scope).Some?
    ensures StateOf(Collected(lib, plan, ps, |ps|).value, q.name)
            == Some(Observe(lib, FieldName(plan.path, q.name, plan.scope).value, q, plan.profileId).state)
  {
    hide FieldName, Observe, JoinOf, FieldOf, Collected;
    CollectedSome(lib, plan, ps, |ps|);
    var fields := Collected(lib, plan, ps, |ps|).value;
    var name := FieldName(plan.path, q.name, plan.scope).value;
    CollectedDistinct(lib, plan, ps, |ps|);
    CollectedClosed(lib, plan, ps, |ps|, name);
    ListedField(fields, name);
    HasField(lib, plan, ps, q, name);
    var f := FieldAt(fields, name).value;
    forall g | g in fields && g.source == q.name ensures g == f {
      FieldIn(lib, plan, ps, g);
      PowerField(lib, plan, ps, g);
      ListedField(fields, g.name);
    }
    PowerField(lib, plan, ps, f);
    var r :| r in ps && r.name == f.source && FieldName(plan.path, r.name, plan.scope) == Some(f.name)
             && f == Observe(lib, f.name, r, plan.profileId).(sources := [r.name]);
    NotIpv6(plan, q);
    OneSource(plan.path, plan.scope, q.name, r.name);
    OneNamed(ps, q, r);
    StateFound(fields, f);
  }

  lemma HasField(lib: Lib, plan: Plan, ps: seq<Parameter>, q: Parameter, name: TelemetryName)
    requires q in ps && FieldName(plan.path, q.name, plan.scope) == Some(name)
    ensures FieldOf(lib, plan, ps, |ps|, name).Some?
  {
    hide FieldName, Observe, JoinOf;
    assert q in SourcesFor(plan, ps, |ps|, name);
  }

  lemma OneNamed(ps: seq<Parameter>, q: Parameter, r: Parameter)
    requires DistinctBy(ParameterName, ps) && q in ps && r in ps && q.name == r.name
    ensures q == r
  {}

  lemma ResultsOrderFree(lib: Lib, a: Plan, b: Plan, ps: seq<Parameter>, qs: seq<Parameter>, t: Time, u: Time, i: Id,
                         k: Id)
    requires SameCore(a, b) && SameEntries(ParameterName, ps, qs) && Collect(lib, ps, a, t, i).Some?
    ensures Collect(lib, qs, b, u, k).Some?
    ensures SameEntries(ItemName, ResultItems(lib, ps, a, Collect(lib, ps, a, t, i).value),
                        ResultItems(lib, qs, b, Collect(lib, qs, b, u, k).value))
  {
    hide FieldName, Observe, Collected, StateOf, InternetPppoe, Strip, Written;
    CollectOrderFree(lib, a, b, ps, qs, t, u, i, k);
    var x, y := Collect(lib, ps, a, t, i).value, Collect(lib, qs, b, u, k).value;
    var r, s := ResultItems(lib, ps, a, x), ResultItems(lib, qs, b, y);
    forall q | q in ps ensures ResultItem(lib, a, x.fields, q) == ResultItem(lib, b, y.fields, q) {
      if a.scope.Optical? {
        OpticalState(lib, a, ps, q);
        OpticalState(lib, b, qs, q);
      }
    }
    MapsOver(lib, ps, a, x);
    MapsOver(lib, qs, b, y);
    SameMembers(lib, a, b, ps, qs, x, y);
    SameMembers(lib, b, a, qs, ps, y, x);
  }

  lemma MapsOver(lib: Lib, ps: seq<Parameter>, plan: Plan, c: Collection)
    requires DistinctBy(ParameterName, ps)
    ensures DistinctBy(ItemName, ResultItems(lib, ps, plan, c))
  {
    hide FieldName, Observe, StateOf, Strip, Written;
    var r := ResultItems(lib, ps, plan, c);
    forall i, j | 0 <= i < j < |r| ensures ItemName(r[i]) != ItemName(r[j]) {
      assert ParameterName(ps[i]) != ParameterName(ps[j]);
    }
  }

  lemma SameMembers(lib: Lib, a: Plan, b: Plan, ps: seq<Parameter>, qs: seq<Parameter>, x: Collection, y: Collection)
    requires forall q | q in ps :: q in qs && ResultItem(lib, a, x.fields, q) == ResultItem(lib, b, y.fields, q)
    ensures forall item | item in ResultItems(lib, ps, a, x) :: item in ResultItems(lib, qs, b, y)
  {}
}
