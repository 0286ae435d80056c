/** From the device to the telemetry row: after a recorded read, and after any run, the row of a field holds what the
    parameters of that field's own name were observed as. */
module Measurements {
  import opened Text
  import opened Numbers
  import opened Domain
  import opened Policies
  import opened Jobs
  import opened Registers
  import opened Queue
  import opened Invariants
  import opened OperationProofs
  import opened Telemetry
  import opened TelemetryProofs
  import opened FieldNames
  import opened Readings
  import opened Runs
  import opened Effects
  import opened ObservedRuns
  import opened Verdicts
  import opened ReplyLog
  import Huawei

  // ----- What recording a collection leaves -----

  /** The row shows the observation; only a valid one brings a value, any other leaves the value as it was. */
  ghost predicate Shows(row: TelemetryRow, was: Option<TelemetryRow>, c: Collection, o: TelemetryObservation) {
    && row.state == o.state && row.reason == o.reason && row.source == o.source && row.sources == SourcesOf(o)
    && row.observedAt == c.receivedAt && row.operation == c.operation && row.profileId == c.profileId
    && row.profileVersion == c.profileVersion && row.kind == (if was.Some? then was.value.kind else c.kind)
    && (o.state.Valid? ==>
          && row.value == o.value && row.dBm == o.dBm && row.valueSource == Some(o.source)
          && row.valueSources == Some(SourcesOf(o)) && row.valueReceivedAt == Some(c.receivedAt)
          && row.valueOperation == Some(c.operation) && row.valueProfileId == Some(c.profileId)
          && row.valueProfileVersion == Some(c.profileVersion))
    && (!o.state.Valid? ==>
          if was.Some? then
            && row.value == was.value.value && row.dBm == was.value.dBm && row.valueSource == was.value.valueSource
            && row.valueSources == was.value.valueSources && row.valueReceivedAt == was.value.valueReceivedAt
            && row.valueOperation == was.value.valueOperation && row.valueProfileId == was.value.valueProfileId
            && row.valueProfileVersion == was.value.valueProfileVersion
          else row.value.None? && !row.dBm && row.valueSource.None?)
  }

  predicate AsNew(rows: map<TelemetryKey, TelemetryRow>, k: TelemetryKey, now: Time) {
    k in rows && now <= rows[k].observedAt
  }

  /** The rows of the first `n` fields show them, unless a row as new stood there; every other row is as it was. */
  ghost predicate FieldsKept(rows: map<TelemetryKey, TelemetryRow>, later: map<TelemetryKey, TelemetryRow>, cpe: Id,
                             c: Collection, n: nat)
    requires n <= |c.fields|
  {
    && (forall i | 0 <= i < n :: var k := (cpe, c.path, c.fields[i].name);
          && k in later
          && if AsNew(rows, k, c.receivedAt) then later[k] == rows[k]
             else Shows(later[k], TelemetryAt(rows, k), c, c.fields[i]))
    && (forall k | (k in later || k in rows)
                   && (k.0 != cpe || k.1 != c.path || forall i | 0 <= i < n :: c.fields[i].name != k.2) ::
          k in later && k in rows && later[k] == rows[k])
  }

  lemma WrittenShows(was: Option<TelemetryRow>, c: Collection, o: TelemetryObservation)
    ensures Shows(WriteTelemetry(was, c, o), was, c, o)
  {}

  lemma OneMoreField(rows: map<TelemetryKey, TelemetryRow>, mid: map<TelemetryKey, TelemetryRow>, cpe: Id,
                     c: Collection, n: nat)
    requires 0 < n <= |c.fields| && DistinctFields(c.fields) && FieldsKept(rows, mid, cpe, c, n - 1)
    ensures FieldsKept(rows, RecordObservation(mid, cpe, c, c.fields[n - 1]), cpe, c, n)
  {
    hide Shows, WriteTelemetry;
    var later, key := RecordObservation(mid, cpe, c, c.fields[n - 1]), (cpe, c.path, c.fields[n - 1].name);
    assert forall i | 0 <= i < n - 1 :: c.fields[i].name != c.fields[n - 1].name;
    assert (key in mid <==> key in rows) && (key in mid ==> mid[key] == rows[key]);
    WrittenShows(TelemetryAt(rows, key), c, c.fields[n - 1]);
    forall i | 0 <= i < n
      ensures var k := (cpe, c.path, c.fields[i].name);
              && k in later
              && if AsNew(rows, k, c.receivedAt) then later[k] == rows[k]
                 else Shows(later[k], TelemetryAt(rows, k), c, c.fields[i])
    {
      if i < n - 1 {
        var k := (cpe, c.path, c.fields[i].name);
        assert k in mid && later[k] == mid[k];
      }
    }
    forall k | (k in later || k in rows)
               && (k.0 != cpe || k.1 != c.path || forall i | 0 <= i < n :: c.fields[i].name != k.2)
      ensures k in later && k in rows && later[k] == rows[k]
    {
      assert k != key;
    }
  }

  lemma {:induction false} FieldsExactly(rows: map<TelemetryKey, TelemetryRow>, cpe: Id, c: Collection, n: nat)
    requires n <= |c.fields| && DistinctFields(c.fields)
    ensures FieldsKept(rows, RecordObservations(rows, cpe, c, n), cpe, c, n)
  {
    hide Shows, DistinctFields, RecordObservation;
    if n > 0 {
      FieldsExactly(rows, cpe, c, n - 1);
      OneMoreField(rows, RecordObservations(rows, cpe, c, n - 1), cpe, c, n);
    }
  }

  // ----- What a reply says of a field -----

  /** What a reply says of a field: for the address list the join of all its sources, for any other field the one
      parameter that has its name. */
  ghost predicate Says(lib: Lib, profileId: string, path: string, ps: seq<Parameter>, name: TelemetryName,
                       o: TelemetryObservation) {
    && (!name.Ipv6? ==>
          exists q ::
            q in ps && NamedBy(path, q.name, name) && o == Observe(lib, name, q, profileId).(sources := [q.name]))
    && (name.Ipv6? ==> exists qs: set<Parameter> :: qs != {} && o == JoinOf(lib, profileId, qs)
                         && forall q :: q in qs <==> q in ps && NamedBy(path, q.name, Ipv6))
  }

  /** What the reply says of a field is what its collection holds of it. */
  lemma CollectedSays(lib: Lib, ps: seq<Parameter>, plan: Plan, now: Time, id: Id, o: TelemetryObservation)
    requires DistinctBy(ParameterName, ps) && Measured(plan.scope) && Collect(lib, ps, plan, now, id).Some?
    requires o in Collect(lib, ps, plan, now, id).value.fields
    ensures Says(lib, plan.profileId, plan.path, ps, o.name, o)
  {
    hide FieldName, Observe, JoinOf, Collected, NamedBy, InternetPppoe;
    FieldIn(lib, plan, ps, o);
    var qs := SourcesFor(plan, ps, |ps|, o.name);
    SourceNames(plan, ps, o.name);
    forall q ensures q in qs <==> q in ps && NamedBy(plan.path, q.name, o.name) && ScopeOf(plan.scope, o.name) {
      FieldNamesExactly(plan.path, q.name, plan.scope, o.name);
    }
    var q :| q in qs;
    if !o.name.Ipv6? {
      var x :| x in qs && o == Observe(lib, o.name, x, plan.profileId).(sources := [x.name]);
    }
  }

  predicate ScopeOf(scope: Scope, name: TelemetryName) { scope.Optical? <==> name.RxPower? || name.TxPower? }

  /** Every parameter of a measured reply gives its field. */
  lemma NamedCollected(lib: Lib, ps: seq<Parameter>, plan: Plan, now: Time, id: Id, q: Parameter, name: TelemetryName)
    requires DistinctBy(ParameterName, ps) && Measured(plan.scope) && Collect(lib, ps, plan, now, id).Some?
    requires q in ps && NamedBy(plan.path, q.name, name) && ScopeOf(plan.scope, name)
    ensures exists o ::
      o in Collect(lib, ps, plan, now, id).value.fields && o.name == name
      && (!name.Ipv6? ==> o == Observe(lib, name, q, plan.profileId).(sources := [q.name]))
  {
    hide FieldName, Observe, JoinOf, Collected, NamedBy, InternetPppoe;
    FieldNamesExactly(plan.path, q.name, plan.scope, name);
    HasField(lib, plan, ps, q, name);
    CollectedDistinct(lib, plan, ps, |ps|);
    CollectedClosed(lib, plan, ps, |ps|, name);
    ListedField(Collected(lib, plan, ps, |ps|).value, name);
    if !name.Ipv6? { FieldFrom(lib, plan, ps, name); }
  }

  // ----- One recorded read -----

  lemma JudgedTelemetry(lib: Lib, rule: EvidenceRule, ask: Ask, plan: Plan, reply: Reply, now: Time, id: Id)
    ensures var v := Judge(Huawei.HuaweiPolicy(lib, rule), ask, plan, reply, now, id);
            v.Some? && v.value.telemetry.Some? ==>
              && reply.ValuesReply? && Measured(plan.scope) && ask.kind.GetValues?
              && Collect(lib, reply.parameters, plan, now, id) == v.value.telemetry
  {
    hide Collect, Huawei.Permitted, Huawei.Normalize, ResultItems, SortBy, MapItems, SomeField;
  }

  lemma CollectionIs(lib: Lib, ps: seq<Parameter>, plan: Plan, now: Time, id: Id)
    requires Collect(lib, ps, plan, now, id).Some?
    ensures var c := Collect(lib, ps, plan, now, id).value;
            && c.path == plan.path && c.receivedAt == now && c.operation == id && c.profileId == plan.profileId
            && DistinctFields(c.fields)
  {
    hide Collected, InternetPppoe;
    CollectedDistinct(lib, plan, ps, |ps|);
  }

  /** The row shows what the reply says of the field, as the answer of that operation at that time. */
  ghost predicate ShowsReply(lib: Lib, row: TelemetryRow, was: Option<TelemetryRow>, t: Taken, ps: seq<Parameter>,
                             name: TelemetryName, now: Time) {
    exists c: Collection, o: TelemetryObservation ::
      && Says(lib, t.plan.profileId, t.plan.path, ps, name, o) && Shows(row, was, c, o)
      && c.receivedAt == now && c.operation == t.id && c.profileId == t.plan.profileId
  }

  /** After a recorded read of a WAN or of the optics, the row of every field that the reply names shows what the reply
      says of it, unless a row as new stood there; every other telemetry row is as it was. */
  ghost predicate ReadStored(lib: Lib, db: Db, later: Db, cpe: Id, t: Taken, ps: seq<Parameter>, now: Time) {
    && (forall q, name | q in ps && NamedBy(t.plan.path, q.name, name) && ScopeOf(t.plan.scope, name) ::
          var k := (cpe, t.plan.path, name);
          && k in later.store.telemetry
          && if AsNew(db.store.telemetry, k, now) then later.store.telemetry[k] == db.store.telemetry[k]
             else ShowsReply(lib, later.store.telemetry[k], TelemetryAt(db.store.telemetry, k), t, ps, name, now))
    && (forall k | (k in later.store.telemetry || k in db.store.telemetry)
                   && (k.0 != cpe || k.1 != t.plan.path || !ScopeOf(t.plan.scope, k.2)
                       || forall q | q in ps :: !NamedBy(t.plan.path, q.name, k.2)) ::
          k in later.store.telemetry && k in db.store.telemetry && later.store.telemetry[k] == db.store.telemetry[k])
  }

  lemma StoredTelemetry(s: Store, cpe: Id, v: Verdict)
    requires cpe in s.cpes
    ensures Stored(s, cpe, v).telemetry ==
      if v.telemetry.Some? then RecordObservations(s.telemetry, cpe, v.telemetry.value, |v.telemetry.value.fields|)
      else s.telemetry
  {
    hide WrittenFields, WrittenCpe, RecordObservations, Revoked;
  }

  lemma RecordedRead(lib: Lib, rule: EvidenceRule, db: Db, token: string, reply: Reply, now: Time)
    requires token in db.sessions && DistinctReply(reply)
    requires var p := Huawei.HuaweiPolicy(lib, rule);
             && Recording(p, db, token, reply, now).Some?
             && Recording(p, db, token, reply, now).value.verdict.telemetry.Some?
    ensures var p := Huawei.HuaweiPolicy(lib, rule);
            var t := Recording(p, db, token, reply, now).value;
            && reply.ValuesReply? && Measured(t.plan.scope)
            && ReadStored(lib, db, Settle(db, Answer(p, db, token, reply, now)), db.sessions[token].cpe, t,
                          reply.parameters, now)
  {
    hide Answer, Judge, Collect, RecordObservations, Says, Shows, NamedBy, RowPlan, Stored, Lasts, FieldsKept,
      ValuesAll;
    var p := Huawei.HuaweiPolicy(lib, rule);
    var t, cpe := Recording(p, db, token, reply, now).value, db.sessions[token].cpe;
    var c := t.verdict.telemetry.value;
    JudgedTelemetry(lib, rule, db.ops[t.id].ask, t.plan, reply, now, t.id);
    CollectionIs(lib, reply.parameters, t.plan, now, t.id);
    AnswerStores(p, db, token, reply, now);
    StoredTelemetry(db.store, cpe, t.verdict);
    FieldsExactly(db.store.telemetry, cpe, c, |c.fields|);
    KeptRead(lib, db, Settle(db, Answer(p, db, token, reply, now)), cpe, t, reply.parameters, now);
  }

  /** What recording the collection of a reply leaves, as `FieldsKept` says, is what the reply says. */
  lemma KeptRead(lib: Lib, db: Db, later: Db, cpe: Id, t: Taken, ps: seq<Parameter>, now: Time)
    requires DistinctBy(ParameterName, ps) && Measured(t.plan.scope) && t.verdict.telemetry.Some?
    requires Collect(lib, ps, t.plan, now, t.id) == t.verdict.telemetry
    requires var c := t.verdict.telemetry.value;
             && c.path == t.plan.path && c.receivedAt == now && c.operation == t.id && c.profileId == t.plan.profileId
             && FieldsKept(db.store.telemetry, later.store.telemetry, cpe, c, |c.fields|)
    ensures ReadStored(lib, db, later, cpe, t, ps, now)
  {
    hide Collect, Says, Shows, NamedBy, Measured, Observe, JoinOf, FieldsKept, ShowsReply;
    forall q, name | q in ps && NamedBy(t.plan.path, q.name, name) && ScopeOf(t.plan.scope, name)
      ensures var k := (cpe, t.plan.path, name);
              && k in later.store.telemetry
              && if AsNew(db.store.telemetry, k, now) then later.store.telemetry[k] == db.store.telemetry[k]
                 else ShowsReply(lib, later.store.telemetry[k], TelemetryAt(db.store.telemetry, k), t, ps, name, now)
    {
      KeptField(lib, db.store.telemetry, later.store.telemetry, cpe, t, ps, now, q, name);
    }
    forall k | (k in later.store.telemetry || k in db.store.telemetry)
               && (k.0 != cpe || k.1 != t.plan.path || !ScopeOf(t.plan.scope, k.2)
                   || forall q | q in ps :: !NamedBy(t.plan.path, q.name, k.2))
      ensures k in later.store.telemetry && k in db.store.telemetry && later.store.telemetry[k] == db.store.telemetry[k]
    {
      OtherField(lib, db.store.telemetry, later.store.telemetry, cpe, t, ps, now, k);
    }
  }

  lemma KeptField(lib: Lib, rows: map<TelemetryKey, TelemetryRow>, later: map<TelemetryKey, TelemetryRow>, cpe: Id,
                  t: Taken, ps: seq<Parameter>, now: Time, q: Parameter, name: TelemetryName)
    requires DistinctBy(ParameterName, ps) && Measured(t.plan.scope) && t.verdict.telemetry.Some?
    requires Collect(lib, ps, t.plan, now, t.id) == t.verdict.telemetry
    requires var c := t.verdict.telemetry.value;
             && c.path == t.plan.path && c.receivedAt == now && c.operation == t.id && c.profileId == t.plan.profileId
             && FieldsKept(rows, later, cpe, c, |c.fields|)
    requires q in ps && NamedBy(t.plan.path, q.name, name) && ScopeOf(t.plan.scope, name)
    ensures var k := (cpe, t.plan.path, name);
            && k in later
            && if AsNew(rows, k, now) then later[k] == rows[k]
               else ShowsReply(lib, later[k], TelemetryAt(rows, k), t, ps, name, now)
  {
    hide Collect, Says, Shows, NamedBy, Measured, Observe, JoinOf;
    var c := t.verdict.telemetry.value;
    NamedCollected(lib, ps, t.plan, now, t.id, q, name);
    var o :| o in c.fields && o.name == name;
    CollectedSays(lib, ps, t.plan, now, t.id, o);
    var i :| 0 <= i < |c.fields| && c.fields[i] == o;
    assert (cpe, c.path, c.fields[i].name) == (cpe, t.plan.path, name);
  }

  lemma OtherField(lib: Lib, rows: map<TelemetryKey, TelemetryRow>, later: map<TelemetryKey, TelemetryRow>, cpe: Id,
                   t: Taken, ps: seq<Parameter>, now: Time, k: TelemetryKey)
    requires DistinctBy(ParameterName, ps) && Measured(t.plan.scope) && t.verdict.telemetry.Some?
    requires Collect(lib, ps, t.plan, now, t.id) == t.verdict.telemetry
    requires var c := t.verdict.telemetry.value;
             c.path == t.plan.path && FieldsKept(rows, later, cpe, c, |c.fields|)
    requires (k in later || k in rows)
             && (k.0 != cpe || k.1 != t.plan.path || !ScopeOf(t.plan.scope, k.2)
                 || forall q | q in ps :: !NamedBy(t.plan.path, q.name, k.2))
    ensures k in later && k in rows && later[k] == rows[k]
  {
    hide Collect, Says, Shows, NamedBy, Measured, Observe, JoinOf, ScopeOf;
    var c := t.verdict.telemetry.value;
    if k.0 == cpe && k.1 == t.plan.path && exists i :: 0 <= i < |c.fields| && c.fields[i].name == k.2 {
      var i :| 0 <= i < |c.fields| && c.fields[i].name == k.2;
      FieldNamed(lib, ps, t.plan, now, t.id, c.fields[i]);
    }
  }

  lemma FieldNamed(lib: Lib, ps: seq<Parameter>, plan: Plan, now: Time, id: Id, o: TelemetryObservation)
    requires DistinctBy(ParameterName, ps) && Measured(plan.scope) && Collect(lib, ps, plan, now, id).Some?
    requires o in Collect(lib, ps, plan, now, id).value.fields
    ensures ScopeOf(plan.scope, o.name) && exists q :: q in ps && NamedBy(plan.path, q.name, o.name)
  {
    hide FieldName, Observe, JoinOf, Collected, NamedBy, InternetPppoe;
    FieldIn(lib, plan, ps, o);
    SourceNames(plan, ps, o.name);
    var q :| q in SourcesFor(plan, ps, |ps|, o.name);
    FieldNamesExactly(plan.path, q.name, plan.scope, o.name);
  }

  /** Under the Huawei policy every stored request is planned for a reviewed profile. */
  lemma ReviewedProfile(lib: Lib, rule: EvidenceRule, target: Target, ask: Ask)
    ensures var plan := RowPlan(Huawei.HuaweiPolicy(lib, rule), target, ask);
            plan.Some? ==> plan.value.profileId in {X6_PROFILE, V5_PROFILE}
  {
    hide SelectNames, Concrete;
  }

  /** A power that a recorded read reports is stored as the integer its text denotes, received and transmitted each
      under its own name, unless a row as new stood there. */
  lemma PowerStored(lib: Lib, rule: EvidenceRule, db: Db, token: string, reply: Reply, now: Time, q: Parameter, v: int,
                    name: TelemetryName)
    requires token in db.sessions && DistinctReply(reply) && reply.ValuesReply? && q in reply.parameters
    requires var p := Huawei.HuaweiPolicy(lib, rule);
             && Recording(p, db, token, reply, now).Some?
             && Recording(p, db, token, reply, now).value.verdict.telemetry.Some?
    requires var plan := Recording(Huawei.HuaweiPolicy(lib, rule), db, token, reply, now).value.plan;
             && plan.scope.Optical?
             && ((name.RxPower? && q.name == plan.path + "RXPower")
                 || (name.TxPower? && q.name == plan.path + "TXPower"))
    requires q.xsdType == "xsd:int" && Denotes(Strip(q.value), v) && |Unsigned(Strip(q.value))| <= 10 && -80 <= v <= 20
    ensures var p := Huawei.HuaweiPolicy(lib, rule);
            var t, later := Recording(p, db, token, reply, now).value, Settle(db, Answer(p, db, token, reply, now));
            var k := (db.sessions[token].cpe, t.plan.path, name);
            && k in later.store.telemetry
            && (!AsNew(db.store.telemetry, k, now) ==>
                  var row := later.store.telemetry[k];
                  row.state.Valid? && row.value == Some(Number(v)) && row.dBm && row.valueSource == Some(q.name)
                  && row.valueReceivedAt == Some(now) && row.valueOperation == Some(t.id))
  {
    hide Answer, Judge, Observe, Says, Denotes, RowPlan, Lasts, Strip, SourcesOf, Unsigned;
    var p := Huawei.HuaweiPolicy(lib, rule);
    var t := Recording(p, db, token, reply, now).value;
    RecordedRead(lib, rule, db, token, reply, now);
    ReviewedProfile(lib, rule, TargetOf(db.store.cpes[db.sessions[token].cpe]), db.ops[t.id].ask);
    assert NamedBy(t.plan.path, q.name, name) && ScopeOf(t.plan.scope, name);
    PowerRead(lib, name, q, t.plan.profileId, v);
    ObserveShape(lib, name, q, t.plan.profileId);
    forall o | Says(lib, t.plan.profileId, t.plan.path, reply.parameters, name, o)
      ensures o.state.Valid? && o.value == Some(Number(v)) && o.dBm && o.source == q.name
    {
      SaysOne(lib, t.plan.profileId, t.plan.path, reply.parameters, q, name, o);
    }
  }

  /** What a reply says of a field with one name is what its parameter of that name is observed as. */
  lemma SaysOne(lib: Lib, profileId: string, path: string, ps: seq<Parameter>, q: Parameter, name: TelemetryName,
                o: TelemetryObservation)
    requires DistinctBy(ParameterName, ps) && !name.Ipv6? && q in ps && NamedBy(path, q.name, name)
    requires Says(lib, profileId, path, ps, name, o)
    ensures o == Observe(lib, name, q, profileId).(sources := [q.name])
  {
    hide Observe;
    var x :| x in ps && NamedBy(path, x.name, name) && o == Observe(lib, name, x, profileId).(sources := [x.name]);
    OneNamed(ps, x, q);
  }

  // ----- Every run -----

  /** Step `k` carried a recorded reply of the CPE that says this of a field under the path. */
  ghost predicate SaidAt(lib: Lib, rule: EvidenceRule, actions: seq<Action>, k: nat, c: Id, path: string,
                         name: TelemetryName, o: TelemetryObservation)
    requires k < |actions|
  {
    var a, db := actions[k], Run(Huawei.HuaweiPolicy(lib, rule), EMPTY, actions[..k]);
    && a.DoExchange? && a.reply.Some? && a.reply.value.ValuesReply?
    && a.token in db.sessions && db.sessions[a.token].cpe == c
    && exists profile ::
         profile in {X6_PROFILE, V5_PROFILE} && Says(lib, profile, path, a.reply.value.parameters, name, o)
  }

  /** Every collection that a run observed of a CPE says of its fields what the reply of its own step said. */
  lemma {:induction false} CollectionSaid(lib: Lib, rule: EvidenceRule, actions: seq<Action>, c: Id, col: Collection,
                                          o: TelemetryObservation)
    requires AllPossible(actions) && o in col.fields
    requires col in Collections(Huawei.HuaweiPolicy(lib, rule), actions, c)
    ensures exists k ::
      0 <= k < |actions| && col.receivedAt == actions[k].now && SaidAt(lib, rule, actions, k, c, col.path, o.name, o)
  {
    hide Run, Possible, SeenBy, Says;
    var p, n := Huawei.HuaweiPolicy(lib, rule), |actions| - 1;
    var before := actions[..n];
    var seen := SeenBy(p, Run(p, EMPTY, before), actions[n], c).telemetry;
    if seen == Some(col) {
      SeenSaid(lib, rule, Run(p, EMPTY, before), actions[n], c, o);
    } else {
      CollectionSaid(lib, rule, before, c, col, o);
      var k :| 0 <= k < n && col.receivedAt == before[k].now && SaidAt(lib, rule, before, k, c, col.path, o.name, o);
      assert before[..k] == actions[..k] && before[k] == actions[k];
      assert SaidAt(lib, rule, actions, k, c, col.path, o.name, o);
    }
  }

  lemma SeenSaid(lib: Lib, rule: EvidenceRule, db: Db, a: Action, c: Id, o: TelemetryObservation)
    requires Possible(a)
    requires var seen := SeenBy(Huawei.HuaweiPolicy(lib, rule), db, a, c).telemetry;
             seen.Some? && o in seen.value.fields
    ensures a.DoExchange? && a.reply.Some? && a.reply.value.ValuesReply? && a.token in db.sessions
            && db.sessions[a.token].cpe == c
    ensures var col := SeenBy(Huawei.HuaweiPolicy(lib, rule), db, a, c).telemetry.value;
            && col.receivedAt == a.now
            && exists profile ::
                 profile in {X6_PROFILE, V5_PROFILE}
                 && Says(lib, profile, col.path, a.reply.value.parameters, o.name, o)
  {
    hide Judge, Collect, Says, RowPlan, Expire, AdvanceActive, Huawei.HuaweiPolicy;
    var p := Huawei.HuaweiPolicy(lib, rule);
    SameSessions(p, db, c, a.now, a.token);
    var d := Prepared(p, db, c, a.now);
    var t := Recording(p, d, a.token, a.reply.value, a.now).value;
    JudgedTelemetry(lib, rule, d.ops[t.id].ask, t.plan, a.reply.value, a.now, t.id);
    CollectionIs(lib, a.reply.value.parameters, t.plan, a.now, t.id);
    ReviewedProfile(lib, rule, TargetOf(d.store.cpes[c]), d.ops[t.id].ask);
    CollectedSays(lib, a.reply.value.parameters, t.plan, a.now, t.id, o);
  }

  /** Every telemetry sample comes from a field of a collection under the path. */
  lemma {:induction false} SampleFrom(history: seq<Collection>, path: string, name: TelemetryName,
                                      s: Sample<TelemetrySample>)
    requires s in TelemetrySamples(history, path, name)
    ensures exists c, o ::
      c in history && o in c.fields && c.path == path && o.name == name && s == TelemetrySampleOf(c, o)
  {
    hide TelemetrySampleOf;
    var c := history[|history| - 1];
    if c.path == path && s in Carried(c, name, |c.fields|) {
      CarriedFrom(c, name, |c.fields|, s);
    } else {
      SampleFrom(history[..|history| - 1], path, name, s);
    }
  }

  lemma {:induction false} CarriedFrom(c: Collection, name: TelemetryName, n: nat, s: Sample<TelemetrySample>)
    requires n <= |c.fields| && s in Carried(c, name, n)
    ensures exists o :: o in c.fields && o.name == name && s == TelemetrySampleOf(c, o)
  {
    hide TelemetrySampleOf;
    var o := c.fields[n - 1];
    if !(o.name == name && s == TelemetrySampleOf(c, o)) { CarriedFrom(c, name, n - 1, s); }
  }

  lemma SampleSaid(lib: Lib, rule: EvidenceRule, actions: seq<Action>, c: Id, path: string, name: TelemetryName,
                   s: Sample<TelemetrySample>)
    requires AllPossible(actions)
    requires s in TelemetrySamples(Collections(Huawei.HuaweiPolicy(lib, rule), actions, c), path, name)
    ensures s.valid == s.obs.obs.state.Valid?
    ensures exists k ::
      0 <= k < |actions| && s.at == actions[k].now && SaidAt(lib, rule, actions, k, c, path, name, s.obs.obs)
  {
    hide AllPossible, Collections, SaidAt;
    var history := Collections(Huawei.HuaweiPolicy(lib, rule), actions, c);
    SampleFrom(history, path, name, s);
    var col, o :| col in history && o in col.fields && col.path == path && o.name == name
        && s == TelemetrySampleOf(col, o);
    CollectionSaid(lib, rule, actions, c, col, o);
  }

  /** After any run, the state and the value of a telemetry row are each what some recorded reply of the CPE said of
      that field, at the time that the row gives for it. */
  lemma MeasureOfRun(lib: Lib, rule: EvidenceRule, actions: seq<Action>, c: Id, path: string, name: TelemetryName)
    requires AllPossible(actions)
    requires (c, path, name) in Run(Huawei.HuaweiPolicy(lib, rule), EMPTY, actions).store.telemetry
    ensures var row := Run(Huawei.HuaweiPolicy(lib, rule), EMPTY, actions).store.telemetry[(c, path, name)];
            && (exists k, o ::
                  0 <= k < |actions| && row.observedAt == actions[k].now
                  && SaidAt(lib, rule, actions, k, c, path, name, o)
                  && row.state == o.state && row.reason == o.reason && row.source == o.source)
            && (row.value.Some? ==>
                  exists k, o ::
                    0 <= k < |actions| && row.valueReceivedAt == Some(actions[k].now)
                    && SaidAt(lib, rule, actions, k, c, path, name, o) && o.state.Valid?
                    && row.value == o.value && row.dBm == o.dBm && row.valueSource == Some(o.source))
  {
    hide Run, AllPossible, Collections, SaidAt, TelemetrySamples, RecordAll, Contract;
    var p := Huawei.HuaweiPolicy(lib, rule);
    Huawei.HuaweiMeetsContract(lib, rule);
    TelemetryOfRun(p, actions, c, path, name);
    var samples := TelemetrySamples(Collections(p, actions, c), path, name);
    var r := RecordAll(samples);
    assert r.Held?;
    HeldSamples(samples, r);
    SampleSaid(lib, rule, actions, c, path, name, r.last);
    if r.value.Some? { SampleSaid(lib, rule, actions, c, path, name, r.value.value); }
  }

  lemma HeldSamples<O(!new)>(history: seq<Sample<O>>, r: Register<O>)
    requires Explains(history, r) && r.Held?
    ensures r.last in history && (r.value.Some? ==> r.value.value in history && r.value.value.valid)
  {
    hide Newest, Breaks;
  }

  /** The reply reports that power under its own name, as a number. */
  ghost predicate PowerReported(reply: Option<Reply>, path: string, name: TelemetryName, v: int) {
    && reply.Some? && reply.value.ValuesReply?
    && exists q ::
         q in reply.value.parameters && q.name == path + (if name.RxPower? then "RXPower" else "TXPower")
         && q.xsdType == "xsd:int" && Denotes(Strip(q.value), v)
  }

  lemma PowerSaid(lib: Lib, profile: string, path: string, reply: Reply, name: TelemetryName, o: TelemetryObservation)
    requires reply.ValuesReply? && (name.RxPower? || name.TxPower?) && o.state.Valid?
    requires Says(lib, profile, path, reply.parameters, name, o)
    ensures o.dBm && o.value.Some? && o.value.value.Number? && -80 <= o.value.value.number <= 20
            && PowerReported(Some(reply), path, name, o.value.value.number)
  {
    hide Observe, Denotes, Strip, SignedValue;
    var ps := reply.parameters;
    var q :| q in ps && NamedBy(path, q.name, name) && o == Observe(lib, name, q, profile).(sources := [q.name]);
    PowerRead(lib, name, q, profile, 0);
    assert o.value.Some? && o.value.value.Number?;
    PowerRead(lib, name, q, profile, o.value.value.number);
  }

  /** After any run, a stored power is one that the device reported under that power's own name: an integer of -80 to 20
      that the text denotes. */
  lemma PowerOfRun(lib: Lib, rule: EvidenceRule, actions: seq<Action>, c: Id, path: string, name: TelemetryName)
    requires AllPossible(actions) && (name.RxPower? || name.TxPower?)
    requires (c, path, name) in Run(Huawei.HuaweiPolicy(lib, rule), EMPTY, actions).store.telemetry
    ensures var row := Run(Huawei.HuaweiPolicy(lib, rule), EMPTY, actions).store.telemetry[(c, path, name)];
            row.value.Some? ==>
              row.dBm && row.value.value.Number? && -80 <= row.value.value.number <= 20
              && exists k :: 0 <= k < |actions| && row.valueReceivedAt == Some(actions[k].now)
                   && PowerReported(ReplyIn(actions[k]), path, name, row.value.value.number)
  {
    hide Run, AllPossible, Says, PowerReported;
    MeasureOfRun(lib, rule, actions, c, path, name);
    var row := Run(Huawei.HuaweiPolicy(lib, rule), EMPTY, actions).store.telemetry[(c, path, name)];
    if row.value.Some? {
      var k, o :| 0 <= k < |actions| && row.valueReceivedAt == Some(actions[k].now)
                  && SaidAt(lib, rule, actions, k, c, path, name, o) && o.state.Valid?
                  && row.value == o.value && row.dBm == o.dBm && row.valueSource == Some(o.source);
      var profile :| profile in {X6_PROFILE, V5_PROFILE}
                     && Says(lib, profile, path, actions[k].reply.value.parameters, name, o);
      PowerSaid(lib, profile, path, actions[k].reply.value, name, o);
    }
  }
}
