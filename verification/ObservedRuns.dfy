/** What the registers hold after a run: every inventory field with its column, and every telemetry field, is the
    register of the observations that the Informs and the recorded reads of that run carried, in the order in which they
    arrived. */
module ObservedRuns {
  import opened Text
  import opened Domain
  import opened Policies
  import opened Jobs
  import opened Registers
  import opened Queue
  import opened StoredValues
  import opened Invariants
  import opened QueueProofs
  import opened OperationProofs
  import opened Validation
  import opened Runs
  import opened Effects
  import opened QuietSteps

  // ----- What a step observes -----

  /** The operation that a reply answers, with its plan and verdict. */
  datatype Taken = Taken(id: Id, plan: Plan, verdict: Verdict)

  /** What a reply is recorded as, if it is recorded: its operation is in flight, its plan still applies, and evidence
      that is asked for can be kept. */
  ghost function Recording(p: Policy, db: Db, token: string, reply: Reply, now: Time): Option<Taken>
    requires token in db.sessions
  {
    var s, found := db.sessions[token], AttemptFor(db.attempts, token, reply.rpcId);
    if found.None? || found.value !in db.ops || s.cpe !in db.store.cpes then None
    else
      var id := found.value;
      var op := db.ops[id];
      var plan := RowPlan(p, TargetOf(db.store.cpes[s.cpe]), op.ask);
      if !op.state.Dispatched? || plan.None? || !s.state.AwaitingResponse? then None
      else
        var v := Judge(p, op.ask, plan.value, reply, now, id);
        if v.None? || (Captures(op, v.value) && p.evidence(reply, plan.value, op.ask.kind, now).None?) then None
        else Some(Taken(id, plan.value, v.value))
  }

  /** What one step observed of one CPE. */
  datatype Seen = Seen(inventory: Option<Inventory>, telemetry: Option<Collection>)

  ghost function SeenBy(p: Policy, db: Db, a: Action, c: Id): Seen {
    match a
    case DoAccept(token, d, inv, now, expiresAt) =>
      var o := Accept(db, token, d, inv, now, expiresAt);
      Seen(if o.Commit? && o.result == c then Some(inv) else None, None)
    case DoExchange(token, Some(reply), _, now) =>
      if token !in db.sessions || db.sessions[token].cpe != c || c !in db.store.cpes then Seen(None, None)
      else
        SameSessions(p, db, c, now, token);
        var v := Recording(p, Prepared(p, db, c, now), token, reply, now);
        if v.None? then Seen(None, None) else Seen(v.value.verdict.inventory, v.value.verdict.telemetry)
    case _ => Seen(None, None)
  }

  /** The inventories that a run observed of one CPE, in order. */
  ghost function Inventories(p: Policy, actions: seq<Action>, c: Id): seq<Inventory> {
    if actions == [] then []
    else
      var n := |actions| - 1;
      var seen := SeenBy(p, Run(p, EMPTY, actions[..n]), actions[n], c).inventory;
      Inventories(p, actions[..n], c) + if seen.Some? then [seen.value] else []
  }

  /** The collections that a run observed of one CPE, in order. */
  ghost function Collections(p: Policy, actions: seq<Action>, c: Id): seq<Collection> {
    if actions == [] then []
    else
      var n := |actions| - 1;
      var seen := SeenBy(p, Run(p, EMPTY, actions[..n]), actions[n], c).telemetry;
      Collections(p, actions[..n], c) + if seen.Some? then [seen.value] else []
  }

  // ----- What a step does to the store -----

  /** The store after observing `seen` of a CPE that is there. */
  ghost predicate Observes(s: Store, later: Store, cpe: Id, seen: Seen)
    requires cpe in s.cpes
  {
    var updated := if seen.inventory.Some? then UpdateInventory(s, cpe, seen.inventory.value) else s;
    && later.fields == updated.fields && later.cpes == updated.cpes
    && later.telemetry == if seen.telemetry.Some? then UpdateTelemetry(s, cpe, seen.telemetry.value).telemetry
       else s.telemetry
  }

  lemma StoredObserves(s: Store, cpe: Id, v: Verdict)
    requires cpe in s.cpes
    ensures Observes(s, Stored(s, cpe, v), cpe, Seen(v.inventory, v.telemetry))
  {
    hide WrittenFields, WrittenCpe, RecordObservations, Revoked;
  }

  function Kept(p: Policy, reply: Reply, t: Taken): seq<Parameter> {
    if reply.ValuesReply? && t.verdict.reason.None? then p.permitted(reply.parameters, t.plan) else []
  }

  /** An answer records its reply or nothing. */
  ghost predicate Answers(p: Policy, db: Db, later: Db, token: string, reply: Reply, now: Time)
    requires token in db.sessions
  {
    match Recording(p, db, token, reply, now)
    case None => later.store == db.store && later.values == db.values && NoNewSuccess(db.ops, later.ops)
    case Some(t) =>
      var cpe := db.sessions[token].cpe;
      && cpe in db.store.cpes && later.store == Stored(db.store, cpe, t.verdict)
      && later.values == ValuesAll(db.values, cpe, Kept(p, reply, t), |Kept(p, reply, t)|, t.id, now)
      && t.id in db.ops && db.ops[t.id].state.Dispatched?
      && forall i | i in later.ops && later.ops[i].state.Succeeded? && i != t.id ::
         i in db.ops && db.ops[i].state.Succeeded?
  }

  ghost function EvidenceFor(p: Policy, db: Db, t: Taken, reply: Reply, now: Time): Option<string>
    requires t.id in db.ops
  {
    if Captures(db.ops[t.id], t.verdict) then p.evidence(reply, t.plan, db.ops[t.id].ask.kind, now) else None
  }

  lemma TakenIs(p: Policy, db: Db, token: string, reply: Reply, now: Time)
    requires token in db.sessions && Recording(p, db, token, reply, now).Some?
    ensures var t, cpe := Recording(p, db, token, reply, now).value, db.sessions[token].cpe;
            && t.id in db.ops && t.id in db.attempts && cpe in db.store.cpes && db.ops[t.id].state.Dispatched?
            && Answer(p, db, token, reply, now) ==
                 Commit(AdvanceActive(p, Recorded(p, db, token, t.id, t.plan, reply, t.verdict,
                                                  EvidenceFor(p, db, t, reply, now), now), cpe, now), None)
  {
    hide RowPlan, Judge, Finish, Recorded, AdvanceActive, DigestOf, FailedProfile, Captures;
  }

  lemma NothingTaken(p: Policy, db: Db, token: string, reply: Reply, now: Time)
    requires token in db.sessions && Recording(p, db, token, reply, now).None?
    ensures OnlyDispatches(db, Settle(db, Answer(p, db, token, reply, now)))
  {
    hide RowPlan, Judge, Finish, Recorded, AdvanceActive, DigestOf, FailedProfile, Captures, OnlyDispatches;
    SameDispatches(db);
    FinishDispatches(db, token, now);
    var found := AttemptFor(db.attempts, token, reply.rpcId);
    if found.Some? && found.value in db.ops { FailDispatches(db, token, found.value, now); }
  }

  lemma KeptDistinct(p: Policy, reply: Reply, t: Taken)
    requires PermittedContract(p) && DistinctReply(reply)
    ensures DistinctBy(ParameterName, Kept(p, reply, t))
  {}

  lemma AnswerStores(p: Policy, db: Db, token: string, reply: Reply, now: Time)
    requires token in db.sessions
    ensures Answers(p, db, Settle(db, Answer(p, db, token, reply, now)), token, reply, now)
    ensures var found, later := Recording(p, db, token, reply, now), Settle(db, Answer(p, db, token, reply, now));
            PermittedContract(p) && DistinctReply(reply) && found.Some? ==>
              var kept := Kept(p, reply, found.value);
              ValuesKept(db.values, later.values, db.sessions[token].cpe, kept, |kept|, found.value.id, now)
  {
    hide Answer, Recording, Recorded, Stored, AdvanceActive, ValuesAll, Kept, Lasts, EvidenceFor, ValuesKept,
      PermittedContract, DistinctReply;
    var found, cpe := Recording(p, db, token, reply, now), db.sessions[token].cpe;
    if found.None? {
      NothingTaken(p, db, token, reply, now);
    } else {
      var t := found.value;
      if PermittedContract(p) && DistinctReply(reply) {
        KeptDistinct(p, reply, t);
        ValuesExactly(db.values, cpe, Kept(p, reply, t), |Kept(p, reply, t)|, t.id, now);
      }
      TakenIs(p, db, token, reply, now);
      var evidence := EvidenceFor(p, db, t, reply, now);
      RecordedStore(p, db, token, t.id, t.plan, reply, t.verdict, evidence, now);
      var r := Recorded(p, db, token, t.id, t.plan, reply, t.verdict, evidence, now);
      AdvanceActiveQuiet(p, r, cpe, now);
      ActiveNoneNew(p, r, cpe, now);
      OthersSucceed(db.ops, r.ops, AdvanceActive(p, r, cpe, now).ops, t.id);
    }
  }

  lemma {:induction false} LaunchPending(p: Policy, target: Target, job: Job, id: Id, now: Time)
    ensures var op := Launch(p, target, job, id, now).1; op.Some? ==> op.value.state.Pending?
    decreases |job.frontier|
  {
    if job.frontier != [] && job.rpcCount < job.spec.maxRpcs && job.entryCount < job.spec.maxEntries {
      LaunchPending(p, target, Popped(job).(failures := Popped(job).failures + [PlanFailure]), id, now);
    }
  }

  lemma ActiveNoneNew(p: Policy, db: Db, cpe: Id, now: Time)
    ensures NoNewSuccess(db.ops, AdvanceActive(p, db, cpe, now).ops)
  {
    hide Launch, ReadyJob, Waits;
    var found := ActiveJob(db.jobs, cpe);
    if found.Some? && cpe in db.store.cpes {
      LaunchPending(p, TargetOf(db.store.cpes[cpe]), ReadyJob(db, db.jobs[found.value]), db.next, now);
    }
  }

  lemma OthersSucceed(ops: map<Id, Op>, mid: map<Id, Op>, later: map<Id, Op>, id: Id)
    requires id in ops && id in mid && mid == ops[id := mid[id]] && NoNewSuccess(mid, later)
    ensures forall i | i in later && later[i].state.Succeeded? && i != id :: i in ops && ops[i].state.Succeeded?
  {}

  lemma RecordedStore(p: Policy, db: Db, token: string, id: Id, plan: Plan, reply: Reply, v: Verdict,
                      evidence: Option<string>, now: Time)
    requires token in db.sessions && id in db.ops && id in db.attempts && db.sessions[token].cpe in db.store.cpes
    ensures var r := Recorded(p, db, token, id, plan, reply, v, evidence, now);
            var kept := Kept(p, reply, Taken(id, plan, v));
            && r.store == Stored(db.store, db.sessions[token].cpe, v)
            && r.values == ValuesAll(db.values, db.sessions[token].cpe, kept, |kept|, id, now)
            && id in r.ops && r.ops == db.ops[id := r.ops[id]]
  {
    hide Truncate, CatalogAll, ValuesAll, Stored, DigestOf, Finish;
  }

  // ----- One field -----

  function ColumnOf(s: Store, c: Id, f: Field): Option<string> { if c in s.cpes then Column(s.cpes[c], f) else None }

  ghost predicate FieldHolds(s: Store, c: Id, f: Field, r: Register<FieldSample>) {
    Holds(RowAt(s.fields, c, f), ColumnOf(s, c, f), r)
  }

  function After(r: Register<FieldSample>, seen: Option<Inventory>, f: Field): Register<FieldSample> {
    if seen.None? || Observed(seen.value, f).NotReported? then r else Record(r, SampleOf(seen.value, f))
  }

  lemma OtherCpeFields(s: Store, cpe: Id, inv: Inventory, c: Id, f: Field)
    requires cpe in s.cpes && c != cpe
    ensures var later := UpdateInventory(s, cpe, inv);
            RowAt(later.fields, c, f) == RowAt(s.fields, c, f) && ColumnOf(later, c, f) == ColumnOf(s, c, f)
  {
    hide WriteField, WrittenCpe;
  }

  lemma ObservedField(s: Store, later: Store, cpe: Id, seen: Seen, c: Id, f: Field, r: Register<FieldSample>)
    requires cpe in s.cpes && Observes(s, later, cpe, seen) && FieldHolds(s, c, f, r)
    ensures FieldHolds(later, c, f, After(r, if cpe == c then seen.inventory else None, f))
  {
    hide Holds, UpdateInventory, UpdateTelemetry, Record, SampleOf;
    if seen.inventory.Some? {
      if cpe == c {
        UpdateRefinesRecord(s, cpe, seen.inventory.value, f, r);
        KeepsCpe(s, cpe, seen.inventory.value);
      } else {
        OtherCpeFields(s, cpe, seen.inventory.value, c, f);
      }
    }
  }

  lemma KeepsCpe(s: Store, cpe: Id, inv: Inventory)
    requires cpe in s.cpes
    ensures cpe in UpdateInventory(s, cpe, inv).cpes
  {}

  // ----- One telemetry field -----

  ghost predicate MeasureHolds(s: Store, c: Id, path: string, name: TelemetryName, history: seq<Collection>) {
    TelemetryHolds(TelemetryAt(s.telemetry, (c, path, name)), RecordAll(TelemetrySamples(history, path, name)))
  }

  function With(history: seq<Collection>, seen: Option<Collection>): seq<Collection> {
    history + if seen.Some? then [seen.value] else []
  }

  lemma {:induction false} OtherCpeTelemetry(rows: map<TelemetryKey, TelemetryRow>, cpe: Id, o: Collection, n: nat,
                                             k: TelemetryKey)
    requires n <= |o.fields| && k.0 != cpe
    ensures TelemetryAt(RecordObservations(rows, cpe, o, n), k) == TelemetryAt(rows, k)
  {
    if n > 0 { OtherCpeTelemetry(rows, cpe, o, n - 1, k); }
  }

  lemma CollectionKeeps(s: Store, cpe: Id, o: Collection, path: string, name: TelemetryName, history: seq<Collection>)
    requires MeasureHolds(s, cpe, path, name, history)
    ensures MeasureHolds(UpdateTelemetry(s, cpe, o), cpe, path, name, history + [o])
  {
    hide TelemetryHolds, TelemetryAt, RecordObservations, RecordAll, Carried;
    var before := TelemetrySamples(history, path, name);
    assert (history + [o])[..|history|] == history;
    if o.path == path {
      ObservationsRefine(s.telemetry, cpe, o, |o.fields|, name, before);
    } else {
      OtherPathUntouched(s.telemetry, cpe, o, |o.fields|, (cpe, path, name));
      assert before + [] == before;
    }
  }

  lemma ObservedMeasure(s: Store, later: Store, cpe: Id, seen: Seen, c: Id, path: string, name: TelemetryName,
                        history: seq<Collection>)
    requires cpe in s.cpes && Observes(s, later, cpe, seen) && MeasureHolds(s, c, path, name, history)
    ensures MeasureHolds(later, c, path, name, With(history, if cpe == c then seen.telemetry else None))
  {
    hide TelemetryHolds, UpdateInventory, RecordObservations, RecordAll, TelemetrySamples;
    assert history + [] == history;
    if seen.telemetry.Some? {
      if cpe == c {
        CollectionKeeps(s, c, seen.telemetry.value, path, name, history);
      } else {
        OtherCpeTelemetry(s.telemetry, cpe, seen.telemetry.value, |seen.telemetry.value.fields|, (c, path, name));
      }
    }
  }

  // ----- Every step -----

  /** The registers of one CPE move as the step's observations of it say. */
  ghost predicate RegistersFollow(s: Store, later: Store, c: Id, seen: Seen) {
    && (forall f, r | FieldHolds(s, c, f, r) :: FieldHolds(later, c, f, After(r, seen.inventory, f)))
    && (forall path, name, history | MeasureHolds(s, c, path, name, history) ::
          MeasureHolds(later, c, path, name, With(history, seen.telemetry)))
  }

  lemma SameFollows(s: Store, later: Store, c: Id)
    requires later.fields == s.fields && later.cpes == s.cpes && later.telemetry == s.telemetry
    ensures RegistersFollow(s, later, c, Seen(None, None))
  {
    hide Holds, TelemetryHolds;
    forall history: seq<Collection> ensures With(history, None) == history {}
  }

  lemma ObservedFollows(s: Store, later: Store, cpe: Id, seen: Seen, c: Id)
    requires cpe in s.cpes && Observes(s, later, cpe, seen)
    ensures RegistersFollow(s, later, c, if cpe == c then seen else Seen(None, None))
  {
    hide Observes, FieldHolds, MeasureHolds, After, With;
    forall f, r | FieldHolds(s, c, f, r)
      ensures FieldHolds(later, c, f, After(r, if cpe == c then seen.inventory else None, f))
    {
      ObservedField(s, later, cpe, seen, c, f, r);
    }
    forall path, name, history | MeasureHolds(s, c, path, name, history)
      ensures MeasureHolds(later, c, path, name, With(history, if cpe == c then seen.telemetry else None))
    {
      ObservedMeasure(s, later, cpe, seen, c, path, name, history);
    }
  }

  /** Writing the row of a CPE, new or with another manufacturer, touches no register. */
  lemma UpsertFollows(s: Store, cpe: Id, row: Cpe, inv: Inventory, c: Id)
    requires forall f :: Column(row, f) == ColumnOf(s, cpe, f)
    ensures var mid := s.(cpes := s.cpes[cpe := row]);
            RegistersFollow(s, UpdateInventory(mid, cpe, inv), c, Seen(if cpe == c then Some(inv) else None, None))
  {
    hide Holds, TelemetryHolds, UpdateInventory, UpdateTelemetry, After, Column, RecordAll, TelemetrySamples, With;
    var mid := s.(cpes := s.cpes[cpe := row]);
    assert forall f :: ColumnOf(mid, c, f) == ColumnOf(s, c, f);
    UpdateObserves(mid, cpe, inv);
    ObservedFollows(mid, UpdateInventory(mid, cpe, inv), cpe, Seen(Some(inv), None), c);
    assert forall f, r :: FieldHolds(s, c, f, r) ==> FieldHolds(mid, c, f, r);
    assert forall path, name, history :: MeasureHolds(s, c, path, name, history) ==>
             MeasureHolds(mid, c, path, name, history);
  }

  lemma UpdateObserves(s: Store, cpe: Id, inv: Inventory)
    requires cpe in s.cpes
    ensures Observes(s, UpdateInventory(s, cpe, inv), cpe, Seen(Some(inv), None))
  {
    hide WrittenFields, WrittenCpe, Revoked;
  }

  lemma AcceptFollows(p: Policy, db: Db, token: string, d: Device, inv: Inventory, now: Time, expiresAt: Time, c: Id)
    requires db.next !in db.store.cpes
    ensures var a := DoAccept(token, d, inv, now, expiresAt);
            RegistersFollow(db.store, Settle(db, Accept(db, token, d, inv, now, expiresAt)).store, c,
                            SeenBy(p, db, a, c))
  {
    hide UpdateInventory, RegistersFollow;
    if token in db.sessions {
      SameFollows(db.store, db.store, c);
    } else {
      var found := CpeByIdentity(db.store.cpes, d.oui, d.productClass, d.serial);
      var cpe := if found.Some? then found.value else db.next;
      var row := if found.Some? then db.store.cpes[cpe].(manufacturer := d.manufacturer)
                 else Cpe(d.manufacturer, d.oui, d.productClass, d.serial, None, None, None);
      UpsertFollows(db.store, cpe, row, inv, c);
    }
  }

  lemma ExchangeFollows(p: Policy, db: Db, token: string, reply: Option<Reply>, rpcId: string, now: Time, c: Id)
    ensures var a := DoExchange(token, reply, rpcId, now);
            RegistersFollow(db.store, Settle(db, Exchange(p, db, token, reply, rpcId, now)).store, c,
                            SeenBy(p, db, a, c))
  {
    hide RegistersFollow, Expire, AdvanceActive, Poll, Answer, Recording, Stored, Lasts, Observes, ValuesAll,
      NoNewSuccess;
    SameFollows(db.store, db.store, c);
    if token in db.sessions && db.sessions[token].cpe in db.store.cpes {
      var cpe := db.sessions[token].cpe;
      var d := Prepared(p, db, cpe, now);
      PreparedQuiet(p, db, cpe, now);
      SameSessions(p, db, cpe, now, token);
      if reply.None? {
        PollDispatches(p, d, token, rpcId, now);
      } else {
        AnswerStores(p, d, token, reply.value, now);
        var v := Recording(p, d, token, reply.value, now);
        if v.Some? {
          var w := v.value.verdict;
          StoredObserves(d.store, cpe, w);
          ObservedFollows(d.store, Stored(d.store, cpe, w), cpe, Seen(w.inventory, w.telemetry), c);
        }
      }
    }
  }

  lemma StepFollows(p: Policy, db: Db, a: Action, c: Id)
    requires db.next !in db.store.cpes
    ensures RegistersFollow(db.store, Act(p, db, a).store, c, SeenBy(p, db, a, c))
  {
    hide RegistersFollow, Create, Get, CreateJob, GetJob, Exchange, Accept, Complete, Bind, Approve, Lasts, Prepared,
      Recording;
    match a
    case DoExchange(token, reply, rpcId, now) => ExchangeFollows(p, db, token, reply, rpcId, now, c);
    case DoAccept(token, d, inv, now, expiresAt) => AcceptFollows(p, db, token, d, inv, now, expiresAt, c);
    case _ =>
      OtherStores(p, db, a);
      SameFollows(db.store, Act(p, db, a).store, c);
  }

  lemma OtherStores(p: Policy, db: Db, a: Action)
    requires !a.DoExchange? && !a.DoAccept?
    ensures var later := Act(p, db, a).store;
            later.fields == db.store.fields && later.cpes == db.store.cpes && later.telemetry == db.store.telemetry
  {
    hide Create, Get, CreateJob, GetJob, Complete, Bind, Approve, Lasts;
    match a
    case DoCreate(r, discovered, now) => CreateEffects(p, db, r, discovered, now);
    case DoGet(cpe, id, now) => EndEffects(db, "", cpe, id, now);
    case DoCreateJob(cpe, spec, key, now) => CreateJobEffects(p, db, cpe, spec, key, now);
    case DoGetJob(cpe, id, now) => GetJobEffects(p, db, cpe, id, now);
    case DoComplete(token, now) => EndEffects(db, token, 0, 0, now);
    case DoBind(cpe, operation, key, _) => ApprovalEffects(db, cpe, operation, key, 0, 0);
    case DoApprove(cpe, actor, seen, now) => ApprovalEffects(db, cpe, seen, 0, actor, now);
    case _ =>
  }

  // ----- Every run -----

  lemma {:induction false} RunFollows(p: Policy, actions: seq<Action>, c: Id, f: Field, path: string,
                                      name: TelemetryName)
    requires Contract(p) && AllPossible(actions)
    ensures var s := Run(p, EMPTY, actions).store;
            && FieldHolds(s, c, f, RecordAll(Samples(Inventories(p, actions, c), f)))
            && MeasureHolds(s, c, path, name, Collections(p, actions, c))
  {
    hide Contract, Possible, Act, Inv, SeenBy, FieldHolds, MeasureHolds, RecordAll, Samples;
    if actions == [] {
      NothingObserved(c, f, path, name);
    } else {
      var n := |actions| - 1;
      var db := Run(p, EMPTY, actions[..n]);
      RunFollows(p, actions[..n], c, f, path, name);
      EmptyInv(p);
      RunKeeps(p, EMPTY, actions[..n]);
      NextIsFree(p, db);
      StepFollows(p, db, actions[n], c);
      SamplesAfter(Inventories(p, actions[..n], c), SeenBy(p, db, actions[n], c).inventory, f);
    }
  }

  lemma NothingObserved(c: Id, f: Field, path: string, name: TelemetryName)
    ensures FieldHolds(EMPTY.store, c, f, RecordAll(Samples([], f))) && MeasureHolds(EMPTY.store, c, path, name, [])
  {}

  lemma SamplesAfter(history: seq<Inventory>, seen: Option<Inventory>, f: Field)
    ensures var later := history + if seen.Some? then [seen.value] else [];
            RecordAll(Samples(later, f)) == After(RecordAll(Samples(history, f)), seen, f)
  {
    hide SampleOf, Record;
    var later := history + if seen.Some? then [seen.value] else [];
    if seen.None? {
      assert later == history;
    } else {
      assert later[..|history|] == history;
      if Observed(seen.value, f).NotReported? {
        assert Samples(history, f) + [] == Samples(history, f);
      } else {
        RecordAllAppend(Samples(history, f), SampleOf(seen.value, f));
      }
    }
  }

  /** After any run, the row and the column of every inventory field are those of the explained register of what the
      Informs of the CPE and its recorded reads reported of that field. */
  lemma InventoryOfRun(p: Policy, actions: seq<Action>, c: Id, f: Field)
    requires Contract(p) && AllPossible(actions)
    ensures var s, samples := Run(p, EMPTY, actions).store, Samples(Inventories(p, actions, c), f);
            Holds(RowAt(s.fields, c, f), ColumnOf(s, c, f), RecordAll(samples)) && Explains(samples, RecordAll(samples))
  {
    hide Contract, AllPossible, Run, Inventories, Holds, Explains, RecordAll, Samples;
    RunFollows(p, actions, c, f, "", Ipv4);
    RegisterExplained(Samples(Inventories(p, actions, c), f));
  }

  /** After any run, the row of every telemetry field is that of the explained register of what the recorded reads of
      the CPE under that path reported of it. */
  lemma TelemetryOfRun(p: Policy, actions: seq<Action>, c: Id, path: string, name: TelemetryName)
    requires Contract(p) && AllPossible(actions)
    ensures var s, samples := Run(p, EMPTY, actions).store, TelemetrySamples(Collections(p, actions, c), path, name);
            && TelemetryHolds(TelemetryAt(s.telemetry, (c, path, name)), RecordAll(samples))
            && Explains(samples, RecordAll(samples))
  {
    hide Contract, AllPossible, Run, Collections, TelemetryHolds, Explains, RecordAll, TelemetrySamples;
    RunFollows(p, actions, c, ModelField, path, name);
    RegisterExplained(TelemetrySamples(Collections(p, actions, c), path, name));
  }
}
