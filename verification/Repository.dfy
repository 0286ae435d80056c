/** The repository itself: tables that its methods update in place, one transaction per public method. Each method is
    proved to do exactly what the queue's state functions say, and to undo everything when it raises. */
module Repository {
  import opened Text
  import opened Domain
  import opened Policies
  import opened Jobs
  import opened Registers
  import opened Queue
  import opened StoredValues
  import opened Invariants
  import opened QueueProofs
  import opened OperationProofs
  import opened Runs
  import Validation

  // ----- Loops that need no tables -----

  /** Ascending order of a set of paths, by insertion. */
  method Ordered(paths: set<string>) returns (r: seq<string>)
    ensures r == SortedNames(paths)
  {
    var left := paths;
    r := [];
    while left != {}
      invariant left <= paths && Ascending(Self, r) && forall x :: x in r <==> x in paths - left
      decreases left
    {
      var x :| x in left;
      ghost var was := r;
      InsertAscends(Self, x, r);
      InsertKeeps(Self, x, r);
      r := Insert(Self, x, r);
      assert forall y :: y in r <==> y in multiset(r);
      assert forall y :: y in was <==> y in multiset(was);
      left := left - {x};
    }
    AscendingUnique(Self, r, SortedNames(paths));
  }

  /** The loop that turns the entries of a finished walk operation into frontier steps. */
  method Enqueue(job: Job, entries: seq<Entry>) returns (r: Job)
    ensures r == AddEntries(job, entries, |entries|)
  {
    hide Concrete, Limited;
    r := job;
    for i := 0 to |entries|
      invariant r == AddEntries(job, entries, i)
    {
      var e := entries[i];
      if e.isObject {
        if r.depth >= r.spec.maxDepth {
          r := Limited(r, MaxDepth);
        } else if Concrete(e.path) {
          r := r.(frontier := r.frontier + [Step(r.depth + 1, Some(e.path), [])]);
        } else {
          r := Limited(r, UnsupportedBranch);
        }
      }
    }
  }

  /** The loop that pops the frontier until a step becomes an operation or the job ends. */
  method LaunchNext(p: Policy, target: Target, first: Job, id: Id, now: Time) returns (job: Job, op: Option<Op>)
    ensures (job, op) == Launch(p, target, first, id, now)
  {
    hide Limited, Closed;
    job := first;
    while job.frontier != []
      invariant Launch(p, target, job, id, now) == Launch(p, target, first, id, now)
      decreases |job.frontier|
    {
      if job.rpcCount >= job.spec.maxRpcs {
        return Closed(Limited(job, MaxRpcs), now), None;
      }
      if job.entryCount >= job.spec.maxEntries {
        return Closed(Limited(job, MaxEntries), now), None;
      }
      var step, names := job.frontier[0], HeadNames(job);
      PoppedShorter(job);
      job := Popped(job);
      match p.plan(target, ScopeOf(job), step.path, names) {
        case None =>
          job := job.(failures := job.failures + [PlanFailure]);
        case Some(plan) =>
          return job.(current := Some(id), depth := step.depth, rpcCount := job.rpcCount + 1,
                      opIds := job.opIds + [id]),
                 Some(NewOp(StepAsk(job, step, names, plan, id, now)));
      }
    }
    return Closed(job, now), None;
  }

  lemma PoppedShorter(job: Job)
    requires job.frontier != [] && job.entryCount < job.spec.maxEntries
    ensures var r := Popped(job);
            && r.frontier == job.frontier[1..] && r.spec == job.spec && r.rpcCount == job.rpcCount
            && r.entryCount == job.entryCount
            && r.cpe == job.cpe
  {}

  // ----- What a raised error leaves -----

  /** A transaction that commits leaves the new tables, one that raises the old ones. */
  ghost predicate Transacted<R>(o: Outcome<R>, before: Db, after: Db, r: Result<R>) {
    match o
    case Commit(d, v) => after == d && r == Ok(v)
    case Raised(e) => after == before && r == Err(e)
  }

  /** The same inside a transaction, where a raised error is about to be rolled back. */
  ghost predicate Stepped<R>(o: Outcome<R>, after: Db, r: Result<R>) {
    match o
    case Commit(d, v) => after == d && r == Ok(v)
    case Raised(e) => r == Err(e)
  }

  /** One of these operations was dispatched through the session. */
  ghost predicate Carries(done: set<Id>, attempts: map<Id, Attempt>, t: string) {
    exists i :: i in done && i in attempts && attempts[i].session == t
  }

  lemma NoneCarries(attempts: map<Id, Attempt>)
    ensures forall t :: !Carries({}, attempts, t)
  {}

  lemma EndedAgain(now: Time)
    ensures forall s :: Ended(Ended(s, now), now) == Ended(s, now)
  {}

  lemma CarriesOneMore(done: set<Id>, i: Id, attempts: map<Id, Attempt>)
    ensures forall t :: Carries(done + {i}, attempts, t) <==>
      Carries(done, attempts, t) || (i in attempts && attempts[i].session == t)
  {}

  lemma CarriesDue(ops: map<Id, Op>, attempts: map<Id, Attempt>, cpe: Id, now: Time, due: set<Id>)
    requires forall i :: i in due <==> i in ops && Due(ops[i], cpe, now)
    ensures forall t :: Carries(due, attempts, t) <==> ExpiresWith(ops, attempts, cpe, now, t)
  {}

  // ----- Inventory fields one by one -----

  function Found(values: map<Field, string>, f: Field): Option<string> { if f in values then Some(values[f]) else None }

  function WrittenField(rows: map<(Id, Field), FieldRow>, cpe: Id, f: Field,
                        inv: Inventory): map<(Id, Field), FieldRow> {
    if Applies(rows, cpe, f, inv) then rows[(cpe, f) := WriteField(RowAt(rows, cpe, f), Observed(inv, f), inv)]
        else rows
  }

  function WrittenUpTo(rows: map<(Id, Field), FieldRow>, cpe: Id, inv: Inventory, n: nat): map<(Id, Field), FieldRow>
    requires n <= 3
  {
    if n == 0 then rows else WrittenField(WrittenUpTo(rows, cpe, inv, n - 1), cpe, FIELDS[n - 1], inv)
  }

  lemma FieldsDistinct()
    ensures forall i, j | 0 <= i < j < 3 :: FIELDS[i] != FIELDS[j]
  {}

  lemma NotYetWritten(later: map<(Id, Field), FieldRow>, rows: map<(Id, Field), FieldRow>, cpe: Id, inv: Inventory,
                      i: nat)
    requires i < 3 && later == WrittenUpTo(rows, cpe, inv, i)
    ensures NewValue(later, cpe, FIELDS[i], inv) == NewValue(rows, cpe, FIELDS[i], inv)
  {
    FieldsDistinct();
    if i > 0 { RowKept(rows, cpe, inv, i, FIELDS[i]); }
  }

  lemma {:induction false} RowKept(rows: map<(Id, Field), FieldRow>, cpe: Id, inv: Inventory, n: nat, f: Field)
    requires n <= 3 && forall k | 0 <= k < n :: FIELDS[k] != f
    ensures RowAt(WrittenUpTo(rows, cpe, inv, n), cpe, f) == RowAt(rows, cpe, f)
  {
    hide WriteField;
    if n > 0 { RowKept(rows, cpe, inv, n - 1, f); }
  }

  lemma ThreeWritten(rows: map<(Id, Field), FieldRow>, cpe: Id, inv: Inventory)
    ensures WrittenUpTo(rows, cpe, inv, 3) ==
              WrittenField(WrittenField(WrittenField(rows, cpe, ModelField, inv), cpe, FirmwareField, inv), cpe,
                           HardwareField, inv)
  {
    hide WrittenField;
    assert WrittenUpTo(rows, cpe, inv, 0) == rows;
    assert WrittenUpTo(rows, cpe, inv, 1) == WrittenField(rows, cpe, FIELDS[0], inv);
  }

  lemma RowWritten(rows: map<(Id, Field), FieldRow>, cpe: Id, inv: Inventory, f: Field)
    ensures RowAt(WrittenUpTo(rows, cpe, inv, 3), cpe, f)
         == if Applies(rows, cpe, f, inv) then Some(WriteField(RowAt(rows, cpe, f), Observed(inv, f), inv))
            else RowAt(rows, cpe, f)
  {
    hide WriteField, Observed, WrittenUpTo;
    ThreeWritten(rows, cpe, inv);
  }

  lemma OthersWritten(rows: map<(Id, Field), FieldRow>, cpe: Id, inv: Inventory, k: (Id, Field))
    requires k.0 != cpe
    ensures RowAt(WrittenUpTo(rows, cpe, inv, 3), k.0, k.1) == RowAt(WrittenFields(rows, cpe, inv), k.0, k.1)
  {
    hide WriteField, Observed, WrittenUpTo;
    ThreeWritten(rows, cpe, inv);
  }

  /** Writing the fields one after the other is writing them all from the rows before. */
  lemma AllWritten(rows: map<(Id, Field), FieldRow>, cpe: Id, inv: Inventory)
    ensures WrittenUpTo(rows, cpe, inv, 3) == WrittenFields(rows, cpe, inv)
  {
    hide WriteField, Observed, WrittenUpTo, WrittenFields;
    var later, all := WrittenUpTo(rows, cpe, inv, 3), WrittenFields(rows, cpe, inv);
    forall k ensures (k in later <==> k in all) && (k in all ==> later[k] == all[k]) {
      if k.0 == cpe {
        assert k == (cpe, k.1);
        RowAfter(rows, cpe, inv, k.1);
        RowWritten(rows, cpe, inv, k.1);
      } else {
        OthersWritten(rows, cpe, inv, k);
      }
    }
  }

  lemma NothingCatalogued(catalog: map<PathKey, CatalogRow>, values: map<PathKey, ValueRow>, cpe: Id, id: Id, now: Time)
    ensures CatalogAll(catalog, cpe, [], 0, id, now) == catalog && ValuesAll(values, cpe, [], 0, id, now) == values
  {}

  // ----- Identities of CPEs -----

  /** The unique constraint on the identity of a CPE. */
  ghost predicate OneIdentity(cpes: map<Id, Cpe>) {
    forall c, d | c in cpes && d in cpes && cpes[c].oui == cpes[d].oui && cpes[c].productClass == cpes[d].productClass
                  && cpes[c].serial == cpes[d].serial :: c == d
  }

  ghost predicate SameIdentities(cpes: map<Id, Cpe>, later: map<Id, Cpe>) {
    && cpes.Keys == later.Keys
    && forall c | c in cpes ::
         later[c].oui == cpes[c].oui && later[c].productClass == cpes[c].productClass
         && later[c].serial == cpes[c].serial
  }

  lemma SameIdentity(cpes: map<Id, Cpe>)
    ensures SameIdentities(cpes, cpes)
  {}

  lemma IdentitiesStay(cpes: map<Id, Cpe>, later: map<Id, Cpe>)
    requires OneIdentity(cpes) && SameIdentities(cpes, later)
    ensures OneIdentity(later)
  {}

  lemma InventoryKeepsIdentities(s: Store, cpe: Id, inv: Inventory)
    requires cpe in s.cpes
    ensures SameIdentities(s.cpes, UpdateInventory(s, cpe, inv).cpes)
  {}

  /** Recording a reply leaves identities alone, and no job starts running. */
  lemma RecordedTables(p: Policy, db: Db, token: string, id: Id, plan: Plan, reply: Reply, v: Verdict,
                       evidence: Option<string>, now: Time)
    requires token in db.sessions && id in db.ops && id in db.attempts && db.sessions[token].cpe in db.store.cpes
             && OneRunning(db.jobs)
    ensures var d := Recorded(p, db, token, id, plan, reply, v, evidence, now);
            SameIdentities(db.store.cpes, d.store.cpes) && OneRunning(d.jobs)
  {
    hide CatalogAll, ValuesAll, DigestOf, Finish, AnsweredOp;
    if v.inventory.Some? { InventoryKeepsIdentities(db.store, db.sessions[token].cpe, v.inventory.value); }
  }

  /** What lookups rely on. */
  lemma Unique(p: Policy, db: Db)
    requires Inv(p, db)
    ensures OneRunning(db.jobs) && OneActive(db.ops) && OneAttemptEach(db.attempts) && OpKeys(db.ops)
            && JobKeys(db.jobs)
  {
    hide JobsOk, Accounted, CatalogSourced, ValuesSourced, StoreOk, OpsOk, AttemptsOk, WaitersAttempted;
  }

  lemma ExpiredParts(p: Policy, db: Db, cpe: Id, now: Time)
    requires Inv(p, db)
    ensures var d := Expire(db, cpe, now);
            && Inv(p, d) && d.store == db.store && d.jobs == db.jobs && d.next == db.next
  {
    hide Core, Steady;
    ExpireKeeps(p, db, cpe, now);
  }

  lemma AcceptIdentities(db: Db, token: string, d: Device, inv: Inventory, now: Time, expiresAt: Time)
    requires OneIdentity(db.store.cpes) && db.next !in db.store.cpes
    ensures var o := Accept(db, token, d, inv, now, expiresAt); o.Commit? ==> OneIdentity(o.db.store.cpes)
  {
    hide UpdateInventory;
    var found := CpeByIdentity(db.store.cpes, d.oui, d.productClass, d.serial);
    var cpe := if found.Some? then found.value else db.next;
    var row := if found.Some? then db.store.cpes[cpe].(manufacturer := d.manufacturer)
               else Cpe(d.manufacturer, d.oui, d.productClass, d.serial, None, None, None);
    var store := db.store.(cpes := db.store.cpes[cpe := row]);
    assert OneIdentity(store.cpes);
    InventoryKeepsIdentities(store, cpe, inv);
    IdentitiesStay(store.cpes, UpdateInventory(store, cpe, inv).cpes);
  }

  class QueryRepository {
    const policy: Policy
    var next: Id
    var sessions: map<string, Session>
    var ops: map<Id, Op>
    var attempts: map<Id, Attempt>
    var jobs: map<Id, Job>
    var catalog: map<PathKey, CatalogRow>
    var values: map<PathKey, ValueRow>
    var cpes: map<Id, Cpe>
    var fields: map<(Id, Field), FieldRow>
    var telemetry: map<TelemetryKey, TelemetryRow>
    var approvals: map<Id, Approval>

    function Tables(): Db
      reads this
    {
      Db(next, sessions, ops, attempts, jobs, catalog, values, Store(cpes, fields, telemetry, approvals))
    }

    ghost predicate Valid()
      reads this
    {
      Contract(policy) && Inv(policy, Tables()) && OneIdentity(cpes)
    }

    constructor (policy: Policy)
      requires Contract(policy)
      ensures Valid() && this.policy == policy && Tables() == EMPTY
    {
      this.policy := policy;
      next := 0;
      sessions, ops, attempts, jobs, catalog, values := map[], map[], map[], map[], map[], map[];
      cpes, fields, telemetry, approvals := map[], map[], map[], map[];
      EmptyInv(policy);
    }

    method Rollback(d: Db)
      modifies this
      ensures Tables() == d
    {
      next, sessions, ops, attempts, jobs, catalog, values := d.next, d.sessions, d.ops, d.attempts, d.jobs, d.catalog,
          d.values;
      cpes, fields, telemetry, approvals := d.store.cpes, d.store.fields, d.store.telemetry, d.store.approvals;
    }

    // ----- Lookups -----

    method FindRunning(cpe: Id) returns (r: Option<Id>)
      requires OneRunning(jobs)
      ensures r == ActiveJob(jobs, cpe)
    {
      if j :| j in jobs && jobs[j].cpe == cpe && jobs[j].state.JobRunning? { r := Some(j); } else { r := None; }
    }

    method FindPending(cpe: Id) returns (r: Option<Id>)
      requires OneActive(ops)
      ensures r == PendingOp(ops, cpe)
    {
      if i :| i in ops && ops[i].ask.cpe == cpe && ops[i].state.Pending? { r := Some(i); } else { r := None; }
    }

    method FindAttempt(token: string) returns (r: Option<Id>)
      requires OneAttemptEach(attempts)
      ensures r == AttemptOf(attempts, token)
    {
      if i :| i in attempts && attempts[i].session == token { r := Some(i); } else { r := None; }
    }

    method FindAnswered(token: string, rpcId: string) returns (r: Option<Id>)
      requires OneAttemptEach(attempts)
      ensures r == AttemptFor(attempts, token, rpcId)
    {
      if i :| i in attempts && attempts[i].session == token && attempts[i].rpcId == rpcId {
        r := Some(i);
      } else {
        r := None;
      }
    }

    method FindOp(cpe: Id, key: Key) returns (r: Option<Id>)
      requires OpKeys(ops)
      ensures r == OpByKey(ops, cpe, key)
    {
      if i :| i in ops && ops[i].ask.cpe == cpe && ops[i].ask.key == key { r := Some(i); } else { r := None; }
    }

    method FindJob(cpe: Id, key: Key) returns (r: Option<Id>)
      requires JobKeys(jobs)
      ensures r == JobByKey(jobs, cpe, key)
    {
      if j :| j in jobs && jobs[j].cpe == cpe && jobs[j].key == key { r := Some(j); } else { r := None; }
    }

    method FindCpe(d: Device) returns (r: Option<Id>)
      requires OneIdentity(cpes)
      ensures r == CpeByIdentity(cpes, d.oui, d.productClass, d.serial)
    {
      if c :| c in cpes && cpes[c].oui == d.oui && cpes[c].productClass == d.productClass
              && cpes[c].serial == d.serial
      {
        r := Some(c);
      } else {
        r := None;
      }
    }

    // ----- Expiring -----

    /** Expires one row and ends the session that carried it. */
    method ExpireRow(i: Id, now: Time)
      requires i in ops
      modifies `ops, `sessions
      ensures ops == old(ops)[i := ExpiredOp(old(ops)[i], now)]
      ensures sessions.Keys == old(sessions).Keys
      ensures forall t | t in sessions ::
                sessions[t] == if i in attempts && attempts[i].session == t then Ended(old(sessions)[t], now)
                    else old(sessions)[t]
    {
      ops := ops[i := ExpiredOp(ops[i], now)];
      if i in attempts && attempts[i].session in sessions {
        var t := attempts[i].session;
        if !sessions[t].state.Completed? {
          sessions := sessions[t := sessions[t].(state := Completed, completedAt := Some(now))];
        }
      }
    }

    /** Expires every overdue operation of a CPE, one row at a time, and ends the sessions that carried them. */
    method ExpireDue(cpe: Id, now: Time)
      modifies `ops, `sessions
      ensures Tables() == Expire(old(Tables()), cpe, now)
    {
      hide Carries, Due, ExpiredOp, Ended, ExpiresWith;
      var due := set i | i in ops && Due(ops[i], cpe, now);
      var left := due;
      ghost var done: set<Id> := {};
      NoneCarries(attempts);
      while left != {}
        invariant left <= due && done == due - left
        invariant ops.Keys == old(ops).Keys && sessions.Keys == old(sessions).Keys
        invariant forall i | i in ops :: ops[i] == if i in done then ExpiredOp(old(ops)[i], now) else old(ops)[i]
        invariant forall t | t in sessions ::
                    sessions[t] == if Carries(done, attempts, t) then Ended(old(sessions)[t], now) else old(sessions)[t]
        decreases left
      {
        var i :| i in left;
        CarriesOneMore(done, i, attempts);
        EndedAgain(now);
        ExpireRow(i, now);
        left := left - {i};
        done := done + {i};
      }
      assert ops == ExpireOps(old(ops), cpe, now);
      CarriesDue(old(ops), attempts, cpe, now, done);
      assert sessions == ExpireSessions(old(sessions), old(ops), attempts, cpe, now);
    }

    // ----- Advancing a job -----

    method CitedEntries(cpe: Id, id: Id) returns (entries: seq<Entry>)
      ensures entries == EntriesOf(catalog, cpe, id)
    {
      var rows := catalog;
      var paths := Ordered(CitedPaths(rows, id));
      entries := seq(|paths|, i requires 0 <= i < |paths| =>
        Entry(paths[i], (cpe, paths[i]) in rows && rows[(cpe, paths[i])].isObject));
    }

    /** Accounts for a finished operation and launches the next one. */
    method AdvanceJob(j: Id, now: Time)
      requires j in jobs
      modifies `next, `ops, `jobs
      ensures Tables() == Advance(policy, old(Tables()), j, now) && j in jobs
    {
      hide Launch, AddEntries, EntriesOf;
      var job := jobs[j];
      if !job.state.JobRunning? || job.cpe !in cpes { return; }
      if job.current.Some? && job.current.value in ops {
        var id := job.current.value;
        var op := ops[id];
        if Active(op) { return; }
        if !op.state.Succeeded? {
          job := job.(completed := job.completed + 1, current := None,
                      failures := job.failures + [OpFailure(id, op.reason)]);
        } else if job.spec.kind.WalkJob? {
          var entries := CitedEntries(job.cpe, id);
          job := Enqueue(Counted(job, |entries|), entries);
        } else {
          job := Counted(job, |op.result|);
        }
      }
      assert job == ReadyJob(old(Tables()), old(jobs)[j]);
      var launched, op := LaunchNext(policy, TargetOf(cpes[jobs[j].cpe]), job, next, now);
      jobs := jobs[j := launched];
      if op.Some? {
        ops := ops[next := op.value];
        next := next + 1;
      }
    }

    method AdvanceRunning(cpe: Id, now: Time)
      requires OneRunning(jobs)
      modifies `next, `ops, `jobs
      ensures Tables() == AdvanceActive(policy, old(Tables()), cpe, now)
    {
      hide Advance;
      var found := FindRunning(cpe);
      if found.Some? { AdvanceJob(found.value, now); }
    }

    // ----- Recording a reply -----

    method CatalogNames(cpe: Id, names: seq<Info>, id: Id, now: Time)
      modifies `catalog
      ensures catalog == CatalogAll(old(catalog), cpe, names, |names|, id, now)
    {
      for i := 0 to |names|
        invariant catalog == CatalogAll(old(catalog), cpe, names, i, id, now)
      {
        var k := (cpe, names[i].name);
        if k !in catalog || catalog[k].observedAt <= now {
          catalog := catalog[k := CatalogRow(IsObjectName(names[i].name), names[i].writable, now, id)];
        }
      }
    }

    method StoreValues(cpe: Id, ps: seq<Parameter>, id: Id, now: Time)
      modifies `values
      ensures values == ValuesAll(old(values), cpe, ps, |ps|, id, now)
      ensures DistinctBy(ParameterName, ps) ==> ValuesKept(old(values), values, cpe, ps, |ps|, id, now)
    {
      hide ValuesKept, DistinctBy;
      for i := 0 to |ps|
        invariant values == ValuesAll(old(values), cpe, ps, i, id, now)
      {
        var k := (cpe, ps[i].name);
        if k !in values || values[k].observedAt <= now {
          values := values[k := ValueRow(ps[i].xsdType, ps[i].value, now, id)];
        }
      }
      if DistinctBy(ParameterName, ps) { ValuesExactly(old(values), cpe, ps, |ps|, id, now); }
    }

    /** Writes one field that an inventory reports, unless its row is as new; returns its value when valid. */
    method WriteInventoryField(cpe: Id, f: Field, inv: Inventory) returns (value: Option<string>)
      modifies `fields
      ensures fields == WrittenField(old(fields), cpe, f, inv) && value == NewValue(old(fields), cpe, f, inv)
    {
      var obs := Observed(inv, f);
      value := None;
      if !obs.NotReported? && !((cpe, f) in fields && inv.receivedAt <= fields[(cpe, f)].observedAt) {
        fields := fields[(cpe, f) := WriteField(if (cpe, f) in fields then Some(fields[(cpe, f)]) else None, obs, inv)];
        if obs.ValidText? { value := Some(obs.value); }
      }
    }

    /** Writes every field that an inventory reports and that is newer than its row, then the CPE and its approval. */
    method WriteInventory(cpe: Id, inv: Inventory)
      requires cpe in cpes
      modifies `fields, `cpes, `approvals
      ensures Store(cpes, fields, telemetry, approvals)
           == UpdateInventory(old(Store(cpes, fields, telemetry, approvals)), cpe, inv)
    {
      hide WrittenField, NewValue, WrittenFields;
      var found: map<Field, string> := map[];
      for i := 0 to 3
        invariant cpes == old(cpes) && approvals == old(approvals) && fields == WrittenUpTo(old(fields), cpe, inv, i)
        invariant forall k | 0 <= k < 3 :: Found(found, FIELDS[k]) ==
                      if k < i then NewValue(old(fields), cpe, FIELDS[k], inv) else None
      {
        NotYetWritten(fields, old(fields), cpe, inv, i);
        FieldsDistinct();
        var value := WriteInventoryField(cpe, FIELDS[i], inv);
        if value.Some? { found := found[FIELDS[i] := value.value]; }
      }
      AllWritten(old(fields), cpe, inv);
      assert FIELDS[0] == ModelField && FIELDS[1] == FirmwareField && FIELDS[2] == HardwareField;
      var firmware := Found(found, FirmwareField);
      if firmware.Some? && cpe in approvals && firmware.value != approvals[cpe].expectedFirmware {
        var was := approvals[cpe];
        approvals :=
          approvals[cpe := was.(expectedFirmware := REVALIDATION_REQUIRED, approvedAt := None, approvedBy := None)];
      }
      if found != map[] {
        var c := cpes[cpe];
        cpes := cpes[cpe := c.(model := Or(Found(found, ModelField), c.model), firmware := Or(firmware, c.firmware),
                               hardware := Or(Found(found, HardwareField), c.hardware))];
      }
      assert approvals == UpdateInventory(old(Store(cpes, fields, telemetry, approvals)), cpe, inv).approvals;
      assert cpes == old(cpes)[cpe := WrittenCpe(old(cpes)[cpe], old(fields), cpe, inv)];
    }

    method WriteTelemetryFields(cpe: Id, c: Collection)
      modifies `telemetry
      ensures telemetry == RecordObservations(old(telemetry), cpe, c, |c.fields|)
    {
      hide WriteTelemetry;
      for i := 0 to |c.fields|
        invariant telemetry == RecordObservations(old(telemetry), cpe, c, i)
      {
        var o := c.fields[i];
        var k := (cpe, c.path, o.name);
        if k !in telemetry || telemetry[k].observedAt < c.receivedAt {
          telemetry := telemetry[k := WriteTelemetry(if k in telemetry then Some(telemetry[k]) else None, c, o)];
        }
      }
    }

    method EndSession(token: string, now: Time)
      requires token in sessions
      modifies `sessions
      ensures sessions == Finish(old(sessions), token, now)
    {
      var s := sessions[token];
      var ended := if s.completedAt.Some? then s.completedAt else Some(now);
      sessions := sessions[token := s.(state := Completed, completedAt := ended)];
    }

    /** Catalogues the names of an accepted names reply, within the running job's entry budget. */
    method WriteNames(cpe: Id, id: Id, names: seq<Info>, now: Time)
      requires OneRunning(jobs)
      modifies `jobs, `catalog
      ensures var (kept, limited) := Truncate(old(jobs), cpe, id, names);
              jobs == limited && catalog == CatalogAll(old(catalog), cpe, kept, |kept|, id, now)
    {
      hide CatalogAll, SortBy, Limited;
      var kept := names;
      var found := FindRunning(cpe);
      if found.Some? && jobs[found.value].current == Some(id) {
        var remaining := jobs[found.value].spec.maxEntries - jobs[found.value].entryCount;
        if |names| > remaining && 0 <= remaining {
          jobs := jobs[found.value := Limited(jobs[found.value], MaxEntries)];
          SortMembers(InfoName, names);
          kept := SortBy(InfoName, names)[..remaining];
        }
      }
      CatalogNames(cpe, kept, id, now);
    }

    method WriteStore(cpe: Id, v: Verdict)
      requires cpe in cpes
      modifies `fields, `cpes, `approvals, `telemetry
      ensures Store(cpes, fields, telemetry, approvals)
           == Stored(old(Store(cpes, fields, telemetry, approvals)), cpe, v)
    {
      hide WrittenFields, WrittenCpe, RecordObservations;
      if v.inventory.Some? { WriteInventory(cpe, v.inventory.value); }
      if v.telemetry.Some? { WriteTelemetryFields(cpe, v.telemetry.value); }
    }

    /** The names or values of a successful reply. */
    method WriteItems(cpe: Id, id: Id, plan: Plan, reply: Reply, v: Verdict, now: Time)
      requires OneRunning(jobs)
      modifies `jobs, `catalog, `values
      ensures var (names, limited) := if reply.NamesReply? && v.reason.None?
              then Truncate(old(jobs), cpe, id, reply.names) else ([], old(jobs));
              jobs == limited && catalog == CatalogAll(old(catalog), cpe, names, |names|, id, now)
      ensures var ps := if reply.ValuesReply? && v.reason.None? then policy.permitted(reply.parameters, plan) else [];
              values == ValuesAll(old(values), cpe, ps, |ps|, id, now)
    {
      hide CatalogAll, ValuesAll, Truncate;
      NothingCatalogued(catalog, values, cpe, id, now);
      if reply.NamesReply? && v.reason.None? { WriteNames(cpe, id, reply.names, now); }
      if reply.ValuesReply? && v.reason.None? { StoreValues(cpe, policy.permitted(reply.parameters, plan), id, now); }
    }

    /** Everything that one accepted reply writes. */
    method Record(token: string, id: Id, plan: Plan, reply: Reply, v: Verdict, evidence: Option<string>, now: Time)
      requires token in sessions && id in ops && id in attempts && sessions[token].cpe in cpes && OneRunning(jobs)
      modifies this
      ensures Tables() == Recorded(policy, old(Tables()), token, id, plan, reply, v, evidence, now)
    {
      hide CatalogAll, ValuesAll, Stored, DigestOf, AnsweredOp, Finish, Truncate;
      WriteItems(sessions[token].cpe, id, plan, reply, v, now);
      WriteStore(sessions[token].cpe, v);
      MarkAnswered(token, id, reply, v, evidence, now);
    }

    /** The operation, its attempt and its session after a reply. */
    method MarkAnswered(token: string, id: Id, reply: Reply, v: Verdict, evidence: Option<string>, now: Time)
      requires token in sessions && id in ops && id in attempts
      modifies `ops, `attempts, `sessions
      ensures ops == old(ops)[id := AnsweredOp(old(ops)[id], v, reply, evidence, now)]
      ensures attempts == old(attempts)[id := old(attempts)[id].(digest := Some(DigestOf(reply, v)))]
      ensures sessions == Finish(old(sessions), token, now)
    {
      hide DigestOf, AnsweredOp, Finish;
      ops := ops[id := AnsweredOp(ops[id], v, reply, evidence, now)];
      attempts := attempts[id := attempts[id].(digest := Some(DigestOf(reply, v)))];
      EndSession(token, now);
    }

    // ----- Exchanges -----

    method FailProfile(token: string, id: Id, now: Time)
      requires token in sessions && id in ops
      modifies `ops, `sessions
      ensures Tables() == FailedProfile(old(Tables()), token, id, now)
    {
      hide Finish;
      ops := ops[id := ops[id].(state := Failed, reason := Some(ProfileChanged), finishedAt := Some(now))];
      EndSession(token, now);
    }

    method DispatchTo(token: string, id: Id, rpcId: string, now: Time)
      requires token in sessions && id in ops
      modifies `ops, `sessions, `attempts
      ensures Tables() == Dispatch(old(Tables()), token, id, rpcId, now)
    {
      var deadline := Earlier(ops[id].expiresAt, now + DISPATCH_SECONDS);
      attempts := attempts[id := Attempt(token, rpcId, now, deadline, None)];
      ops := ops[id := ops[id].(state := Dispatched, expiresAt := deadline)];
      sessions := sessions[token := sessions[token].(state := AwaitingResponse, expiresAt := deadline)];
    }

    /** The next command for the device, or the end of its session. */
    method PollSteps(token: string, rpcId: string, now: Time) returns (r: Result<Option<Command>>)
      requires token in sessions && OneAttemptEach(attempts) && OneActive(ops)
      modifies `ops, `sessions, `attempts
      ensures Stepped(Poll(policy, old(Tables()), token, rpcId, now), Tables(), r)
    {
      hide Finish, FailedProfile, Dispatch, RowPlan;
      var s := sessions[token];
      if s.state.Completed? { return Ok(None); }
      if s.expiresAt <= now { return Err(InvalidSession); }
      var resumed := s.state.AwaitingResponse?;
      var found: Option<Id>;
      if resumed { found := FindAttempt(token); } else { found := FindPending(s.cpe); }
      if found.None? {
        if resumed { return Err(InvalidSession); }
        EndSession(token, now);
        return Ok(None);
      }
      var id := found.value;
      if id !in ops || s.cpe !in cpes { return Err(AssertionError); }
      var kind, plan := ops[id].ask.kind, RowPlan(policy, TargetOf(cpes[s.cpe]), ops[id].ask);
      if plan.None? {
        FailProfile(token, id, now);
        return Ok(None);
      }
      if resumed { return Ok(Some(Command(id, attempts[id].rpcId, kind, plan.value))); }
      DispatchTo(token, id, rpcId, now);
      return Ok(Some(Command(id, rpcId, kind, plan.value)));
    }

    /** A judged reply: a replay, a refusal, or the one answer that is recorded. */
    method AnswerJudgedSteps(token: string, id: Id, plan: Plan, reply: Reply, v: Verdict, now: Time)
      returns (r: Result<Option<Command>>)
      requires token in sessions && id in ops && id in attempts && sessions[token].cpe in cpes && OneRunning(jobs)
      modifies this
      ensures Stepped(AnswerJudged(policy, old(Tables()), token, id, plan, reply, v, now), Tables(), r)
      ensures SameIdentities(old(cpes), cpes)
    {
      hide Recorded, AdvanceActive, DigestOf, SameIdentities;
      SameIdentity(cpes);
      var op, cpe := ops[id], sessions[token].cpe;
      if op.state.Succeeded? || op.state.Failed? {
        return if attempts[id].digest == Some(DigestOf(reply, v)) then Ok(None) else Err(InvalidSession);
      }
      if !op.state.Dispatched? || !sessions[token].state.AwaitingResponse? { return Err(InvalidSession); }
      var evidence := if Captures(op, v) then policy.evidence(reply, plan, op.ask.kind, now) else None;
      if Captures(op, v) && evidence.None? { return Err(InvalidEvidence); }
      RecordedTables(policy, Tables(), token, id, plan, reply, v, evidence, now);
      Record(token, id, plan, reply, v, evidence, now);
      AdvanceRunning(cpe, now);
      return Ok(None);
    }

    /** An exchange that carries a reply. */
    method AnswerSteps(token: string, reply: Reply, now: Time) returns (r: Result<Option<Command>>)
      requires token in sessions && OneAttemptEach(attempts) && OneRunning(jobs)
      modifies this
      ensures Stepped(Answer(policy, old(Tables()), token, reply, now), Tables(), r)
      ensures SameIdentities(old(cpes), cpes)
    {
      hide Finish, FailedProfile, RowPlan, Judge, AnswerJudged, SameIdentities;
      SameIdentity(cpes);
      var s := sessions[token];
      var found := FindAnswered(token, reply.rpcId);
      if found.None? { return Err(InvalidSession); }
      var id := found.value;
      if id !in ops || s.cpe !in cpes { return Err(AssertionError); }
      if ops[id].state.Expired? {
        EndSession(token, now);
        return Ok(None);
      }
      var ask := ops[id].ask;
      var plan := RowPlan(policy, TargetOf(cpes[s.cpe]), ask);
      if plan.None? {
        if ops[id].state.Dispatched? {
          FailProfile(token, id, now);
          return Ok(None);
        }
        plan := policy.restore(ask.profileId, ask.profileVersion, ask.scope, ask.path, ask.requested);
        if plan.None? { return Err(InvalidSession); }
      }
      var v := Judge(policy, ask, plan.value, reply, now, id);
      if v.None? { return Err(InvalidSession); }
      r := AnswerJudgedSteps(token, id, plan.value, reply, v.value, now);
    }

    method ExchangeSteps(token: string, reply: Option<Reply>, rpcId: string, now: Time)
      returns (r: Result<Option<Command>>)
      requires Valid()
      modifies this
      ensures Stepped(Exchange(policy, old(Tables()), token, reply, rpcId, now), Tables(), r)
      ensures SameIdentities(old(cpes), cpes)
    {
      hide Core, Steady, Expire, AdvanceActive, Poll, Answer, PermittedContract, ObservationContract,
        DiscoveryContract, SameIdentities;
      SameIdentity(cpes);
      if token !in sessions { return Err(InvalidSession); }
      var cpe := sessions[token].cpe;
      if cpe !in cpes { return Err(NotFound); }
      PreparedKeeps(policy, Tables(), cpe, now);
      Unique(policy, Tables());
      ExpireDue(cpe, now);
      AdvanceRunning(cpe, now);
      Unique(policy, Tables());
      match reply {
        case None => r := PollSteps(token, rpcId, now);
        case Some(answer) => r := AnswerSteps(token, answer, now);
      }
    }

    /** One exchange with a device. */
    method ExchangeWith(token: string, reply: Option<Reply>, rpcId: string, now: Time)
      returns (r: Result<Option<Command>>)
      requires Valid() && (reply.Some? ==> DistinctReply(reply.value))
      modifies this
      ensures Valid() && Transacted(Exchange(policy, old(Tables()), token, reply, rpcId, now), old(Tables()), Tables(),
                                    r)
    {
      hide Core, Steady, Exchange, Contract, DistinctReply, OneIdentity, SameIdentities;
      var before := Tables();
      ExchangeKeeps(policy, before, token, reply, rpcId, now);
      r := ExchangeSteps(token, reply, rpcId, now);
      if r.Err? { Rollback(before); } else { IdentitiesStay(before.store.cpes, cpes); }
    }

    // ----- Operations -----

    /** Queues an operation, or returns the one that the same key queued before. */
    method CreateOperation(request: Request, discovered: seq<string>, now: Time) returns (r: Result<Id>)
      requires Valid()
      modifies this
      ensures Valid() && Transacted(Create(policy, old(Tables()), request, discovered, now), old(Tables()), Tables(), r)
    {
      hide Core, Steady, PermittedContract, ObservationContract, DiscoveryContract, PlanContract, Expire, CreatePlan,
        BadSelection, SameRequest, RequestAsk, OneIdentity;
      var before := Tables();
      CreateKeeps(policy, before, request, discovered, now);
      ExpiredParts(policy, before, request.cpe, now);
      if BadSelection(request.kind, request.scope, request.names) { return Err(Conflict("unsupported_parameters")); }
      if request.cpe !in cpes { return Err(NotFound); }
      ExpireDue(request.cpe, now);
      Unique(policy, Tables());
      var known := FindOp(request.cpe, ClientKey(request.key));
      if known.Some? {
        if SameRequest(ops[known.value], request.kind, request.scope, request.path, request.capture,
                       SortBy(Self, request.names)) {
          return Ok(known.value);
        }
        Rollback(before);
        return Err(Conflict("idempotency_conflict"));
      }
      var running := FindRunning(request.cpe);
      if running.Some? {
        Rollback(before);
        return Err(Conflict("collection_in_progress"));
      }
      if exists i :: i in ops && ops[i].ask.cpe == request.cpe && Active(ops[i]) {
        Rollback(before);
        return Err(Conflict("operation_in_progress"));
      }
      var plan := CreatePlan(policy, TargetOf(cpes[request.cpe]), request, discovered);
      if plan.Err? {
        Rollback(before);
        return Err(plan.error);
      }
      var id := AddOp(NewOp(RequestAsk(request, plan.value, now)));
      return Ok(id);
    }

    method AddOp(op: Op) returns (id: Id)
      modifies `next, `ops
      ensures id == old(next) && next == old(next) + 1 && ops == old(ops)[id := op]
    {
      id := next;
      ops := ops[id := op];
      next := next + 1;
    }

    method GetOperation(cpe: Id, id: Id, now: Time) returns (r: Result<Op>)
      requires Valid()
      modifies this
      ensures Valid() && Transacted(Get(old(Tables()), cpe, id, now), old(Tables()), Tables(), r)
    {
      hide Core, Steady, Contract, Expire, OneIdentity;
      var before := Tables();
      GetKeeps(policy, before, cpe, id, now);
      ExpiredParts(policy, before, cpe, now);
      if cpe !in cpes { return Err(NotFound); }
      ExpireDue(cpe, now);
      if id !in ops || ops[id].ask.cpe != cpe {
        Rollback(before);
        return Err(NotFound);
      }
      return Ok(ops[id]);
    }

    // ----- Collection jobs -----

    /** Adds a job and launches its first operation. */
    method AddJob(job: Job, now: Time) returns (j: Id)
      modifies `next, `ops, `jobs
      ensures j == old(next) && Tables() == Advance(policy, WithJob(old(Tables()), job), j, now)
    {
      hide Advance;
      j := next;
      jobs := jobs[j := job];
      next := next + 1;
      AdvanceJob(j, now);
    }

    method CreateCollection(cpe: Id, spec: Spec, key: nat, now: Time) returns (r: Result<Id>)
      requires Valid()
      modifies this
      ensures Valid() && Transacted(CreateJob(policy, old(Tables()), cpe, spec, key, now), old(Tables()), Tables(), r)
    {
      hide Core, Steady, PermittedContract, ObservationContract, DiscoveryContract, PlanContract, Expire, Advance,
        FirstFrontier, ValidSpec, NewJob, OneIdentity;
      var before := Tables();
      CreateJobKeeps(policy, before, cpe, spec, key, now);
      ExpiredParts(policy, before, cpe, now);
      if cpe !in cpes { return Err(NotFound); }
      ExpireDue(cpe, now);
      Unique(policy, Tables());
      if !ValidSpec(spec) {
        Rollback(before);
        return Err(Conflict(SpecConflict(spec)));
      }
      var data := spec.(names := SortBy(Self, spec.names));
      SortedSpecValid(spec);
      var same := FindJob(cpe, ClientKey(key));
      if same.Some? {
        if jobs[same.value].spec == data { return Ok(same.value); }
        Rollback(before);
        return Err(Conflict("idempotency_conflict"));
      }
      var running := FindRunning(cpe);
      if running.Some? || exists i :: i in ops && ops[i].ask.cpe == cpe && Active(ops[i]) {
        Rollback(before);
        return Err(Conflict("operation_in_progress"));
      }
      var frontier := FirstFrontier(policy, Tables(), cpe, data);
      if frontier.Err? {
        Rollback(before);
        return Err(frontier.error);
      }
      var j := AddJob(NewJob(cpe, ClientKey(key), data, frontier.value, now), now);
      return Ok(j);
    }

    method GetCollection(cpe: Id, j: Id, now: Time) returns (r: Result<Job>)
      requires Valid()
      modifies this
      ensures Valid() && Transacted(GetJob(policy, old(Tables()), cpe, j, now), old(Tables()), Tables(), r)
    {
      hide Core, Steady, PermittedContract, ObservationContract, DiscoveryContract, PlanContract, Expire, Advance,
        OneIdentity;
      var before := Tables();
      GetJobKeeps(policy, before, cpe, j, now);
      ExpiredParts(policy, before, cpe, now);
      if cpe !in cpes || j !in jobs || jobs[j].cpe != cpe { return Err(NotFound); }
      ExpireDue(cpe, now);
      AdvanceJob(j, now);
      return Ok(jobs[j]);
    }

    // ----- Informs -----

    /** Finds a device by its identity, or adds it. */
    method UpsertCpe(d: Device) returns (cpe: Id)
      requires OneIdentity(cpes)
      modifies `next, `cpes
      ensures var found := CpeByIdentity(old(cpes), d.oui, d.productClass, d.serial);
              && cpe == (if found.Some? then found.value else old(next))
              && next == (if found.Some? then old(next) else old(next) + 1)
              && cpes == old(cpes)[cpe :=
                   if found.Some? then old(cpes)[cpe].(manufacturer := d.manufacturer)
                   else Cpe(d.manufacturer, d.oui, d.productClass, d.serial, None, None, None)]
    {
      hide OneIdentity;
      var found := FindCpe(d);
      if found.Some? {
        cpe := found.value;
        cpes := cpes[cpe := cpes[cpe].(manufacturer := d.manufacturer)];
      } else {
        cpe := next;
        next := next + 1;
        cpes := cpes[cpe := Cpe(d.manufacturer, d.oui, d.productClass, d.serial, None, None, None)];
      }
    }

    method AcceptSteps(token: string, d: Device, inv: Inventory, now: Time, expiresAt: Time) returns (r: Result<Id>)
      requires OneIdentity(cpes)
      modifies this
      ensures Transacted(Accept(old(Tables()), token, d, inv, now, expiresAt), old(Tables()), Tables(), r)
    {
      hide UpdateInventory, OneIdentity;
      if token in sessions { return Err(StorageUnavailable); }
      var cpe := UpsertCpe(d);
      WriteInventory(cpe, inv);
      sessions := sessions[token := Session(cpe, AwaitingEmpty, expiresAt, None)];
      return Ok(cpe);
    }

    /** A first Inform: upserts the CPE, records its inventory and opens a session. */
    method AcceptInform(token: string, d: Device, inv: Inventory, now: Time, expiresAt: Time) returns (r: Result<Id>)
      requires Valid() && FromInform(inv)
      modifies this
      ensures Valid() && Transacted(Accept(old(Tables()), token, d, inv, now, expiresAt), old(Tables()), Tables(), r)
    {
      hide Core, Steady, Contract, Accept, FromInform, OneIdentity;
      AcceptKeeps(policy, Tables(), token, d, inv, now, expiresAt);
      NextIsFree(policy, Tables());
      AcceptIdentities(Tables(), token, d, inv, now, expiresAt);
      r := AcceptSteps(token, d, inv, now, expiresAt);
    }

    method CompleteSession(token: string, now: Time) returns (r: Result<()>)
      requires Valid()
      modifies `sessions
      ensures Valid() && Transacted(Complete(old(Tables()), token, now), old(Tables()), Tables(), r)
      ensures r.Ok? <==>
        token in old(sessions) && old(sessions)[token].state.AwaitingEmpty? && now < old(sessions)[token].expiresAt
      ensures r.Err? ==> r.error == InvalidSession && sessions == old(sessions)
      ensures r.Ok? ==>
                && sessions.Keys == old(sessions).Keys
                && (forall t | t in sessions && t != token :: sessions[t] == old(sessions)[t])
                && sessions[token].state.Completed? && sessions[token].completedAt == Some(now)
                && sessions[token].cpe == old(sessions)[token].cpe
                && sessions[token].expiresAt == old(sessions)[token].expiresAt
    {
      hide Core, Steady, Contract, OneIdentity;
      CompleteKeeps(policy, Tables(), token, now);
      if token !in sessions || !sessions[token].state.AwaitingEmpty? || sessions[token].expiresAt <= now {
        return Err(InvalidSession);
      }
      sessions := sessions[token := sessions[token].(state := Completed, completedAt := Some(now))];
      return Ok(());
    }

    // ----- Profile validation -----

    /** Binds an approval to an operation; only another operation replaces what was bound. */
    method BindProfile(cpe: Id, operation: Id, key: Id) returns (r: Result<()>)
      requires Valid()
      modifies `approvals
      ensures Valid() && Transacted(Validation.Bind(old(Tables()), cpe, operation, key), old(Tables()), Tables(), r)
      ensures r.Ok? <==> cpe in cpes && operation in ops
      ensures r.Err? ==> r.error == StorageUnavailable && approvals == old(approvals)
      ensures cpe in old(approvals) && old(approvals)[cpe].operation == operation ==> approvals == old(approvals)
      ensures r.Ok? && (cpe in old(approvals) ==> old(approvals)[cpe].operation != operation) ==>
                cpe in approvals && approvals[cpe].operation == operation && approvals[cpe].key == key
                && approvals[cpe].expectedFirmware == REVIEWED_FIRMWARE && approvals[cpe].approvedAt.None?
                && approvals[cpe].approvedBy.None?
      ensures forall c | c != cpe ::
        (c in approvals <==> c in old(approvals)) && (c in approvals ==> approvals[c] == old(approvals)[c])
    {
      hide Core, Steady, Contract, OneIdentity, Validation.Bind;
      ApprovalStepKeeps(policy, Tables(), DoBind(cpe, operation, key, 0));
      r := WriteBinding(cpe, operation, key);
    }

    method WriteBinding(cpe: Id, operation: Id, key: Id) returns (r: Result<()>)
      modifies `approvals
      ensures Transacted(Validation.Bind(old(Tables()), cpe, operation, key), old(Tables()), Tables(), r)
      ensures r.Ok? <==> cpe in cpes && operation in ops
      ensures r.Err? ==> r.error == StorageUnavailable && approvals == old(approvals)
      ensures cpe in old(approvals) && old(approvals)[cpe].operation == operation ==> approvals == old(approvals)
      ensures r.Ok? && (cpe in old(approvals) ==> old(approvals)[cpe].operation != operation) ==>
                cpe in approvals && approvals[cpe].operation == operation && approvals[cpe].key == key
                && approvals[cpe].expectedFirmware == REVIEWED_FIRMWARE && approvals[cpe].approvedAt.None?
                && approvals[cpe].approvedBy.None?
      ensures forall c | c != cpe ::
        (c in approvals <==> c in old(approvals)) && (c in approvals ==> approvals[c] == old(approvals)[c])
    {
      if cpe !in cpes || operation !in ops { return Err(StorageUnavailable); }
      if cpe !in approvals || approvals[cpe].operation != operation {
        approvals := approvals[cpe := Approval(operation, key, REVIEWED_FIRMWARE, None, None)];
      }
      return Ok(());
    }

    /** Approves what the status showed, provided that nothing changed since. */
    method ApproveProfile(cpe: Id, actor: Id, seen: Id, now: Time) returns (r: Result<()>)
      requires Valid()
      modifies `approvals
      ensures Valid() && Transacted(Validation.Approve(old(Tables()), cpe, actor, seen, now), old(Tables()), Tables(),
                                    r)
      ensures r.Ok? <==>
        cpe in cpes && cpe in old(approvals) && Validation.Matches(cpes[cpe])
        && old(approvals)[cpe].expectedFirmware == REVIEWED_FIRMWARE
        && old(approvals)[cpe].operation == seen
      ensures r.Err? ==> approvals == old(approvals)
      ensures r.Ok? ==>
                && approvals.Keys == old(approvals).Keys
                && (forall c | c in approvals && c != cpe :: approvals[c] == old(approvals)[c])
                && approvals[cpe].operation == seen && approvals[cpe].approvedAt.Some?
                && (old(approvals)[cpe].approvedAt.Some? ==> approvals[cpe] == old(approvals)[cpe])
                && (old(approvals)[cpe].approvedAt.None? ==>
                      approvals[cpe].approvedAt == Some(now) && approvals[cpe].approvedBy == Some(actor))
    {
      hide Core, Steady, Contract, OneIdentity;
      ApprovalStepKeeps(policy, Tables(), DoApprove(cpe, actor, seen, now));
      if cpe !in cpes || cpe !in approvals { return Err(AssertionError); }
      var a := approvals[cpe];
      if !Validation.Matches(cpes[cpe]) || a.expectedFirmware != REVIEWED_FIRMWARE || a.operation != seen {
        return Err(Conflict("revalidation_required"));
      }
      if a.approvedAt.None? {
        approvals := approvals[cpe := a.(approvedBy := Some(actor), approvedAt := Some(now))];
      }
      return Ok(());
    }
  }
}
