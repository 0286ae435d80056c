/** What the replies of a run brought: for each operation that succeeded, its reply and the names that were already
    overtaken. */
module ReplyLog {
  import opened Text
  import opened Domain
  import opened Policies
  import opened Jobs
  import opened Queue
  import opened Invariants
  import opened QueueProofs
  import opened AdvanceProofs
  import opened AnswerProofs
  import opened OperationProofs
  import opened Runs
  import opened Effects
  import opened QuietSteps

  // ----- Receipts -----

  /** The reply in which an operation succeeded, and those of its names that the catalog then held from a later time. */
  datatype Receipt = Receipt(reply: Reply, overtaken: set<string>)

  type Log = map<Id, Receipt>

  function Reported(reply: Reply): seq<Info> { if reply.NamesReply? then reply.names else [] }

  function NamesOf(reply: Reply): set<string> { set i | i in Reported(reply) :: i.name }

  /** The guard of the upsert: a row observed later than `now` stays. */
  predicate Newer(catalog: map<PathKey, CatalogRow>, key: PathKey, now: Time) {
    key in catalog && catalog[key].observedAt > now
  }

  function ReceiptFor(catalog: map<PathKey, CatalogRow>, cpe: Id, reply: Reply, now: Time): (r: Receipt)
    ensures r.reply == reply
  {
    Receipt(reply, set n | n in NamesOf(reply) && Newer(catalog, (cpe, n), now))
  }

  /** The names that the reply brought into the catalog. */
  function Written(r: Receipt): set<string> { NamesOf(r.reply) - r.overtaken }

  ghost function Logged(log: Log, ops: map<Id, Op>, later: map<Id, Op>, catalog: map<PathKey, CatalogRow>,
                        reply: Option<Reply>, now: Time): Log {
    if reply.None? then log
    else
      log + map i | i in later && HasSucceeded(later, i) && !HasSucceeded(ops, i) ::
              ReceiptFor(catalog, later[i].ask.cpe, reply.value, now)
  }

  function ReplyIn(a: Action): Option<Reply> { if a.DoExchange? then a.reply else None }

  /** The log of a whole run: an operation gets its receipt in the step in which it succeeds. */
  ghost function LogOf(p: Policy, actions: seq<Action>): Log {
    if actions == [] then map[]
    else
      var n := |actions| - 1;
      var db := Run(p, EMPTY, actions[..n]);
      Logged(LogOf(p, actions[..n]), db.ops, Run(p, EMPTY, actions).ops, db.catalog, ReplyIn(actions[n]),
             actions[n].now)
  }

  ghost predicate ReceiptOk(r: Receipt) { DistinctReply(r.reply) && r.overtaken <= NamesOf(r.reply) }

  ghost predicate LogOk(ops: map<Id, Op>, log: Log) {
    (forall i | HasSucceeded(ops, i) :: i in log) && forall i | i in log :: ReceiptOk(log[i])
  }

  lemma {:induction false} NamesCount(names: seq<Info>)
    requires DistinctBy(InfoName, names)
    ensures |set i | i in names :: i.name| == |names|
  {
    if names != [] {
      var n := |names| - 1;
      NamesCount(names[..n]);
      forall i | i in names[..n] ensures i.name != names[n].name {
        var k :| 0 <= k < n && names[k] == i;
        assert InfoName(names[k]) != InfoName(names[n]);
      }
      assert (set i | i in names :: i.name) == (set i | i in names[..n] :: i.name) + {names[n].name};
    }
  }

  /** As many names are written as were reported, less those overtaken. */
  lemma WrittenCount(r: Receipt)
    requires ReceiptOk(r)
    ensures |Written(r)| == |Reported(r.reply)| - |r.overtaken|
  {
    NamesCount(Reported(r.reply));
  }

  lemma NothingLogged(log: Log, ops: map<Id, Op>, later: map<Id, Op>, catalog: map<PathKey, CatalogRow>,
                      reply: Option<Reply>, now: Time)
    requires NoNewSuccess(ops, later)
    ensures Logged(log, ops, later, catalog, reply, now) == log
  {}

  lemma LoggedLater(log: Log, ops: map<Id, Op>, mid: map<Id, Op>, later: map<Id, Op>, catalog: map<PathKey, CatalogRow>,
                    reply: Option<Reply>, now: Time)
    requires Evolves(ops, mid) && NoNewSuccess(ops, mid)
    ensures Logged(log, ops, later, catalog, reply, now) == Logged(log, mid, later, catalog, reply, now)
  {
    hide ReceiptFor, Evolves, NoNewSuccess, HasSucceeded;
    SameSucceeded(ops, mid);
  }

  lemma SameSucceeded(ops: map<Id, Op>, mid: map<Id, Op>)
    requires Evolves(ops, mid) && NoNewSuccess(ops, mid)
    ensures forall i :: HasSucceeded(ops, i) <==> HasSucceeded(mid, i)
  {}

  // ----- What upserting names leaves in the catalog -----

  /** With distinct names, the rows of the listed names are exactly the new ones, unless a newer row stood there;
      every other row is as it was. */
  lemma {:induction false} CatalogExactly(catalog: map<PathKey, CatalogRow>, cpe: Id, names: seq<Info>, n: nat, id: Id,
                                          now: Time)
    requires n <= |names| && DistinctBy(InfoName, names)
    ensures Upserted(catalog, CatalogAll(catalog, cpe, names, n, id, now), cpe, names, n, id, now)
  {
    hide Upserted, DistinctBy;
    if n == 0 {
      NothingUpserted(catalog, cpe, names, id, now);
    } else {
      CatalogExactly(catalog, cpe, names, n - 1, id, now);
      OneMoreUpserted(catalog, CatalogAll(catalog, cpe, names, n - 1, id, now), cpe, names, n, id, now);
    }
  }

  /** The rows of the first `n` names are the new ones, unless a newer row stood there; every other row is as it was. */
  ghost predicate Upserted(catalog: map<PathKey, CatalogRow>, later: map<PathKey, CatalogRow>, cpe: Id,
                           names: seq<Info>, n: nat, id: Id, now: Time)
    requires n <= |names|
  {
    && (forall i | 0 <= i < n :: var k := (cpe, names[i].name);
          && k in later
          && later[k] == if Newer(catalog, k, now) then catalog[k]
                         else CatalogRow(IsObjectName(k.1), names[i].writable, now, id))
    && (forall k | (k in later || k in catalog) && (k.0 != cpe || forall i | 0 <= i < n :: names[i].name != k.1) ::
          k in later && k in catalog && later[k] == catalog[k])
  }

  lemma NothingUpserted(catalog: map<PathKey, CatalogRow>, cpe: Id, names: seq<Info>, id: Id, now: Time)
    ensures Upserted(catalog, catalog, cpe, names, 0, id, now)
  {}

  /** The name upserted next is none of those before it. */
  lemma NextIsNew(catalog: map<PathKey, CatalogRow>, mid: map<PathKey, CatalogRow>, cpe: Id, names: seq<Info>, n: nat,
                  id: Id, now: Time)
    requires 0 < n <= |names| && DistinctBy(InfoName, names) && Upserted(catalog, mid, cpe, names, n - 1, id, now)
    ensures forall i | 0 <= i < n - 1 :: names[i].name != names[n - 1].name
    ensures var key := (cpe, names[n - 1].name);
            (key in mid <==> key in catalog) && (key in mid ==> mid[key] == catalog[key])
  {
    hide IsObjectName;
    forall i | 0 <= i < n - 1 ensures names[i].name != names[n - 1].name {
      assert InfoName(names[i]) != InfoName(names[n - 1]);
    }
  }

  lemma OneMoreUpserted(catalog: map<PathKey, CatalogRow>, mid: map<PathKey, CatalogRow>, cpe: Id, names: seq<Info>,
                        n: nat, id: Id, now: Time)
    requires 0 < n <= |names| && DistinctBy(InfoName, names) && Upserted(catalog, mid, cpe, names, n - 1, id, now)
    ensures Upserted(catalog, CatalogOne(mid, cpe, names[n - 1], id, now), cpe, names, n, id, now)
  {
    hide IsObjectName, DistinctBy;
    NextIsNew(catalog, mid, cpe, names, n, id, now);
    var later := CatalogOne(mid, cpe, names[n - 1], id, now);
    forall i | 0 <= i < n
      ensures var k := (cpe, names[i].name);
              k in later && later[k] == if Newer(catalog, k, now) then catalog[k]
                  else CatalogRow(IsObjectName(k.1), names[i].writable, now, id)
    {
      assert i < n - 1 ==> (cpe, names[i].name) in mid && later[(cpe, names[i].name)] == mid[(cpe, names[i].name)];
    }
    forall k | (k in later || k in catalog) && (k.0 != cpe || forall i | 0 <= i < n :: names[i].name != k.1)
      ensures k in later && k in catalog && later[k] == catalog[k]
    {
      assert k != (cpe, names[n - 1].name);
    }
  }

  function Keyed(cpe: Id, names: set<string>): set<PathKey> { set n | n in names :: (cpe, n) }

  /** The rows that cite the operation afterwards are those of the names written. */
  lemma CitedExactly(catalog: map<PathKey, CatalogRow>, cpe: Id, reply: Reply, id: Id, now: Time)
    requires reply.NamesReply? && DistinctReply(reply) && Cited(catalog, id) == {}
    ensures var later := CatalogAll(catalog, cpe, reply.names, |reply.names|, id, now);
            Cited(later, id) == Keyed(cpe, Written(ReceiptFor(catalog, cpe, reply, now)))
  {
    hide CatalogAll;
    var names := reply.names;
    CatalogExactly(catalog, cpe, names, |names|, id, now);
    var later, written := CatalogAll(catalog, cpe, names, |names|, id, now),
        Written(ReceiptFor(catalog, cpe, reply, now));
    assert forall k | k in catalog :: k !in Cited(catalog, id) && catalog[k].operation != id;
    forall k ensures k in Cited(later, id) <==> k in Keyed(cpe, written) {
      if k.0 == cpe && k.1 in NamesOf(reply) {
        var i :| i in names && i.name == k.1;
        var n :| 0 <= n < |names| && names[n] == i;
        assert k == (cpe, names[n].name);
      } else if k in later {
        assert forall n | 0 <= n < |names| :: names[n] in names;
      }
    }
  }

  lemma KeyedSize(cpe: Id, names: set<string>)
    ensures |Keyed(cpe, names)| == |names|
  {
    PairedSize(cpe, names, Keyed(cpe, names));
  }

  // ----- The step that answers -----

  lemma JobsOfCore(p: Policy, db: Db)
    requires Core(p, db)
    ensures JobsOk(db.jobs, db.ops) && JobsDrive(db.jobs, db.ops) && OneRunning(db.jobs)
  {
    hide JobsOk;
  }

  lemma IsAnswering(p: Policy, db: Db, token: string, id: Id, plan: Plan, reply: Reply, v: Verdict, now: Time)
    requires Contract(p) && DistinctReply(reply) && token in db.sessions && db.sessions[token].cpe in db.store.cpes
    requires id in db.ops && Concerns(db, token, id) && db.ops[id].state.Dispatched?
    requires RowPlan(p, TargetOf(CpeOf(db, token)), db.ops[id].ask) == Some(plan)
             && Judge(p, db.ops[id].ask, plan, reply, now, id) == Some(v)
    ensures Answering(p, db, token, id, plan, reply, v, now)
  {}

  /** A running walk of the CPE was waiting for this very operation, which reads names. */
  lemma WalkIsCurrent(p: Policy, db: Db, id: Id, j: Id)
    requires Core(p, db) && id in db.ops && Active(db.ops[id])
    requires j in db.jobs && db.jobs[j].state.JobRunning? && db.jobs[j].spec.kind.WalkJob?
             && db.jobs[j].cpe == db.ops[id].ask.cpe
    ensures db.jobs[j].current == Some(id) && db.ops[id].ask.kind.GetNames?
  {
    hide Core, JobsOk, OneRunning, JobOk, TraceOf, AllIn, CatalogSourced, OpsLinked, CitedBy, DoneIds;
    JobsOfCore(p, db);
    JobInCore(p, db, j);
    CurrentIsLast(db.jobs[j], db.ops);
  }

  lemma SuccessIsNames(p: Policy, ask: Ask, plan: Plan, reply: Reply, now: Time, id: Id)
    requires Judge(p, ask, plan, reply, now, id).Some? && Judge(p, ask, plan, reply, now, id).value.reason.None?
             && ask.kind.GetNames?
    ensures reply.NamesReply?
  {}

  /** An active operation belongs to no job but the one that waits for it. */
  lemma OwnerWaits(p: Policy, db: Db, id: Id, j: Id)
    requires Core(p, db) && id in db.ops && Active(db.ops[id]) && j in db.jobs && id in db.jobs[j].opIds
    ensures db.jobs[j].state.JobRunning? && db.jobs[j].current == Some(id) && db.jobs[j].cpe == db.ops[id].ask.cpe
    ensures id == db.jobs[j].opIds[|db.jobs[j].opIds| - 1] && id !in db.jobs[j].opIds[..|db.jobs[j].opIds| - 1]
  {
    hide Core, Walking, Reading, CatalogSourced, OpsLinked, CitedBy, DoneIds;
    JobInCore(p, db, j);
    var job := db.jobs[j];
    var trace := TraceOf(job.opIds, db.ops);
    var k :| 0 <= k < |job.opIds| && job.opIds[k] == id;
    assert trace[k] == db.ops[id];
    assert k == |job.opIds| - 1;
    CurrentIsLast(job, db.ops);
  }

  lemma CurrentListed(p: Policy, db: Db, j: Id)
    requires Core(p, db) && j in db.jobs && db.jobs[j].current.Some?
    ensures db.jobs[j].current.value in db.jobs[j].opIds
  {
    hide Core, JobOk;
    JobInCore(p, db, j);
    CurrentIsLast(db.jobs[j], db.ops);
  }

  /** A job that does not wait for the answered operation is not touched by the answer. */
  lemma OthersUntouched(p: Policy, db: Db, token: string, id: Id, plan: Plan, reply: Reply, v: Verdict,
                        evidence: Option<string>, now: Time, j: Id)
    requires Inv(p, db) && Answering(p, db, token, id, plan, reply, v, now) && j in db.jobs && id in db.attempts
    requires !(db.jobs[j].state.JobRunning? && db.jobs[j].cpe == db.ops[id].ask.cpe)
    ensures var r := Recorded(p, db, token, id, plan, reply, v, evidence, now);
            var d := AdvanceActive(p, r, db.sessions[token].cpe, now);
            j in d.jobs && d.jobs[j] == db.jobs[j]
  {
    hide Inv, Launch, ReadyJob, Waits, CatalogAll, ValuesAll, Stored, DigestOf, Finish, AnsweredOp, Judge, Contract,
      DistinctReply, PlanFits, Limited;
    AnsweringFacts(p, db, token, id, plan, reply, v, now);
  }

  lemma NotCitedYet(p: Policy, db: Db, id: Id)
    requires Core(p, db) && id in db.ops && Active(db.ops[id])
    ensures Cited(db.catalog, id) == {}
  {
    hide JobsOk, Coupled, ValuesSourced, StoreOk, OneActive, JobsDrive, OpKeys, JobKeys, OneRunning, Accounted;
    NoneCited(db.catalog, db.ops, id);
  }

  lemma TruncatedWalk(p: Policy, db: Db, id: Id, names: seq<Info>, j: Id)
    requires Core(p, db) && id in db.ops && Active(db.ops[id]) && j in db.jobs && db.jobs[j].state.JobRunning?
             && db.jobs[j].cpe == db.ops[id].ask.cpe
    ensures var (kept, later) := Truncate(db.jobs, db.ops[id].ask.cpe, id, names);
            && j in later && later[j] == db.jobs[j].(limits := later[j].limits)
            && (forall l | l in db.jobs[j].limits :: l in later[j].limits)
            && (MaxEntries !in later[j].limits ==> kept == names)
  {
    hide Core, WithinBudget, Truncate;
    BudgetOfTruncated(p, db, id, names);
  }

  /** Truncation changes at most the limits of a job record. */
  lemma TruncatedJob(p: Policy, db: Db, id: Id, names: seq<Info>, j: Id)
    requires Core(p, db) && id in db.ops && Active(db.ops[id])
    ensures var later := Truncate(db.jobs, db.ops[id].ask.cpe, id, names).1;
            later.Keys == db.jobs.Keys
            && (j in later ==> later[j] == db.jobs[j].(limits := later[j].limits))
  {
    hide Core, Truncate, WithinBudget;
    BudgetOfTruncated(p, db, id, names);
  }

  /** The state between recording a reply and advancing the walk that waited for it. */
  lemma RecordedWalk(p: Policy, db: Db, token: string, id: Id, plan: Plan, reply: Reply, v: Verdict,
                     evidence: Option<string>, now: Time, j: Id)
    requires Inv(p, db) && Answering(p, db, token, id, plan, reply, v, now) && id in db.attempts
    requires j in db.jobs && db.jobs[j].state.JobRunning? && db.jobs[j].cpe == db.ops[id].ask.cpe
             && db.jobs[j].spec.kind.WalkJob?
    requires db.jobs[j].current == Some(id) && db.ops[id].ask.kind.GetNames?
    ensures var r := Recorded(p, db, token, id, plan, reply, v, evidence, now);
            && j in r.jobs && r.jobs[j] == db.jobs[j].(limits := r.jobs[j].limits)
            && (forall l | l in db.jobs[j].limits :: l in r.jobs[j].limits)
            && db.jobs[j].cpe in r.store.cpes && Ready(r, j) && id in r.ops
            && (r.ops[id].state.Succeeded? <==> v.reason.None?)
            && (v.reason.None? && MaxEntries !in r.jobs[j].limits ==> 
                  Cited(r.catalog, id) == Keyed(db.jobs[j].cpe,
                                                Written(ReceiptFor(db.catalog, db.jobs[j].cpe, reply, now))))
  {
    hide Inv, Core, CatalogAll, ValuesAll, Truncate, Stored, DigestOf, Finish, Written, ReceiptFor, Keyed, Judge,
      Contract, PlanFits, Cited;
    AnsweringFacts(p, db, token, id, plan, reply, v, now);
    CoreOfInv(p, db);
    TelemetryKeepsCpes(db.store, db.sessions[token].cpe, v);
    if v.reason.None? {
      SuccessIsNames(p, db.ops[id].ask, plan, reply, now, id);
      TruncatedWalk(p, db, id, reply.names, j);
      var kept := Truncate(db.jobs, db.sessions[token].cpe, id, reply.names).0;
      if kept == reply.names {
        NotCitedYet(p, db, id);
        CitedExactly(db.catalog, db.sessions[token].cpe, reply, id, now);
      }
    }
  }

  lemma SameJobKeys(p: Policy, db: Db, id: Id, reply: Reply, v: Verdict)
    requires Core(p, db) && id in db.ops && Active(db.ops[id])
    ensures var (names, jobs) := if reply.NamesReply? && v.reason.None?
            then Truncate(db.jobs, db.ops[id].ask.cpe, id, reply.names) else ([], db.jobs);
            jobs.Keys == db.jobs.Keys
  {
    hide Core, WithinBudget, Truncate;
    if reply.NamesReply? { BudgetOfTruncated(p, db, id, reply.names); }
  }

  lemma EvolvedSame(ops: map<Id, Op>, later: map<Id, Op>, id: Id)
    ensures Evolves(ops, later) && id in ops && !Active(ops[id]) ==> id in later && later[id] == ops[id]
  {}

  /** Advancing whatever job is active lets nothing succeed. */
  lemma ActiveAdvances(p: Policy, db: Db, cpe: Id, now: Time)
    requires Core(p, db)
    ensures var d := AdvanceActive(p, db, cpe, now);
            Evolves(db.ops, d.ops) && NoNewSuccess(db.ops, d.ops) && d.jobs.Keys == db.jobs.Keys
  {
    hide Core, Advance, Waits, Evolves, NoNewSuccess, Advanced, CountedBy, DoneIds;
    EvolvesSame(db.ops);
    NoneNew(db.ops);
    var found := ActiveJob(db.jobs, cpe);
    if found.Some? {
      WaitingStays(p, db, found.value, now);
      if !Waits(db, db.jobs[found.value]) && cpe in db.store.cpes { AdvanceCounts(p, db, found.value, now); }
      if cpe !in db.store.cpes { JobOutside(p, db, found.value, now); }
    }
  }

  lemma JobOutside(p: Policy, db: Db, j: Id, now: Time)
    requires j in db.jobs && db.jobs[j].cpe !in db.store.cpes
    ensures Advance(p, db, j, now) == db
  {}

  lemma AnsweredOps(p: Policy, db: Db, token: string, id: Id, plan: Plan, reply: Reply, v: Verdict,
                    evidence: Option<string>, now: Time)
    requires Inv(p, db) && Answering(p, db, token, id, plan, reply, v, now) && id in db.attempts
    ensures var op := AnsweredOp(db.ops[id], v, reply, evidence, now);
            var d := AdvanceActive(p, Recorded(p, db, token, id, plan, reply, v, evidence, now), db.sessions[token].cpe,
                                   now);
            && Evolves(db.ops[id := op], d.ops) && NoNewSuccess(db.ops[id := op], d.ops) && id in d.ops
            && d.ops[id] == op
            && d.jobs.Keys == db.jobs.Keys && Evolves(db.ops, d.ops)
  {
    hide Inv, Core, Answering, AdvanceActive, CatalogAll, ValuesAll, Stored, DigestOf, Finish, Truncate, NoNewSuccess,
      SteadyBut, Steady, Evolves, Judge;
    AnsweringFacts(p, db, token, id, plan, reply, v, now);
    CoreOfInv(p, db);
    RecordedKeeps(p, db, token, id, plan, reply, v, evidence, now);
    var r := Recorded(p, db, token, id, plan, reply, v, evidence, now);
    SameJobKeys(p, db, id, reply, v);
    ActiveAdvances(p, r, db.sessions[token].cpe, now);
    var d := AdvanceActive(p, r, db.sessions[token].cpe, now);
    EvolvedSame(r.ops, d.ops, id);
    EvolvesTransitive(db.ops, r.ops, d.ops);
  }

  /** A running job of the CPE keeps its specification through an answer. */
  lemma SpecStays(p: Policy, db: Db, token: string, id: Id, plan: Plan, reply: Reply, v: Verdict,
                  evidence: Option<string>, now: Time, j: Id)
    requires Inv(p, db) && Answering(p, db, token, id, plan, reply, v, now) && id in db.attempts && j in db.jobs
    ensures var d := AdvanceActive(p, Recorded(p, db, token, id, plan, reply, v, evidence, now), db.sessions[token].cpe,
                                   now);
            j in d.jobs ==> d.jobs[j].spec == db.jobs[j].spec
  {
    hide Inv, Core, Answering, Advance, CatalogAll, ValuesAll, Stored, DigestOf, Finish, Truncate, NoNewSuccess,
      Evolves, SteadyBut, Steady;
    AnsweringFacts(p, db, token, id, plan, reply, v, now);
    CoreOfInv(p, db);
    RecordedKeeps(p, db, token, id, plan, reply, v, evidence, now);
    var r := Recorded(p, db, token, id, plan, reply, v, evidence, now);
    if reply.NamesReply? { TruncatedJob(p, db, id, reply.names, j); }
    var found := ActiveJob(r.jobs, db.sessions[token].cpe);
    if found.Some? {
      WaitingStays(p, r, found.value, now);
      if !Waits(r, r.jobs[found.value]) { AdvanceCounts(p, r, found.value, now); }
    }
  }

  /** The log after an answer: nothing but a receipt for the answered operation is new. */
  lemma AnsweredLog(p: Policy, db: Db, token: string, id: Id, plan: Plan, reply: Reply, v: Verdict,
                    evidence: Option<string>, now: Time, log: Log)
    requires Inv(p, db) && Answering(p, db, token, id, plan, reply, v, now) && LogOk(db.ops, log)
    ensures id in db.attempts && id in db.ops && token in db.sessions && !HasSucceeded(db.ops, id)
    ensures var d := AdvanceActive(p, Recorded(p, db, token, id, plan, reply, v, evidence, now), db.sessions[token].cpe,
                                   now);
            var next := Logged(log, db.ops, d.ops, db.catalog, Some(reply), now);
            && LogOk(d.ops, next) && id in d.ops && (HasSucceeded(d.ops, id) <==> v.reason.None?)
            && (forall i | i != id :: (i in next <==> i in log) && (i in log ==> next[i] == log[i]))
            && (forall i | i != id :: HasSucceeded(d.ops, i) <==> HasSucceeded(db.ops, i))
            && (v.reason.None? ==> id in next && next[id] == ReceiptFor(db.catalog, db.ops[id].ask.cpe, reply, now))
  {
    hide Inv, Core, Recorded, AdvanceActive, Answering, DistinctReply, Logged, LogOk, ReceiptFor, Evolves,
      NoNewSuccess, AnsweredOp, Judge;
    AnsweringFacts(p, db, token, id, plan, reply, v, now);
    AnsweringDistinct(p, db, token, id, plan, reply, v, now);
    AnsweredOps(p, db, token, id, plan, reply, v, evidence, now);
    AnsweredState(db.ops[id], v, reply, evidence, now);
    var d := AdvanceActive(p, Recorded(p, db, token, id, plan, reply, v, evidence, now), db.sessions[token].cpe, now);
    OneLogged(log, db.ops, id, AnsweredOp(db.ops[id], v, reply, evidence, now), d.ops, db.catalog, reply, now);
  }

  lemma ReceiptForOk(catalog: map<PathKey, CatalogRow>, cpe: Id, reply: Reply, now: Time)
    requires DistinctReply(reply)
    ensures ReceiptOk(ReceiptFor(catalog, cpe, reply, now))
  {}

  /** When only `id` is answered, only `id` gets a receipt. */
  lemma OneLogged(log: Log, ops: map<Id, Op>, id: Id, op: Op, later: map<Id, Op>, catalog: map<PathKey, CatalogRow>,
                  reply: Reply, now: Time)
    requires LogOk(ops, log) && DistinctReply(reply) && id in ops && !HasSucceeded(ops, id) && op.ask == ops[id].ask
    requires Evolves(ops[id := op], later) && NoNewSuccess(ops[id := op], later) && id in later && later[id] == op
    ensures var next := Logged(log, ops, later, catalog, Some(reply), now);
            && LogOk(later, next) && (HasSucceeded(later, id) <==> op.state.Succeeded?)
            && (forall i | i != id :: (i in next <==> i in log) && (i in log ==> next[i] == log[i]))
            && (forall i | i != id :: HasSucceeded(later, i) <==> HasSucceeded(ops, i))
            && (op.state.Succeeded? ==> id in next && next[id] == ReceiptFor(catalog, op.ask.cpe, reply, now))
  {
    hide ReceiptFor, ReceiptOk, DistinctReply;
    ReceiptForOk(catalog, op.ask.cpe, reply, now);
    OthersSucceeded(ops, id, op, later);
  }

  lemma OthersSucceeded(ops: map<Id, Op>, id: Id, op: Op, later: map<Id, Op>)
    requires id in ops && Evolves(ops[id := op], later) && NoNewSuccess(ops[id := op], later)
    ensures forall i | i != id :: HasSucceeded(later, i) <==> HasSucceeded(ops, i)
  {}

  lemma AnsweringDistinct(p: Policy, db: Db, token: string, id: Id, plan: Plan, reply: Reply, v: Verdict, now: Time)
    requires Answering(p, db, token, id, plan, reply, v, now)
    ensures DistinctReply(reply) && id in db.ops && Judge(p, db.ops[id].ask, plan, reply, now, id) == Some(v)
  {}
}
