/** Where stored rows come from: every catalog row and every value row holds what the reply recorded by its operation
    reported under that name, and so an approval rests on what the device said. */
module Origins {
  import opened Text
  import opened Domain
  import opened Policies
  import opened Jobs
  import opened Registers
  import opened Queue
  import opened Invariants
  import opened QueueProofs
  import opened AdvanceProofs
  import opened AnswerProofs
  import opened OperationProofs
  import opened Validation
  import opened Runs
  import opened Effects
  import opened QuietSteps
  import opened ReplyLog
  import opened WalkResults
  import opened StoredValues
  import opened ObservedRuns
  import opened ApprovalLapse

  // ----- Rows and the replies they come from -----

  predicate NameReported(row: CatalogRow, name: string, reply: Reply) {
    reply.NamesReply? && exists i :: i in reply.names && i.name == name && i.writable == row.writable
  }

  predicate ValueReported(row: ValueRow, name: string, reply: Reply) {
    reply.ValuesReply?
    && exists q :: q in reply.parameters && q.name == name && q.value == row.value && q.xsdType == row.xsdType
  }

  ghost predicate RowsReported(catalog: map<PathKey, CatalogRow>, values: map<PathKey, ValueRow>, log: Log) {
    && (forall k | k in catalog ::
          catalog[k].operation in log && NameReported(catalog[k], k.1, log[catalog[k].operation].reply))
    && (forall k | k in values ::
          values[k].operation in log && ValueReported(values[k], k.1, log[values[k].operation].reply))
  }

  /** A catalog row that is new, or not as it was, is of a name that was reported. */
  lemma CataloguedRow(catalog: map<PathKey, CatalogRow>, cpe: Id, names: seq<Info>, id: Id, now: Time, k: PathKey)
    requires DistinctBy(InfoName, names)
    requires var later := CatalogAll(catalog, cpe, names, |names|, id, now);
             k in later && !(k in catalog && later[k] == catalog[k])
    ensures var row := CatalogAll(catalog, cpe, names, |names|, id, now)[k];
            row.operation == id && exists i :: i in names && i.name == k.1 && i.writable == row.writable
  {
    hide CatalogAll, DistinctBy, IsObjectName;
    CatalogExactly(catalog, cpe, names, |names|, id, now);
    if k.0 == cpe && exists i :: 0 <= i < |names| && names[i].name == k.1 {
      var i :| 0 <= i < |names| && names[i].name == k.1;
      assert k == (cpe, names[i].name) && names[i] in names;
    }
  }

  /** The names catalogued are some of those reported, none twice. */
  lemma TruncatedNames(jobs: map<Id, Job>, cpe: Id, id: Id, names: seq<Info>)
    requires DistinctBy(InfoName, names)
    ensures var kept := Truncate(jobs, cpe, id, names).0;
            DistinctBy(InfoName, kept) && forall i | i in kept :: i in names
  {
    hide Limited;
    SortMembers(InfoName, names);
    SortAscends(InfoName, names);
    AscendingDistinct(InfoName, SortBy(InfoName, names));
  }

  /** Which names are catalogued: all of them, unless a running job of the CPE waits for this very operation and has
      less left of its budget; then the first in name order, as many as are left, and the job notes its limit. */
  ghost predicate Budgeted(jobs: map<Id, Job>, later: map<Id, Job>, cpe: Id, id: Id, names: seq<Info>,
                           kept: seq<Info>) {
    if j :| j in jobs && jobs[j].cpe == cpe && jobs[j].state.JobRunning? && jobs[j].current == Some(id)
            && 0 <= jobs[j].spec.maxEntries - jobs[j].entryCount < |names|
    then
      && |kept| == jobs[j].spec.maxEntries - jobs[j].entryCount
      && Ascending(InfoName, kept) && (forall i | i in kept :: i in names)
      && (forall i, x | i in kept && x in names && x !in kept :: Less(i.name, x.name))
      && j in later && later == jobs[j := later[j]] && later[j] == jobs[j].(limits := later[j].limits)
      && MaxEntries in later[j].limits
      && forall l | l in later[j].limits :: l == MaxEntries || l in jobs[j].limits
    else kept == names && later == jobs
  }

  lemma FirstNames(names: seq<Info>, n: nat)
    requires DistinctBy(InfoName, names) && n <= |SortBy(InfoName, names)|
    ensures var kept := SortBy(InfoName, names)[..n];
            && Ascending(InfoName, kept) && (forall i | i in kept :: i in names)
            && forall i, x | i in kept && x in names && x !in kept :: Less(i.name, x.name)
  {
    var sorted := SortBy(InfoName, names);
    SortMembers(InfoName, names);
    SortAscends(InfoName, names);
    forall m | 0 <= m < n ensures sorted[m] in sorted[..n] { assert sorted[..n][m] == sorted[m]; }
    forall i, x | i in sorted[..n] && x in names && x !in sorted[..n] ensures Less(i.name, x.name) {
      var a :| 0 <= a < n && sorted[..n][a] == i;
      assert x in sorted;
      var b :| 0 <= b < |sorted| && sorted[b] == x;
      assert Less(InfoName(sorted[a]), InfoName(sorted[b]));
    }
  }

  lemma TruncatesExactly(jobs: map<Id, Job>, cpe: Id, id: Id, names: seq<Info>)
    requires DistinctBy(InfoName, names) && OneRunning(jobs)
    ensures var (kept, later) := Truncate(jobs, cpe, id, names);
            Budgeted(jobs, later, cpe, id, names, kept)
  {
    hide Ascending, DistinctBy;
    SortMembers(InfoName, names);
    var found := ActiveJob(jobs, cpe);
    if found.Some? {
      var remaining := jobs[found.value].spec.maxEntries - jobs[found.value].entryCount;
      if 0 <= remaining < |names| { FirstNames(names, remaining); }
    }
  }

  // ----- One answer -----

  /** Rows that an answer adds or changes cite its operation and were reported by its reply; without a success there are
      none. */
  ghost predicate Brings(db: Db, later: Db, id: Id, reply: Reply, succeeded: bool) {
    && (forall k | k in later.catalog && !(k in db.catalog && later.catalog[k] == db.catalog[k]) ::
          succeeded && later.catalog[k].operation == id && NameReported(later.catalog[k], k.1, reply))
    && (forall k | k in later.values && !(k in db.values && later.values[k] == db.values[k]) ::
          succeeded && later.values[k].operation == id && ValueReported(later.values[k], k.1, reply))
  }

  lemma RecordedBrings(p: Policy, db: Db, token: string, id: Id, plan: Plan, reply: Reply, v: Verdict,
                       evidence: Option<string>, now: Time)
    requires PermittedContract(p) && DistinctReply(reply)
    requires token in db.sessions && id in db.ops && id in db.attempts && db.sessions[token].cpe in db.store.cpes
    ensures Brings(db, Recorded(p, db, token, id, plan, reply, v, evidence, now), id, reply, v.reason.None?)
  {
    hide CatalogAll, ValuesAll, Stored, DigestOf, Finish, Truncate, AnsweredOp, DistinctBy;
    var cpe := db.sessions[token].cpe;
    var (names, jobs) := if reply.NamesReply? && v.reason.None? then Truncate(db.jobs, cpe, id, reply.names)
        else ([], db.jobs);
    var ps := if reply.ValuesReply? && v.reason.None? then p.permitted(reply.parameters, plan) else [];
    var later := Recorded(p, db, token, id, plan, reply, v, evidence, now);
    NoneDistinct();
    if reply.NamesReply? { TruncatedNames(db.jobs, cpe, id, reply.names); }
    forall k | k in later.catalog && !(k in db.catalog && later.catalog[k] == db.catalog[k])
      ensures v.reason.None? && later.catalog[k].operation == id && NameReported(later.catalog[k], k.1, reply)
    {
      CataloguedRow(db.catalog, cpe, names, id, now, k);
    }
    forall k | k in later.values && !(k in db.values && later.values[k] == db.values[k])
      ensures v.reason.None? && later.values[k].operation == id && ValueReported(later.values[k], k.1, reply)
    {
      ValuesExactly(db.values, cpe, ps, |ps|, id, now);
      KeptRow(db.values, later.values, cpe, ps, id, now, k);
    }
  }

  lemma NoneDistinct()
    ensures DistinctBy(InfoName, []) && DistinctBy(ParameterName, [])
  {}

  lemma AnswerBrings(p: Policy, db: Db, token: string, reply: Reply, now: Time)
    requires Contract(p) && DistinctReply(reply) && Inv(p, db) && token in db.sessions
    ensures var later := Settle(db, Answer(p, db, token, reply, now));
            || (later.catalog == db.catalog && later.values == db.values)
            || exists id ::
                 id in db.ops && db.ops[id].state.Dispatched?
                 && Brings(db, later, id, reply, HasSucceeded(later.ops, id))
  {
    hide Inv, PlanContract, PermittedContract, DiscoveryContract, ObservationContract, Answer, Recording, Recorded,
      AdvanceActive, EvidenceFor, DistinctReply, Brings, Lasts, Answering;
    if Recording(p, db, token, reply, now).None? {
      NothingTaken(p, db, token, reply, now);
    } else {
      var t := Recording(p, db, token, reply, now).value;
      TakenIs(p, db, token, reply, now);
      TakenAnswers(p, db, token, reply, now);
      var evidence := EvidenceFor(p, db, t, reply, now);
      var r := Recorded(p, db, token, t.id, t.plan, reply, t.verdict, evidence, now);
      RecordedBrings(p, db, token, t.id, t.plan, reply, t.verdict, evidence, now);
      AdvanceActiveQuiet(p, r, db.sessions[token].cpe, now);
      SameRowsBring(db, r, Settle(db, Answer(p, db, token, reply, now)), t.id, reply, t.verdict.reason.None?);
    }
  }

  lemma SameRowsBring(db: Db, mid: Db, later: Db, id: Id, reply: Reply, succeeded: bool)
    requires Brings(db, mid, id, reply, succeeded) && later.catalog == mid.catalog && later.values == mid.values
    ensures Brings(db, later, id, reply, succeeded)
  {
    hide NameReported, ValueReported;
  }

  /** The catalog after a recorded reply: what a read of names that succeeded reported, as far as the budget of its job
      goes, each name as reported unless a newer row stood there; after any other reply it is as it was. */
  lemma AnswerCatalogs(p: Policy, db: Db, token: string, reply: Reply, now: Time)
    requires Contract(p) && DistinctReply(reply) && Inv(p, db) && token in db.sessions
             && Recording(p, db, token, reply, now).Some?
    ensures var t, later := Recording(p, db, token, reply, now).value, Settle(db, Answer(p, db, token, reply, now));
            var cpe := db.sessions[token].cpe;
            if reply.NamesReply? && t.verdict.reason.None? then
              exists kept, jobs ::
                Budgeted(db.jobs, jobs, cpe, t.id, reply.names, kept)
                && Upserted(db.catalog, later.catalog, cpe, kept, |kept|, t.id, now)
            else later.catalog == db.catalog
  {
    hide Inv, Core, PlanContract, PermittedContract, DiscoveryContract, ObservationContract, AdvanceActive,
      CatalogAll, ValuesAll, Stored, DigestOf, Truncate, Lasts, Judge, RowPlan, Upserted, Budgeted, DistinctBy,
      Recording, Answer;
    CoreOfInv(p, db);
    JobsOfCore(p, db);
    TakenIs(p, db, token, reply, now);
    var t, cpe := Recording(p, db, token, reply, now).value, db.sessions[token].cpe;
    var r := Recorded(p, db, token, t.id, t.plan, reply, t.verdict, EvidenceFor(p, db, t, reply, now), now);
    AdvanceActiveQuiet(p, r, cpe, now);
    CatalogNothing(db.catalog, cpe, t.id, now);
    if reply.NamesReply? && t.verdict.reason.None? {
      TruncatesExactly(db.jobs, cpe, t.id, reply.names);
      TruncatedNames(db.jobs, cpe, t.id, reply.names);
      var (kept, jobs) := Truncate(db.jobs, cpe, t.id, reply.names);
      CatalogExactly(db.catalog, cpe, kept, |kept|, t.id, now);
    }
  }

  lemma CatalogNothing(catalog: map<PathKey, CatalogRow>, cpe: Id, id: Id, now: Time)
    ensures CatalogAll(catalog, cpe, [], 0, id, now) == catalog
  {}

  /** What a recorded reply leaves of its operation, its attempt and its session: the operation is over, for the reason
      of the verdict and with its items, the device's fault code exactly when it answered with a fault, and evidence
      exactly when it was asked for and the reply fits the request. */
  lemma AnswerLeaves(p: Policy, db: Db, token: string, reply: Reply, now: Time)
    requires Contract(p) && DistinctReply(reply) && Inv(p, db) && token in db.sessions
             && Recording(p, db, token, reply, now).Some?
    ensures var t, later := Recording(p, db, token, reply, now).value, Settle(db, Answer(p, db, token, reply, now));
            && t.id in db.ops && t.id in later.ops && t.id in later.attempts && token in later.sessions
            && var was, op := db.ops[t.id], later.ops[t.id];
            && was.state.Dispatched? && op.ask == was.ask && op.finishedAt == Some(now)
            && op.state == (if t.verdict.reason.None? then Succeeded else Failed) && op.reason == t.verdict.reason
            && op.fault == (match reply case FaultReply(_, code) => Some(code) case _ => None)
            && (reply.FaultReply? ==> op.reason == Some(CpeFault))
            && op.result == t.verdict.items
            && (op.evidence.Some? <==> was.ask.capture && op.reason != Some(UnexpectedParameters))
            && (op.evidence.Some? ==> op.evidence == p.evidence(reply, t.plan, was.ask.kind, now))
            && later.attempts[t.id].session == token && later.attempts[t.id].rpcId == reply.rpcId
            && later.attempts[t.id].digest == Some(DigestOf(reply, t.verdict)) && later.sessions[token].state.Completed?
  {
    hide Inv, PlanContract, PermittedContract, DiscoveryContract, ObservationContract, DistinctReply, AdvanceActive,
      CatalogAll, ValuesAll, Stored, DigestOf, Truncate, Lasts, Answering, Judge, NoNewSuccess, Evolves, RowPlan;
    TakenIs(p, db, token, reply, now);
    TakenAnswers(p, db, token, reply, now);
    var t, cpe := Recording(p, db, token, reply, now).value, db.sessions[token].cpe;
    var evidence := EvidenceFor(p, db, t, reply, now);
    AnsweredOps(p, db, token, t.id, t.plan, reply, t.verdict, evidence, now);
    var r := Recorded(p, db, token, t.id, t.plan, reply, t.verdict, evidence, now);
    AdvanceActiveQuiet(p, r, cpe, now);
    AdvanceActiveSessions(p, r, cpe, now);
    if reply.FaultReply? { FaultVerdict(p, db.ops[t.id].ask, t.plan, reply, now, t.id); }
  }

  lemma AdvanceActiveSessions(p: Policy, db: Db, cpe: Id, now: Time)
    ensures AdvanceActive(p, db, cpe, now).sessions == db.sessions
  {
    hide Launch, ReadyJob, Waits;
  }

  lemma FaultVerdict(p: Policy, ask: Ask, plan: Plan, reply: Reply, now: Time, id: Id)
    requires reply.FaultReply?
    ensures Judge(p, ask, plan, reply, now, id) == Some(Rejected(CpeFault))
  {}

  // ----- Every step -----

  /** Rows cite operations that succeeded. */
  lemma CitesSucceeded(p: Policy, db: Db)
    requires Inv(p, db)
    ensures forall k | k in db.catalog :: HasSucceeded(db.ops, db.catalog[k].operation)
    ensures forall k | k in db.values :: HasSucceeded(db.ops, db.values[k].operation)
  {
    hide JobsOk, OneActive, OneRunning, JobsDrive, OpKeys, JobKeys, Accounted, StoreOk, Coupled, Steady, OpsLinked,
      JobsLinked, CpesLinked, SessionsLinked, AskedNames, DirectChild;
  }

  lemma LoggedKeeps(log: Log, ops: map<Id, Op>, later: map<Id, Op>, catalog: map<PathKey, CatalogRow>,
                    reply: Option<Reply>, now: Time)
    ensures var next := Logged(log, ops, later, catalog, reply, now);
            forall i | i in log && HasSucceeded(ops, i) :: i in next && next[i] == log[i]
    ensures var next := Logged(log, ops, later, catalog, reply, now);
            reply.Some? ==> forall i | HasSucceeded(later, i) && !HasSucceeded(ops, i) ::
              i in next && next[i].reply == reply.value
  {}

  lemma ExchangeRows(p: Policy, db: Db, token: string, reply: Option<Reply>, rpcId: string, now: Time, log: Log)
    requires Contract(p) && Inv(p, db) && (reply.Some? ==> DistinctReply(reply.value))
             && RowsReported(db.catalog, db.values, log)
    ensures var d := Settle(db, Exchange(p, db, token, reply, rpcId, now));
            RowsReported(d.catalog, d.values, Logged(log, db.ops, d.ops, db.catalog, reply, now))
  {
    hide Inv, PlanContract, PermittedContract, DiscoveryContract, ObservationContract, Evolves, Poll, Answer,
      AdvanceActive, Expire, DistinctReply, Logged, QuietJob, NewJobQuiet, Lasts, NoNewSuccess, Brings, NameReported,
      ValueReported;
    var d := Settle(db, Exchange(p, db, token, reply, rpcId, now));
    CitesSucceeded(p, db);
    LoggedKeeps(log, db.ops, d.ops, db.catalog, reply, now);
    if token in db.sessions && db.sessions[token].cpe in db.store.cpes {
      var cpe := db.sessions[token].cpe;
      PreparedKeeps(p, db, cpe, now);
      PreparedQuiet(p, db, cpe, now);
      var mid := Prepared(p, db, cpe, now);
      if reply.None? {
        PollQuiet(p, mid, token, rpcId, now);
      } else {
        AnswerBrings(p, mid, token, reply.value, now);
        if !(d.catalog == db.catalog && d.values == db.values) {
          var id :| id in mid.ops && mid.ops[id].state.Dispatched?
                    && Brings(mid, d, id, reply.value, HasSucceeded(d.ops, id));
          StillSucceeds(db.ops, mid.ops, id);
          BroughtRows(mid, d, id, reply.value, log, Logged(log, db.ops, d.ops, db.catalog, reply, now));
        }
      }
    }
  }

  lemma StillSucceeds(ops: map<Id, Op>, later: map<Id, Op>, id: Id)
    requires Evolves(ops, later)
    ensures HasSucceeded(ops, id) ==> HasSucceeded(later, id)
  {}

  lemma BroughtRows(db: Db, later: Db, id: Id, reply: Reply, log: Log, next: Log)
    requires RowsReported(db.catalog, db.values, log) && Brings(db, later, id, reply, HasSucceeded(later.ops, id))
    requires forall k | k in db.catalog ::
               var i := db.catalog[k].operation; i in log ==> i in next && next[i] == log[i]
    requires forall k | k in db.values :: var i := db.values[k].operation; i in log ==> i in next && next[i] == log[i]
    requires HasSucceeded(later.ops, id) ==> id in next && next[id].reply == reply
    ensures RowsReported(later.catalog, later.values, next)
  {
    hide NameReported, ValueReported, HasSucceeded;
  }

  lemma StepRows(p: Policy, db: Db, a: Action, log: Log)
    requires Contract(p) && Inv(p, db) && Possible(a) && RowsReported(db.catalog, db.values, log)
    ensures var d := Act(p, db, a);
            RowsReported(d.catalog, d.values, Logged(log, db.ops, d.ops, db.catalog, ReplyIn(a), a.now))
  {
    hide Contract, Inv, RowsReported, Logged, Create, Get, CreateJob, GetJob, Exchange, Accept, Complete, Bind,
      Approve, Lasts, AnsweredBetween, DistinctReply, FromInform, QuietJob, NewJobQuiet, NoNewSuccess;
    if a.DoExchange? {
      ExchangeRows(p, db, a.token, a.reply, a.rpcId, a.now, log);
    } else {
      ExactlyOnceEffects(p, db, a);
      OthersQuietStep(p, db, a);
      NothingLogged(log, db.ops, Act(p, db, a).ops, db.catalog, None, a.now);
    }
  }

  // ----- Every run -----

  /** After any run, every row of the catalog holds what the reply recorded by its operation said of that name, and
      every value row the value and type that the reply of its operation reported under that name. */
  lemma {:induction false} RowsOfRun(p: Policy, actions: seq<Action>)
    requires Contract(p) && AllPossible(actions)
    ensures var db := Run(p, EMPTY, actions); RowsReported(db.catalog, db.values, LogOf(p, actions))
  {
    hide Contract, Possible, Act, Inv, Logged, NameReported, ValueReported;
    if actions != [] {
      var before := actions[..|actions| - 1];
      RowsOfRun(p, before);
      EmptyInv(p);
      RunKeeps(p, EMPTY, before);
      StepRows(p, Run(p, EMPTY, before), actions[|actions| - 1], LogOf(p, before));
    }
  }

  /** The device reported the reviewed firmware and a clean hardware version, both as text. */
  predicate ReportsReviewed(reply: Reply) {
    && reply.ValuesReply?
    && (exists q ::
          q in reply.parameters && q.name == "InternetGatewayDevice.DeviceInfo.SoftwareVersion"
          && q.xsdType == "xsd:string" && Printable(q.value) && Strip(q.value) == REVIEWED_FIRMWARE)
    && (exists q ::
          q in reply.parameters && q.name == "InternetGatewayDevice.DeviceInfo.HardwareVersion"
          && q.xsdType == "xsd:string" && Printable(q.value))
  }

  /** After any run, a status that is approved or validated rests on one reply: the one that the bound operation, a read
      of this CPE, recorded in the one step in which it succeeded, and that reported the reviewed firmware and a clean
      hardware version. */
  lemma ApprovedAsReported(p: Policy, actions: seq<Action>, cpe: Id)
    requires Contract(p) && AllPossible(actions)
    requires var db := Run(p, EMPTY, actions);
             cpe in db.store.cpes && cpe in db.store.approvals && db.store.approvals[cpe].operation in db.ops
             && (Status(db, cpe).state.Approved? || Status(db, cpe).state.Validated?)
    ensures var db, log := Run(p, EMPTY, actions), LogOf(p, actions);
            var id := db.store.approvals[cpe].operation;
            && db.ops[id].ask.cpe == cpe && id in log && ReportsReviewed(log[id].reply)
            && exists k :: 0 <= k < |actions| && LoggedAt(p, actions, k, id, log[id])
  {
    hide Run, Contract, AllPossible, LogOf, Inv, Status, Printable, Strip, AskedNames, LoggedAt, ReportsReviewed,
      ValueReported, NameReported;
    var db, log := Run(p, EMPTY, actions), LogOf(p, actions);
    EmptyInv(p);
    RunKeeps(p, EMPTY, actions);
    ApprovedIsGrounded(p, db, cpe);
    RowsOfRun(p, actions);
    LogOrigin(p, actions, db.store.approvals[cpe].operation);
    Rested(db.values, log, cpe, db.store.approvals[cpe].operation);
  }

  /** The two values that an approval rests on were reported together. */
  lemma Rested(values: map<PathKey, ValueRow>, log: Log, cpe: Id, id: Id)
    requires RowsReported(map[], values, log)
    requires (cpe, FIRMWARE_NAME) in values && (cpe, HARDWARE_NAME) in values
             && values[(cpe, FIRMWARE_NAME)].operation == id && values[(cpe, HARDWARE_NAME)].operation == id
    requires var f, h := values[(cpe, FIRMWARE_NAME)], values[(cpe, HARDWARE_NAME)];
             && f.xsdType == "xsd:string" && Printable(f.value) && Strip(f.value) == REVIEWED_FIRMWARE
             && h.xsdType == "xsd:string" && Printable(h.value)
    ensures id in log && ReportsReviewed(log[id].reply)
  {
    hide Printable, Strip;
    assert FIRMWARE_NAME == "InternetGatewayDevice.DeviceInfo.SoftwareVersion";
    assert HARDWARE_NAME == "InternetGatewayDevice.DeviceInfo.HardwareVersion";
  }
}
