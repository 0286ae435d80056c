/** When an effective approval lapses: it rests on the values that the bound operation left, and the next successful
    read of the firmware or the hardware takes them over, the one that collecting starts included. */
module ApprovalLapse {
  import opened Text
  import opened Domain
  import opened Policies
  import opened Jobs
  import opened Registers
  import opened Queue
  import opened Invariants
  import opened QueueProofs
  import opened AdvanceProofs
  import opened AnswerProofs
  import opened OperationProofs
  import opened Validation
  import opened Runs
  import opened Effects
  import opened QuietSteps
  import opened ReplyLog
  import opened ObservedRuns

  // ----- The values that a reply takes over -----

  /** The value of a name is not, or no longer, the one that the operation left. */
  predicate Lost(values: map<PathKey, ValueRow>, c: Id, id: Id, name: string) {
    (c, name) !in values || values[(c, name)].operation != id
  }

  /** After an upsert each name given cites the new operation, unless its row was newer; rows only change to cite it,
      and never to an earlier time. */
  lemma {:induction false} ValuesTaken(values: map<PathKey, ValueRow>, cpe: Id, ps: seq<Parameter>, n: nat, id: Id,
                                       now: Time)
    requires n <= |ps|
    ensures var later := ValuesAll(values, cpe, ps, n, id, now);
            && (forall i | 0 <= i < n ::
                  (cpe, ps[i].name) in later
                  && (later[(cpe, ps[i].name)].operation == id
                      || ((cpe, ps[i].name) in values && values[(cpe, ps[i].name)].observedAt > now)))
            && (forall k | k in values ::
                  k in later && (later[k] == values[k] || (later[k].operation == id
                                                           && later[k].observedAt == now >= values[k].observedAt)))
            && (forall k | k in later && k !in values :: later[k].operation == id)
            && (n == 0 ==> later == values)
  {
    if n > 0 { ValuesTaken(values, cpe, ps, n - 1, id, now); }
  }

  /** A read of selected names that succeeded keeps a value for every one of them. */
  lemma SelectedKept(p: Policy, ask: Ask, t: Taken, reply: Reply, now: Time, name: string)
    requires PermittedContract(p) && PlanFits(p.defaults, t.plan, t.plan.target, ask.scope, ask.path, ask.requested)
    requires Ascending(Self, ask.requested) && name in ask.requested && ask.scope.DeviceInfo? && ask.kind.GetValues?
    requires DistinctReply(reply) && Judge(p, ask, t.plan, reply, now, t.id) == Some(t.verdict)
             && t.verdict.reason.None?
    ensures exists i :: 0 <= i < |Kept(p, reply, t)| && Kept(p, reply, t)[i].name == name
  {
    JudgeSelected(p, ask, t.plan, reply, now, t.id);
    var kept, items := Kept(p, reply, t), t.verdict.items;
    var k :| 0 <= k < |items| && ItemNames(items)[k] == name;
    SortMembers(ItemName, MapItems(ValueItem, kept));
    assert items[k] in MapItems(ValueItem, kept);
    MapItemsMembers(ValueItem, kept, items[k]);
    var q :| q in kept && ValueItem(q) == items[k];
  }

  // ----- One step -----

  /** What an answer that is recorded makes of its operation. */
  lemma TakenAnswers(p: Policy, db: Db, token: string, reply: Reply, now: Time)
    requires Contract(p) && DistinctReply(reply) && Inv(p, db) && token in db.sessions
             && Recording(p, db, token, reply, now).Some?
    ensures var t, later := Recording(p, db, token, reply, now).value, Settle(db, Answer(p, db, token, reply, now));
            && Answering(p, db, token, t.id, t.plan, reply, t.verdict, now)
            && t.id in later.ops && later.ops[t.id].ask == db.ops[t.id].ask && later.ops[t.id].finishedAt == Some(now)
            && (later.ops[t.id].state.Succeeded? <==> t.verdict.reason.None?)
  {
    hide Inv, Core, Contract, RowPlan, Judge, Recorded, AdvanceActive, DigestOf, Answering, Captures, Evolves,
      NoNewSuccess;
    CoreOfInv(p, db);
    var t := Recording(p, db, token, reply, now).value;
    AttemptConcerns(p, db, token, t.id);
    IsAnswering(p, db, token, t.id, t.plan, reply, t.verdict, now);
    var op := db.ops[t.id];
    var evidence := if Captures(op, t.verdict) then p.evidence(reply, t.plan, op.ask.kind, now) else None;
    AnsweredOps(p, db, token, t.id, t.plan, reply, t.verdict, evidence, now);
    AnsweredState(op, t.verdict, reply, evidence, now);
  }

  /** A read of the name, from this CPE. */
  predicate Reads(ask: Ask, c: Id, name: string) {
    ask.cpe == c && ask.kind.GetValues? && ask.scope.DeviceInfo? && name in ask.requested
  }

  /** `k` finished and not before `id` did. */
  predicate NotBefore(ops: map<Id, Op>, k: Id, id: Id) {
    k in ops && id in ops && ops[k].finishedAt.Some? && ops[id].finishedAt.Some?
    && ops[k].finishedAt.value >= ops[id].finishedAt.value
  }

  /** `k` succeeded between the two states, not before `id` did. */
  predicate Since(ops: map<Id, Op>, later: map<Id, Op>, id: Id, k: Id) {
    HasSucceeded(later, k) && !HasSucceeded(ops, k) && NotBefore(later, k, id)
  }

  predicate ReadSince(ops: map<Id, Op>, later: map<Id, Op>, c: Id, id: Id, name: string, k: Id) {
    Since(ops, later, id, k) && Reads(later[k].ask, c, name)
  }

  /** The same of any values read that asked for the name, by default or by selection. */
  predicate AskedSince(defaults: seq<string>, ops: map<Id, Op>, later: map<Id, Op>, c: Id, id: Id, name: string,
                       k: Id) {
    Since(ops, later, id, k) && later[k].ask.cpe == c && later[k].ask.kind.GetValues?
        && name in AskedNames(defaults, later[k].ask)
  }

  /** What a step does to the value of a name that `id` left: once lost it stays lost; a read that succeeds in this
      step, not before `id` did, takes it over; and nothing else changes it than an operation that succeeds in this
      step. */
  ghost predicate ValueStep(db: Db, later: Db, c: Id, id: Id, name: string) {
    && ((c, name) in db.values ==> (c, name) in later.values && RowStep(db, later, (c, name)))
    && (Lost(db.values, c, id, name) ==> Lost(later.values, c, id, name))
    && (forall k | ReadSince(db.ops, later.ops, c, id, name, k) :: Lost(later.values, c, id, name))
  }

  /** The row is as it was, or an operation that was not over before took it over, no earlier. */
  ghost predicate RowStep(db: Db, later: Db, k: PathKey)
    requires k in db.values && k in later.values
  {
    || later.values[k] == db.values[k]
    || (&& HasSucceeded(later.ops, later.values[k].operation) && !HasSucceeded(db.ops, later.values[k].operation)
        && later.values[k].observedAt >= db.values[k].observedAt)
  }

  lemma QuietValues(db: Db, later: Db, c: Id, id: Id, name: string)
    requires later.values == db.values && NoNewSuccess(db.ops, later.ops)
    ensures ValueStep(db, later, c, id, name)
  {}

  /** The value that cites a succeeded read was observed when that read finished. */
  lemma ValueTime(p: Policy, db: Db, c: Id, id: Id, name: string)
    requires Inv(p, db) && !Lost(db.values, c, id, name)
    ensures id in db.ops && db.ops[id].finishedAt == Some(db.values[(c, name)].observedAt)
  {
    hide JobsOk, OneActive, OneRunning, JobsDrive, OpKeys, JobKeys, Accounted, CatalogSourced, StoreOk, Coupled,
      Steady, OpsLinked, JobsLinked, CpesLinked, SessionsLinked, AskedNames;
  }

  lemma OpAscends(p: Policy, db: Db, id: Id)
    requires Inv(p, db) && id in db.ops
    ensures Ascending(Self, db.ops[id].ask.requested)
  {
    hide Inv, Core, OpsOk, Ascending;
    CoreOfInv(p, db);
    CoreParts(p, db);
    OpOfOps(db, id);
  }

  lemma AnswerValues(p: Policy, db: Db, token: string, reply: Reply, now: Time, c: Id, id: Id, name: string)
    requires Contract(p) && DistinctReply(reply) && Inv(p, db) && token in db.sessions
    requires id in db.ops && db.ops[id].state.Succeeded?
    ensures ValueStep(db, Settle(db, Answer(p, db, token, reply, now)), c, id, name)
  {
    hide Inv, Core, Contract, RowPlan, Judge, Answer, DistinctReply, Recording, Stored, ValuesAll, Kept, NoNewSuccess,
      Answering;
    AnswerStores(p, db, token, reply, now);
    var later := Settle(db, Answer(p, db, token, reply, now));
    var found := Recording(p, db, token, reply, now);
    if found.None? {
      QuietValues(db, later, c, id, name);
    } else {
      var t, cpe := found.value, db.sessions[token].cpe;
      TakenAnswers(p, db, token, reply, now);
      KeptOnSuccess(p, reply, t);
      ValuesTaken(db.values, cpe, Kept(p, reply, t), |Kept(p, reply, t)|, t.id, now);
      if HasSucceeded(later.ops, t.id) && Reads(later.ops[t.id].ask, c, name) && NotBefore(later.ops, t.id, id) {
        TakesOver(p, db, token, reply, now, c, id, name);
      }
    }
  }

  lemma KeptOnSuccess(p: Policy, reply: Reply, t: Taken)
    ensures Kept(p, reply, t) != [] ==> t.verdict.reason.None?
  {}

  lemma TakesOver(p: Policy, db: Db, token: string, reply: Reply, now: Time, c: Id, id: Id, name: string)
    requires Contract(p) && DistinctReply(reply) && Inv(p, db) && token in db.sessions
             && Recording(p, db, token, reply, now).Some?
    requires id in db.ops && db.ops[id].state.Succeeded?
    requires var t, later := Recording(p, db, token, reply, now).value, Settle(db, Answer(p, db, token, reply, now));
             HasSucceeded(later.ops, t.id) && Reads(later.ops[t.id].ask, c, name) && NotBefore(later.ops, t.id, id)
    ensures Lost(Settle(db, Answer(p, db, token, reply, now)).values, c, id, name)
  {
    hide Inv, Core, RowPlan, Judge, Answer, DistinctReply, Recording, Stored, ValuesAll, Kept, NoNewSuccess,
      Answering, Contract, Evolves, PlanFits;
    AnswerStores(p, db, token, reply, now);
    TakenAnswers(p, db, token, reply, now);
    AnswerKeeps(p, db, token, reply, now);
    var t, later := Recording(p, db, token, reply, now).value, Settle(db, Answer(p, db, token, reply, now));
    StillFinished(db.ops, later.ops, id);
    AnsweringFacts(p, db, token, t.id, t.plan, reply, t.verdict, now);
    AnsweringPlan(p, db, token, t, reply, now);
    OpAscends(p, db, t.id);
    SelectedKept(p, db.ops[t.id].ask, t, reply, now, name);
    ValuesTaken(db.values, c, Kept(p, reply, t), |Kept(p, reply, t)|, t.id, now);
    if !Lost(db.values, c, id, name) { ValueTime(p, db, c, id, name); }
  }

  lemma AnsweringPlan(p: Policy, db: Db, token: string, t: Taken, reply: Reply, now: Time)
    requires Answering(p, db, token, t.id, t.plan, reply, t.verdict, now)
    ensures t.id in db.ops && PermittedContract(p) && DistinctReply(reply)
    ensures var ask := db.ops[t.id].ask;
            && PlanFits(p.defaults, t.plan, t.plan.target, ask.scope, ask.path, ask.requested)
            && Judge(p, ask, t.plan, reply, now, t.id) == Some(t.verdict)
  {}

  lemma StillFinished(ops: map<Id, Op>, later: map<Id, Op>, id: Id)
    requires id in ops && !Active(ops[id])
    ensures Evolves(ops, later) ==> id in later && later[id] == ops[id]
  {}

  // ----- Every step, every run -----

  lemma ExchangeValues(p: Policy, db: Db, token: string, reply: Option<Reply>, rpcId: string, now: Time, c: Id, id: Id,
                       name: string)
    requires Contract(p) && Inv(p, db) && (reply.Some? ==> DistinctReply(reply.value))
    requires id in db.ops && db.ops[id].state.Succeeded?
    ensures ValueStep(db, Settle(db, Exchange(p, db, token, reply, rpcId, now)), c, id, name)
  {
    hide Inv, Core, Evolves, Poll, Answer, AdvanceActive, Expire, DistinctReply, PlanContract, PermittedContract,
      DiscoveryContract, ObservationContract, NoNewSuccess, QuietJob, NewJobQuiet, Lost;
    NoneNew(db.ops);
    QuietValues(db, db, c, id, name);
    if token in db.sessions && db.sessions[token].cpe in db.store.cpes {
      var cpe := db.sessions[token].cpe;
      PreparedKeeps(p, db, cpe, now);
      PreparedQuietStep(p, db, cpe, now);
      var d := Prepared(p, db, cpe, now);
      StillFinished(db.ops, d.ops, id);
      if reply.None? {
        PollQuietStep(p, d, token, rpcId, now);
        PollQuiet(p, d, token, rpcId, now);
        var o := Poll(p, d, token, rpcId, now);
        if o.Commit? {
          QuietValues(d, o.db, c, id, name);
          ValueStepLater(db, d, o.db, c, id, name);
        }
      } else {
        AnswerValues(p, d, token, reply.value, now, c, id, name);
        var o := Answer(p, d, token, reply.value, now);
        if o.Commit? { ValueStepLater(db, d, o.db, c, id, name); }
      }
    }
  }

  lemma ValueStepLater(db: Db, mid: Db, later: Db, c: Id, id: Id, name: string)
    requires mid.values == db.values && Evolves(db.ops, mid.ops) && NoNewSuccess(db.ops, mid.ops)
    requires ValueStep(mid, later, c, id, name)
    ensures ValueStep(db, later, c, id, name)
  {
    hide Lost, Reads, NotBefore;
    forall k | ReadSince(db.ops, later.ops, c, id, name, k) ensures Lost(later.values, c, id, name) {
      assert ReadSince(mid.ops, later.ops, c, id, name, k);
    }
  }

  lemma StepValues(p: Policy, db: Db, a: Action, c: Id, id: Id, name: string)
    requires Contract(p) && Inv(p, db) && Possible(a) && id in db.ops && db.ops[id].state.Succeeded?
    ensures ValueStep(db, Act(p, db, a), c, id, name)
  {
    hide Inv, Contract, Create, Get, CreateJob, GetJob, Exchange, Accept, Complete, Bind, Approve, Lasts,
      AnsweredBetween, DistinctReply, FromInform, QuietJob, NewJobQuiet, NoNewSuccess, ValueStep;
    if a.DoExchange? {
      ExchangeValues(p, db, a.token, a.reply, a.rpcId, a.now, c, id, name);
    } else {
      ExactlyOnceEffects(p, db, a);
      OthersQuietStep(p, db, a);
      QuietValues(db, Act(p, db, a), c, id, name);
    }
  }

  /** Over any run: a value lost to another read stays lost; and every read of the name that succeeds in the run, not
      before the bound one did, takes its value over. */
  lemma {:induction false} RunValues(p: Policy, db: Db, actions: seq<Action>, c: Id, id: Id, name: string)
    requires Contract(p) && Inv(p, db) && AllPossible(actions) && id in db.ops && db.ops[id].state.Succeeded?
    ensures var e := Run(p, db, actions); id in e.ops && e.ops[id] == db.ops[id] && ValueStep(db, e, c, id, name)
  {
    hide Inv, Contract, Possible, Act, ValueStep, Evolves;
    if actions == [] {
      NoneNew(db.ops);
      QuietValues(db, db, c, id, name);
    } else {
      var n := |actions| - 1;
      var mid := Run(p, db, actions[..n]);
      RunValues(p, db, actions[..n], c, id, name);
      RunKeeps(p, db, actions[..n]);
      StepValues(p, mid, actions[n], c, id, name);
      StepKeeps(p, mid, actions[n]);
      StillFinished(mid.ops, Act(p, mid, actions[n]).ops, id);
      ValueStepsJoin(db, mid, Act(p, mid, actions[n]), c, id, name);
    }
  }

  lemma ValueStepsJoin(db: Db, mid: Db, later: Db, c: Id, id: Id, name: string)
    requires ValueStep(db, mid, c, id, name) && ValueStep(mid, later, c, id, name)
    requires Evolves(db.ops, mid.ops) && Evolves(mid.ops, later.ops)
    requires id in mid.ops && mid.ops[id].state.Succeeded?
    ensures ValueStep(db, later, c, id, name)
  {
    hide Lost;
    forall k | ReadSince(db.ops, later.ops, c, id, name, k) ensures Lost(later.values, c, id, name) {
      if HasSucceeded(mid.ops, k) {
        assert ReadSince(db.ops, mid.ops, c, id, name, k);
      } else {
        assert ReadSince(mid.ops, later.ops, c, id, name, k);
      }
    }
  }

  // ----- The approval -----

  /** A value that the bound operation left is lost in a run exactly to reads of it: another operation of the CPE that
      asked for the name succeeded in the run, not before the bound one did; and every read that names it does take it
      over. */
  lemma LostToReads(p: Policy, db: Db, actions: seq<Action>, c: Id, id: Id, name: string)
    requires Contract(p) && Inv(p, db) && AllPossible(actions) && HasSucceeded(db.ops, id)
             && !Lost(db.values, c, id, name)
    ensures var e := Run(p, db, actions);
            && (Lost(e.values, c, id, name) ==> exists k :: AskedSince(p.defaults, db.ops, e.ops, c, id, name, k))
            && (forall k | ReadSince(db.ops, e.ops, c, id, name, k) :: Lost(e.values, c, id, name))
  {
    hide Inv, Contract, AllPossible, Run, AskedNames, Evolves;
    var e := Run(p, db, actions);
    RunValues(p, db, actions, c, id, name);
    RunKeeps(p, db, actions);
    ValueTime(p, db, c, id, name);
    if Lost(e.values, c, id, name) {
      ValueSource(p, e, c, name);
      assert AskedSince(p.defaults, db.ops, e.ops, c, id, name, e.values[(c, name)].operation);
    }
  }

  lemma ValueSource(p: Policy, db: Db, c: Id, name: string)
    requires Inv(p, db) && (c, name) in db.values
    ensures var k := db.values[(c, name)].operation;
            && HasSucceeded(db.ops, k) && db.ops[k].ask.cpe == c && db.ops[k].ask.kind.GetValues?
            && name in AskedNames(p.defaults, db.ops[k].ask)
            && db.ops[k].finishedAt == Some(db.values[(c, name)].observedAt)
  {
    hide JobsOk, OneActive, OneRunning, JobsDrive, OpKeys, JobKeys, Accounted, CatalogSourced, StoreOk, Coupled,
      Steady, OpsLinked, JobsLinked, CpesLinked, SessionsLinked, AskedNames;
  }

  /** An approval whose firmware or hardware value is lost is neither effective nor open to being granted. */
  lemma LostIsNotValid(p: Policy, db: Db, c: Id, name: string, key: nat, now: Time)
    requires Inv(p, db) && c in db.store.cpes && c in db.store.approvals && db.store.approvals[c].operation in db.ops
    requires name in {FIRMWARE_NAME, HARDWARE_NAME} && Lost(db.values, c, db.store.approvals[c].operation, name)
    ensures !Status(db, c).state.Approved? && !Status(db, c).state.Validated? && Gather(p, db, c, key, now).Raised?
  {
    hide Inv, Create, ExpireSessions, Matches, Printable, Strip, ModelReport;
  }

  lemma LapsesAfter(p: Policy, db: Db, actions: seq<Action>, c: Id, id: Id, k: Id, name: string, key: nat, now: Time)
    requires Contract(p) && Inv(p, db) && AllPossible(actions) && name in {FIRMWARE_NAME, HARDWARE_NAME}
    requires HasSucceeded(db.ops, id)
    requires var e := Run(p, db, actions);
             && ReadSince(db.ops, e.ops, c, id, name, k)
             && c in e.store.cpes && c in e.store.approvals && e.store.approvals[c].operation == id
    ensures var e := Run(p, db, actions);
            && id in e.ops && !Status(e, c).state.Approved? && !Status(e, c).state.Validated?
            && Gather(p, e, c, key, now).Raised?
  {
    hide Inv, Contract, AllPossible, Run, Status, Gather, Lost, ReadSince, Evolves;
    RunValues(p, db, actions, c, id, name);
    RunKeeps(p, db, actions);
    LostIsNotValid(p, Run(p, db, actions), c, name, key, now);
  }

  /** A later read of the firmware or the hardware ends an effective approval: as long as it is bound to the operation
      that was approved, it is not effective after any run in which such a read succeeded, not before that operation
      did, and collecting is refused. */
  lemma ReadEndsApproval(p: Policy, db: Db, actions: seq<Action>, c: Id, k: Id, name: string, key: nat, now: Time)
    requires Contract(p) && Inv(p, db) && AllPossible(actions) && name in {FIRMWARE_NAME, HARDWARE_NAME}
    requires c in db.store.cpes && c in db.store.approvals && db.store.approvals[c].operation in db.ops
    requires Status(db, c).state.Approved? || Status(db, c).state.Validated?
    requires var e, id := Run(p, db, actions), db.store.approvals[c].operation;
             && ReadSince(db.ops, e.ops, c, id, name, k)
             && c in e.store.cpes && c in e.store.approvals && e.store.approvals[c].operation == id
    ensures var e := Run(p, db, actions);
            && e.store.approvals[c].operation in e.ops && !Status(e, c).state.Approved?
            && !Status(e, c).state.Validated?
            && Gather(p, e, c, key, now).Raised?
  {
    hide Inv, Contract, AllPossible, Run, Status, Gather, Lost, Reads, NotBefore, Strip, AskedNames, Evolves;
    ApprovedIsGrounded(p, db, c);
    LapsesAfter(p, db, actions, c, db.store.approvals[c].operation, k, name, key, now);
  }

  /** The read that collecting starts is such a read. */
  lemma GatherReads(p: Policy, db: Db, c: Id, key: nat, now: Time)
    requires PlanContract(p) && Gather(p, db, c, key, now).Commit?
    ensures var o := Gather(p, db, c, key, now);
            && o.result in o.db.ops
            && (o.result !in db.ops ==>
                  !HasSucceeded(o.db.ops, o.result) && forall name | name in {FIRMWARE_NAME, HARDWARE_NAME} ::
                      Reads(o.db.ops[o.result].ask, c, name))
  {
    hide PlanContract, Status, Expire, OpByKey, SameRequest, CreatePlan;
    var id := db.store.approvals[c].operation;
    var r := Request(c, GetValues, key, DeviceInfo, None, false, [HARDWARE_NAME, FIRMWARE_NAME]);
    var d := Get(db, c, id, now).db;
    ExpiredOps(db, c, now);
    ExpiredOps(d, c, now);
    var target := TargetOf(db.store.cpes[c]);
    if CreatePlan(p, target, r, []).Ok? { GatherPlan(p, target, r, now); }
  }

  lemma ExpiredOps(db: Db, cpe: Id, now: Time)
    ensures var d := Expire(db, cpe, now);
            d.ops.Keys == db.ops.Keys && d.store == db.store && forall i :: HasSucceeded(d.ops, i) <==>
                  HasSucceeded(db.ops, i)
  {
    hide ExpireSessions;
  }

  lemma GatherPlan(p: Policy, target: Target, r: Request, now: Time)
    requires PlanContract(p) && r.kind.GetValues? && r.scope.DeviceInfo? && r.names == [HARDWARE_NAME, FIRMWARE_NAME]
    requires CreatePlan(p, target, r, []).Ok?
    ensures forall name | name in {FIRMWARE_NAME, HARDWARE_NAME} ::
            Reads(RequestAsk(r, CreatePlan(p, target, r, []).value, now), r.cpe, name)
  {
    SortMembers(Self, r.names);
    assert HARDWARE_NAME in r.names && FIRMWARE_NAME in r.names;
  }

  /** So collecting ends the approval that allowed it: once the read that it started has succeeded, not before the
      approved operation did, the approval is no longer effective as long as it is bound to that operation. */
  lemma CollectingEndsApproval(p: Policy, db: Db, c: Id, key: nat, now: Time, actions: seq<Action>, again: nat,
                               later: Time)
    requires Contract(p) && Inv(p, db) && AllPossible(actions)
    requires Gather(p, db, c, key, now).Commit? && Gather(p, db, c, key, now).result !in db.ops
    requires var o, id := Gather(p, db, c, key, now), db.store.approvals[c].operation;
             var e := Run(p, o.db, actions);
             && HasSucceeded(e.ops, o.result) && NotBefore(e.ops, o.result, id)
             && c in e.store.cpes && c in e.store.approvals && e.store.approvals[c].operation == id
    ensures var e := Run(p, Gather(p, db, c, key, now).db, actions);
            && e.store.approvals[c].operation in e.ops && !Status(e, c).state.Approved?
            && !Status(e, c).state.Validated?
            && Gather(p, e, c, again, later).Raised?
  {
    hide Inv, PlanContract, PermittedContract, DiscoveryContract, ObservationContract, AllPossible, Run, Status,
      Gather, Reads, NotBefore;
    var o := Gather(p, db, c, key, now);
    GatherReads(p, db, c, key, now);
    GatherKeeps(p, db, c, key, now);
    RunKeeps(p, o.db, actions);
    AskStays(o.db.ops, Run(p, o.db, actions).ops, o.result);
    LapsesAfter(p, o.db, actions, c, db.store.approvals[c].operation, o.result, FIRMWARE_NAME, again, later);
  }

  lemma AskStays(ops: map<Id, Op>, later: map<Id, Op>, i: Id)
    requires i in ops && Evolves(ops, later)
    ensures i in later && later[i].ask == ops[i].ask
  {}

  lemma GatherKeeps(p: Policy, db: Db, c: Id, key: nat, now: Time)
    requires Contract(p) && Inv(p, db) && Gather(p, db, c, key, now).Commit?
    ensures Inv(p, Gather(p, db, c, key, now).db)
    ensures c in db.store.approvals && HasSucceeded(Gather(p, db, c, key, now).db.ops, db.store.approvals[c].operation)
  {
    hide Inv, PlanContract, PermittedContract, DiscoveryContract, ObservationContract, Status, Get, Create, Evolves,
      Strip, AskedNames;
    var id := db.store.approvals[c].operation;
    GetKeeps(p, db, c, id, now);
    var d := Get(db, c, id, now).db;
    ReadView(db, c, now);
    ApprovedIsGrounded(p, d, c);
    CreateKeeps(p, d, Request(c, GetValues, key, DeviceInfo, None, false, [HARDWARE_NAME, FIRMWARE_NAME]), [], now);
    StillFinished(d.ops, Gather(p, db, c, key, now).db.ops, id);
  }

  lemma ReadView(db: Db, c: Id, now: Time)
    requires ReadStatus(db, c, now).Commit?
    ensures var d := ReadStatus(db, c, now).db;
            && c in db.store.approvals && d.store == db.store
            && Get(db, c, db.store.approvals[c].operation, now).Commit?
            && d == Get(db, c, db.store.approvals[c].operation, now).db && c in d.store.cpes
            && d.store.approvals[c].operation in d.ops && ReadStatus(db, c, now).result == Status(d, c)
  {
    hide ExpireOps, ExpireSessions, Status;
  }

  /** Collecting is refused for want of approval exactly when the status, read first, is not an approved one; what it
      starts is a read of the two reviewed names, for a CPE whose granted approval, identity and firmware stand. */
  lemma CollectsExactly(p: Policy, db: Db, c: Id, key: nat, now: Time)
    requires Contract(p) && Inv(p, db)
    ensures var view, o := ReadStatus(db, c, now), Gather(p, db, c, key, now);
            && (view.Raised? ==> o.Raised? && o.error == view.error)
            && (view.Commit? && !view.result.state.Approved? ==>
                  o == Raised(Conflict("profile_not_approved_or_firmware_changed")))
            && (o.Commit? ==>
                  && view.Commit? && view.result.state.Approved? && c in db.store.approvals && c in db.store.cpes
                  && db.store.approvals[c].approvedAt.Some? && db.store.approvals[c].expectedFirmware
                     == REVIEWED_FIRMWARE
                  && db.store.cpes[c].firmware == Some(REVIEWED_FIRMWARE)
                  && (o.result !in db.ops && o.result in o.db.ops ==>
                        o.db.ops[o.result].ask.cpe == c && o.db.ops[o.result].ask.kind.GetValues?
                        && SetOf(o.db.ops[o.result].ask.requested) == {FIRMWARE_NAME, HARDWARE_NAME}))
  {
    hide Inv, PlanContract, PermittedContract, DiscoveryContract, ObservationContract, Get, Status, Create, Strip,
      AskedNames;
    if ReadStatus(db, c, now).Commit? {
      ReadView(db, c, now);
      var d := ReadStatus(db, c, now).db;
      if Status(d, c).state.Approved? {
        ApprovedStands(d, c);
        StartsReading(p, d, c, key, now);
        KeysKept(db, c, now);
      }
    }
  }

  lemma ApprovedStands(db: Db, c: Id)
    requires c in db.store.cpes && c in db.store.approvals && db.store.approvals[c].operation in db.ops
             && Status(db, c).state.Approved?
    ensures db.store.approvals[c].approvedAt.Some? && db.store.approvals[c].expectedFirmware == REVIEWED_FIRMWARE
            && db.store.cpes[c].firmware == Some(REVIEWED_FIRMWARE)
  {
    hide ValueReport, ModelReport, ReadValue;
  }

  lemma KeysKept(db: Db, c: Id, now: Time)
    requires ReadStatus(db, c, now).Commit?
    ensures ReadStatus(db, c, now).db.ops.Keys == db.ops.Keys
  {
    hide ExpireSessions, Status;
  }

  /** What a request for the two names adds. */
  lemma StartsReading(p: Policy, db: Db, c: Id, key: nat, now: Time)
    requires PlanContract(p)
    ensures var o := Create(p, db, Request(c, GetValues, key, DeviceInfo, None, false, [HARDWARE_NAME, FIRMWARE_NAME]),
                            [],
                            now);
            o.Commit? && o.result !in db.ops && o.result in o.db.ops ==>
              o.db.ops[o.result].ask.cpe == c && o.db.ops[o.result].ask.kind.GetValues?
              && SetOf(o.db.ops[o.result].ask.requested) == {FIRMWARE_NAME, HARDWARE_NAME}
  {
    hide PlanContract, Expire, SameRequest, CreatePlan;
    var r := Request(c, GetValues, key, DeviceInfo, None, false, [HARDWARE_NAME, FIRMWARE_NAME]);
    ExpiredOps(db, c, now);
    if c in db.store.cpes && CreatePlan(p, TargetOf(db.store.cpes[c]), r, []).Ok? {
      ReadsTwo(p, TargetOf(db.store.cpes[c]), r, now);
    }
  }

  lemma ReadsTwo(p: Policy, target: Target, r: Request, now: Time)
    requires PlanContract(p) && r.kind.GetValues? && r.scope.DeviceInfo? && r.names == [HARDWARE_NAME, FIRMWARE_NAME]
    requires CreatePlan(p, target, r, []).Ok?
    ensures SetOf(RequestAsk(r, CreatePlan(p, target, r, []).value, now).requested) == {FIRMWARE_NAME, HARDWARE_NAME}
  {
    SortMembers(Self, r.names);
    assert forall n :: n in r.names <==> n in {FIRMWARE_NAME, HARDWARE_NAME};
  }
}
