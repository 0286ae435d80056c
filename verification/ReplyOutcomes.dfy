/** What becomes of a reply: accepted and recorded, accepted without effect, or refused, case by case. */
module ReplyOutcomes {
  import opened Text
  import opened Domain
  import opened Policies
  import opened Jobs
  import opened Registers
  import opened Queue
  import opened Invariants
  import opened QueueProofs
  import opened OperationProofs
  import opened Effects
  import opened ObservedRuns
  import opened Commands
  import Telemetry
  import Huawei
  import Verdicts

  /** The operation that a reply answers: the attempt of this session under the identifier of the reply. */
  predicate Answers(db: Db, token: string, reply: Reply, id: Id) {
    id in db.attempts && db.attempts[id].session == token && db.attempts[id].rpcId == reply.rpcId
  }

  /** Only the session ends. */
  ghost predicate OnlyEnds(db: Db, token: string, now: Time, o: Outcome<Option<Command>>) {
    && o.Commit? && o.result.None? && token in db.sessions && token in o.db.sessions
    && o.db == db.(sessions := db.sessions[token := o.db.sessions[token]])
    && o.db.sessions[token].state.Completed? && o.db.sessions[token].cpe == db.sessions[token].cpe
    && o.db.sessions[token].completedAt ==
         (if db.sessions[token].completedAt.Some? then db.sessions[token].completedAt else Some(now))
  }

  /** The operation fails because the profile it was made for no longer applies, and the session ends. */
  ghost predicate Fails(db: Db, token: string, id: Id, now: Time, o: Outcome<Option<Command>>) {
    && o.Commit? && o.result.None? && id in db.ops && token in o.db.sessions
    && o.db == db.(ops := db.ops[id := db.ops[id].(state := Failed, reason := Some(ProfileChanged),
                                                   finishedAt := Some(now))],
                   sessions := db.sessions[token := o.db.sessions[token]])
    && o.db.sessions[token].state.Completed?
  }

  /** The plan by which a late reply is judged: that of the device as it is, or else the one restored from the profile
      stored with the operation. */
  function LatePlan(p: Policy, target: Target, ask: Ask): Option<Plan> {
    if RowPlan(p, target, ask).Some? then RowPlan(p, target, ask)
    else p.restore(ask.profileId, ask.profileVersion, ask.scope, ask.path, ask.requested)
  }

  /** What becomes of a reply to the operation `id`. */
  ghost predicate Settles(p: Policy, db: Db, token: string, id: Id, reply: Reply, now: Time,
                          o: Outcome<Option<Command>>)
    requires token in db.sessions && id in db.ops && db.sessions[token].cpe in db.store.cpes && id in db.attempts
  {
    var op, target := db.ops[id], TargetOf(db.store.cpes[db.sessions[token].cpe]);
    match op.state
    case Pending => false
    case Expired => OnlyEnds(db, token, now, o)
    case Dispatched =>
      if !StillPlanned(p, target, op.ask) then Fails(db, token, id, now, o)
      else
        var v := Judge(p, op.ask, RowPlan(p, target, op.ask).value, reply, now, id);
        if v.None? then o == Raised(InvalidSession)
        else if Captures(op, v.value) && p.evidence(reply, RowPlan(p, target, op.ask).value, op.ask.kind, now).None?
            then o == Raised(InvalidEvidence)
        else
          && o.Commit? && o.result.None?
          && Recording(p, db, token, reply, now) == Some(Taken(id, RowPlan(p, target, op.ask).value, v.value))
    case _ =>
      var plan := LatePlan(p, target, op.ask);
      var v := if plan.None? then None else Judge(p, op.ask, plan.value, reply, now, id);
      if v.Some? && db.attempts[id].digest == Some(DigestOf(reply, v.value)) then o == Commit(db, None)
      else o == Raised(InvalidSession)
  }

  /** A session has one attempt. */
  lemma OneAnswered(db: Db, token: string, reply: Reply, id: Id)
    requires OneAttemptEach(db.attempts) && Answers(db, token, reply, id)
    ensures AttemptFor(db.attempts, token, reply.rpcId) == Some(id)
  {}

  /** An operation with an attempt is not pending, and its session awaits the response exactly while it is in flight. */
  lemma AttemptStates(db: Db, token: string, id: Id)
    requires id in db.ops && id in db.attempts && token in db.sessions
             && AttemptOk(db.ops[id], db.attempts[id], db.sessions[token])
    ensures !db.ops[id].state.Pending?
    ensures db.ops[id].state.Dispatched? <==> db.sessions[token].state.AwaitingResponse?
  {}

  lemma AnswerCase(p: Policy, db: Db, token: string, reply: Reply, now: Time, id: Id)
    requires token in db.sessions && id in db.ops && id in db.attempts && db.sessions[token].cpe in db.store.cpes
    requires AttemptFor(db.attempts, token, reply.rpcId) == Some(id) && !db.ops[id].state.Pending?
    requires db.ops[id].state.Dispatched? <==> db.sessions[token].state.AwaitingResponse?
    requires var target := TargetOf(db.store.cpes[db.sessions[token].cpe]);
             RowPlan(p, target, db.ops[id].ask).Some? <==> StillPlanned(p, target, db.ops[id].ask)
    ensures Settles(p, db, token, id, reply, now, Answer(p, db, token, reply, now))
  {
    hide Judge, RowPlan, StillPlanned, Recorded, AdvanceActive, DigestOf, Captures;
  }

  /** A reply without an attempt of its session under its identifier is refused. To an operation that has expired it
      only ends the session; to one in flight it is recorded, unless the profile has changed, which fails the operation,
      the kind of reply does not fit or evidence asked for cannot be kept; to one that is over it changes nothing and is
      accepted exactly when it is the recorded reply again. */
  lemma ReplySettles(p: Policy, db: Db, token: string, reply: Reply, now: Time)
    requires PlanContract(p) && Inv(p, db) && token in db.sessions
    ensures db.sessions[token].cpe in db.store.cpes
    ensures var o := Answer(p, db, token, reply, now);
            && ((forall id :: !Answers(db, token, reply, id)) ==> o == Raised(InvalidSession))
            && (forall id | Answers(db, token, reply, id) ::
                  id in db.ops && Settles(p, db, token, id, reply, now, o))
  {
    hide Inv, Core, PlanContract, Answer, AttemptOk, StillPlanned, RowPlan, Settles, OneAttemptEach, AttemptsOk,
      OpsOk, WaitersAttempted;
    CoreOfInv(p, db);
    PollConcerns(p, db, token);
    CoreParts(p, db);
    forall id | Answers(db, token, reply, id) ensures id in db.ops && Settles(p, db, token, id, reply, now,
                                                                         Answer(p, db, token, reply, now))
    {
      OneAnswered(db, token, reply, id);
      AttemptConcerns(p, db, token, id);
      PlannedRow(p, TargetOf(db.store.cpes[db.sessions[token].cpe]), db.ops[id].ask);
      AttemptStates(db, token, id);
      AnswerCase(p, db, token, reply, now, id);
    }
    if forall id :: !Answers(db, token, reply, id) { Unanswered(p, db, token, reply, now); }
  }

  lemma Unanswered(p: Policy, db: Db, token: string, reply: Reply, now: Time)
    requires token in db.sessions && forall id :: !Answers(db, token, reply, id)
    ensures Answer(p, db, token, reply, now) == Raised(InvalidSession)
  {
    hide Judge, RowPlan, Recorded, AdvanceActive, DigestOf, Captures;
    FoundAnswers(db, token, reply);
  }

  lemma FoundAnswers(db: Db, token: string, reply: Reply)
    ensures var found := AttemptFor(db.attempts, token, reply.rpcId);
            found.Some? ==> Answers(db, token, reply, found.value)
  {}

  // ----- What reading shows -----

  /** Reading an operation or a job shows its row as the step leaves it, exactly when the CPE is known and the row is
      its own. */
  lemma ReadsShow(p: Policy, db: Db, cpe: Id, id: Id, now: Time)
    ensures var o := Get(db, cpe, id, now);
            && (o.Commit? <==> cpe in db.store.cpes && id in db.ops && db.ops[id].ask.cpe == cpe)
            && (o.Raised? ==> o.error == NotFound)
            && (o.Commit? ==> id in o.db.ops && o.result == o.db.ops[id] && o.db == Expire(db, cpe, now))
    ensures var o := GetJob(p, db, cpe, id, now);
            && (o.Commit? <==> cpe in db.store.cpes && id in db.jobs && db.jobs[id].cpe == cpe)
            && (o.Raised? ==> o.error == NotFound)
            && (o.Commit? ==> id in o.db.jobs && o.result == o.db.jobs[id])
  {
    hide ExpireSessions, Launch, ReadyJob, Waits;
  }

  // ----- What the digest tells apart -----

  /** Two replies have the same digest exactly when they are of the same kind, a fault with the same code, and were
      judged to have the same reason and the same items. */
  lemma DigestTells(a: Reply, b: Reply, v: Verdict, w: Verdict)
    ensures DigestOf(a, v) == DigestOf(b, w) <==>
      && (a.FaultReply? <==> b.FaultReply?) && (a.NamesReply? <==> b.NamesReply?)
      && (a.FaultReply? && b.FaultReply? ==> a.code == b.code) && v.reason == w.reason && v.items == w.items
  {}

  /** A selected read that succeeded accepts again only the very same values. */
  lemma OnlySameValues(lib: Telemetry.Lib, rule: Verdicts.EvidenceRule, ask: Ask, plan: Plan, a: Reply, b: Reply,
                       now: Time, later: Time, id: Id)
    requires a.ValuesReply? && DistinctReply(a) && DistinctReply(b)
    requires ask.kind.GetValues? && ask.requested != [] && plan.scope.DeviceInfo?
             && forall n | n in plan.names :: n in Huawei.NAMES
    requires var p := Huawei.HuaweiPolicy(lib, rule);
             var v, w := Judge(p, ask, plan, a, now, id), Judge(p, ask, plan, b, later, id);
             v.Some? && w.Some? && v.value.reason.None? && DigestOf(a, v.value) == DigestOf(b, w.value)
    ensures b.ValuesReply? && forall q :: q in a.parameters <==> q in b.parameters
  {
    hide Judge, Huawei.SafeText;
    var p := Huawei.HuaweiPolicy(lib, rule);
    var v, w := Judge(p, ask, plan, a, now, id).value, Judge(p, ask, plan, b, later, id).value;
    DigestTells(a, b, v, w);
    Verdicts.SelectedRead(lib, rule, ask, plan, a.rpcId, a.parameters, now, id);
    Verdicts.SelectedRead(lib, rule, ask, plan, b.rpcId, b.parameters, later, id);
    SameShown(lib, a.parameters, b.parameters, v.items);
    SameShown(lib, b.parameters, a.parameters, v.items);
  }

  lemma SameShown(lib: Telemetry.Lib, ps: seq<Parameter>, qs: seq<Parameter>, items: seq<Item>)
    requires forall q | q in ps :: Verdicts.CleanText(lib, q)
    requires forall q | q in qs :: Verdicts.CleanText(lib, q)
    requires forall item :: item in items <==> exists q :: q in ps && item == Verdicts.Shown(q)
    requires forall item :: item in items <==> exists q :: q in qs && item == Verdicts.Shown(q)
    ensures forall q | q in ps :: q in qs
  {
    hide Huawei.SafeText;
    forall q | q in ps ensures q in qs {
      assert Verdicts.Shown(q) in items;
      var x :| x in qs && Verdicts.Shown(q) == Verdicts.Shown(x);
      assert x == q;
    }
  }
}
