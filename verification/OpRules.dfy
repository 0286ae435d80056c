/** Rules of single operations that hold after every run: it is enough that new operations keep them, that expiring,
    dispatching and failing keep them, and that answering does. */
module OpRules {
  import opened Text
  import opened Domain
  import opened Policies
  import opened Jobs
  import opened Queue
  import opened Invariants
  import opened QueueProofs
  import opened OperationProofs
  import opened Runs

  type Rule = Op -> bool

  // ----- What happens to an operation without an answer -----

  /** An operation stays, expires, is dispatched, or fails because its profile has changed. */
  predicate Moves(op: Op, later: Op) {
    || later == op
    || (Active(op) && later.finishedAt.Some? && later == ExpiredOp(op, later.finishedAt.value))
    || (op.state.Pending? && later == op.(state := Dispatched, expiresAt := later.expiresAt))
    || (Active(op) && later.finishedAt.Some? && later == ProfileFailed(op, later.finishedAt.value))
  }

  predicate MoveOrNew(ops: map<Id, Op>, later: map<Id, Op>) {
    forall i | i in later :: later[i] == NewOp(later[i].ask) || (i in ops && Moves(ops[i], later[i]))
  }

  /** The rule holds of new operations and is kept by every move. */
  ghost predicate KeptByMoves(rule: Rule) {
    (forall ask :: rule(NewOp(ask))) && forall op, later | rule(op) && Moves(op, later) :: rule(later)
  }

  ghost predicate AllKeep(rule: Rule, ops: map<Id, Op>) { forall i | i in ops :: rule(ops[i]) }

  lemma MovesKeep(rule: Rule, ops: map<Id, Op>, later: map<Id, Op>)
    requires KeptByMoves(rule) && AllKeep(rule, ops) && MoveOrNew(ops, later)
    ensures AllKeep(rule, later)
  {
    hide NewOp, Moves;
  }

  lemma SameMoves(ops: map<Id, Op>)
    ensures MoveOrNew(ops, ops)
  {}

  lemma ExpireMoves(db: Db, cpe: Id, now: Time)
    ensures MoveOrNew(db.ops, Expire(db, cpe, now).ops)
  {}

  lemma {:induction false} LaunchedIsNew(p: Policy, target: Target, job: Job, id: Id, now: Time)
    ensures var op := Launch(p, target, job, id, now).1; op.Some? ==> op.value == NewOp(op.value.ask)
    decreases |job.frontier|
  {
    if job.frontier != [] && job.rpcCount < job.spec.maxRpcs && job.entryCount < job.spec.maxEntries {
      LaunchedIsNew(p, target, Popped(job).(failures := Popped(job).failures + [PlanFailure]), id, now);
    }
  }

  lemma AdvanceMoves(p: Policy, db: Db, j: Id, now: Time)
    requires j in db.jobs
    ensures MoveOrNew(db.ops, Advance(p, db, j, now).ops)
  {
    hide Launch, ReadyJob, Waits, NewOp;
    if db.jobs[j].cpe in db.store.cpes {
      LaunchedIsNew(p, TargetOf(db.store.cpes[db.jobs[j].cpe]), ReadyJob(db, db.jobs[j]), db.next, now);
    }
  }

  lemma AdvanceActiveMoves(p: Policy, db: Db, cpe: Id, now: Time)
    ensures MoveOrNew(db.ops, AdvanceActive(p, db, cpe, now).ops)
  {
    hide Advance, MoveOrNew;
    SameMoves(db.ops);
    var found := ActiveJob(db.jobs, cpe);
    if found.Some? { AdvanceMoves(p, db, found.value, now); }
  }

  lemma OneMoves(db: Db, token: string, id: Id, rpcId: string, now: Time)
    requires Concerns(db, token, id)
    ensures MoveOrNew(db.ops, FailedProfile(db, token, id, now).ops)
    ensures db.ops[id].state.Pending? ==> MoveOrNew(db.ops, Dispatch(db, token, id, rpcId, now).ops)
  {}

  lemma PollMoves(p: Policy, db: Db, token: string, rpcId: string, now: Time)
    requires Core(p, db) && token in db.sessions
    ensures MoveOrNew(db.ops, Settle(db, Poll(p, db, token, rpcId, now)).ops)
  {
    hide Core, RowPlan, Finish, FailedProfile, Dispatch, MoveOrNew, Concerns;
    SameMoves(db.ops);
    PollConcerns(p, db, token);
    var s := db.sessions[token];
    var found := if s.state.AwaitingResponse? then AttemptOf(db.attempts, token) else PendingOp(db.ops, s.cpe);
    if found.Some? && !s.state.Completed? {
      assert Concerns(db, token, found.value);
      if found.value in db.ops { OneMoves(db, token, found.value, rpcId, now); }
    }
  }

  // ----- Steps without an answer -----

  lemma ExpireKeep(rule: Rule, db: Db, cpe: Id, now: Time)
    requires KeptByMoves(rule) && AllKeep(rule, db.ops)
    ensures var d := Expire(db, cpe, now); AllKeep(rule, d.ops) && d.jobs == db.jobs && d.store == db.store
  {
    hide KeptByMoves, AllKeep, ExpireSessions;
    ExpireMoves(db, cpe, now);
    MovesKeep(rule, db.ops, Expire(db, cpe, now).ops);
  }

  lemma CreateKeep(p: Policy, rule: Rule, db: Db, r: Request, discovered: seq<string>, now: Time)
    requires KeptByMoves(rule) && AllKeep(rule, db.ops)
    ensures AllKeep(rule, Settle(db, Create(p, db, r, discovered, now)).ops)
  {
    hide KeptByMoves, Expire, CreatePlan, BadSelection, SameRequest, RequestAsk, NewOp;
    ExpireKeep(rule, db, r.cpe, now);
    assert forall ask :: rule(NewOp(ask)) by { IsClosed(rule); }
  }

  lemma IsClosed(rule: Rule)
    requires KeptByMoves(rule)
    ensures forall ask :: rule(NewOp(ask))
  {}

  lemma AdvanceKeep(p: Policy, rule: Rule, db: Db, j: Id, now: Time)
    requires KeptByMoves(rule) && AllKeep(rule, db.ops) && j in db.jobs
    ensures AllKeep(rule, Advance(p, db, j, now).ops)
  {
    hide KeptByMoves, AllKeep, Advance;
    AdvanceMoves(p, db, j, now);
    MovesKeep(rule, db.ops, Advance(p, db, j, now).ops);
  }

  lemma CreateJobKeep(p: Policy, rule: Rule, db: Db, cpe: Id, spec: Spec, key: nat, now: Time)
    requires KeptByMoves(rule) && AllKeep(rule, db.ops)
    ensures AllKeep(rule, Settle(db, CreateJob(p, db, cpe, spec, key, now)).ops)
  {
    hide KeptByMoves, Expire, Advance, FirstFrontier, AllKeep, ValidSpec;
    ExpireKeep(rule, db, cpe, now);
    var o, d := CreateJob(p, db, cpe, spec, key, now), Expire(db, cpe, now);
    if o.Commit? && o.db != d {
      var data := spec.(names := SortBy(Self, spec.names));
      SortedSpecValid(spec);
      var w := WithJob(d, NewJob(cpe, ClientKey(key), data, FirstFrontier(p, d, cpe, data).value, now));
      AdvanceKeep(p, rule, w, d.next, now);
    }
  }

  lemma OthersKeep(p: Policy, rule: Rule, db: Db, a: Action)
    requires KeptByMoves(rule) && AllKeep(rule, db.ops) && !a.DoExchange?
    ensures AllKeep(rule, Act(p, db, a).ops)
  {
    hide KeptByMoves, Expire, Advance, Create, CreateJob, AllKeep;
    match a
    case DoCreate(r, discovered, now) => CreateKeep(p, rule, db, r, discovered, now);
    case DoGet(cpe, id, now) => ExpireKeep(rule, db, cpe, now);
    case DoCreateJob(cpe, spec, key, now) => CreateJobKeep(p, rule, db, cpe, spec, key, now);
    case DoGetJob(cpe, id, now) =>
      ExpireKeep(rule, db, cpe, now);
      if id in db.jobs { AdvanceKeep(p, rule, Expire(db, cpe, now), id, now); }
    case _ =>
  }

  // ----- Answers -----

  /** Answering an operation in flight keeps the rule, for the replies given. */
  ghost predicate Answered(p: Policy, parsed: Reply -> bool, rule: Rule) {
    forall target, op, plan, reply, v, now, id: Id
      {:trigger RowPlan(p, target, op.ask), Judge(p, op.ask, plan, reply, now, id), Captures(op, v)} ::
      parsed(reply) && rule(op) && OpOk(op, true) && op.state.Dispatched? && RowPlan(p, target, op.ask) == Some(plan)
      && Judge(p, op.ask, plan, reply, now, id) == Some(v) ==>
        var evidence := if Captures(op, v) then p.evidence(reply, plan, op.ask.kind, now) else None;
        (Captures(op, v) && evidence.None?) || rule(AnsweredOp(op, v, reply, evidence, now))
  }

  lemma OpOfCore(p: Policy, db: Db, id: Id)
    requires Core(p, db) && id in db.ops
    ensures OpOk(db.ops[id], id in db.attempts)
  {
    hide OpOk, AttemptsOk, OneAttemptEach, WaitersAttempted, JobsOk, OneActive, OneRunning, JobsDrive, OpKeys,
      JobKeys, Accounted, CatalogSourced, ValuesSourced, StoreOk, OpsLinked, JobsLinked, CpesLinked, SessionsLinked;
  }

  lemma RecordedKeep(p: Policy, rule: Rule, db: Db, token: string, id: Id, plan: Plan, reply: Reply, v: Verdict,
                     evidence: Option<string>, now: Time)
    requires token in db.sessions && id in db.ops && id in db.attempts && db.sessions[token].cpe in db.store.cpes
    requires KeptByMoves(rule) && AllKeep(rule, db.ops) && rule(AnsweredOp(db.ops[id], v, reply, evidence, now))
    ensures var r := Recorded(p, db, token, id, plan, reply, v, evidence, now);
            AllKeep(rule, AdvanceActive(p, r, db.sessions[token].cpe, now).ops)
  {
    hide AdvanceActive, Truncate, CatalogAll, ValuesAll, Stored, DigestOf, Finish, KeptByMoves, AnsweredOp, MoveOrNew;
    var r := Recorded(p, db, token, id, plan, reply, v, evidence, now);
    assert r.ops == db.ops[id := AnsweredOp(db.ops[id], v, reply, evidence, now)];
    AdvanceActiveMoves(p, r, db.sessions[token].cpe, now);
    MovesKeep(rule, r.ops, AdvanceActive(p, r, db.sessions[token].cpe, now).ops);
  }

  lemma AnswerKeep(p: Policy, parsed: Reply -> bool, rule: Rule, db: Db, token: string, reply: Reply, now: Time)
    requires KeptByMoves(rule) && Answered(p, parsed, rule) && Core(p, db) && token in db.sessions && parsed(reply)
             && AllKeep(rule, db.ops)
    ensures AllKeep(rule, Settle(db, Answer(p, db, token, reply, now)).ops)
  {
    hide Core, RowPlan, Judge, Recorded, AdvanceActive, DigestOf, Finish, FailedProfile, Captures, AllKeep, OpOk,
      AnsweredOp, KeptByMoves, MoveOrNew, Answered;
    var found := AttemptFor(db.attempts, token, reply.rpcId);
    if found.Some? && found.value in db.ops {
      var id := found.value;
      AttemptConcerns(p, db, token, id);
      OpOfCore(p, db, id);
      var op := db.ops[id];
      if op.state.Dispatched? {
        OneMoves(db, token, id, "", now);
        MovesKeep(rule, db.ops, FailedProfile(db, token, id, now).ops);
        var target := TargetOf(db.store.cpes[db.sessions[token].cpe]);
        var plan := RowPlan(p, target, op.ask);
        if plan.Some? && Judge(p, op.ask, plan.value, reply, now, id).Some? {
          var v := Judge(p, op.ask, plan.value, reply, now, id).value;
          var evidence := if Captures(op, v) then p.evidence(reply, plan.value, op.ask.kind, now) else None;
          if !(Captures(op, v) && evidence.None?) {
            KeepsOne(rule, db.ops, id);
            OneAnswered(p, parsed, rule, target, op, plan.value, reply, v, now, id);
            RecordedKeep(p, rule, db, token, id, plan.value, reply, v, evidence, now);
          }
        }
      }
    }
  }

  lemma KeepsOne(rule: Rule, ops: map<Id, Op>, id: Id)
    requires AllKeep(rule, ops) && id in ops
    ensures rule(ops[id])
  {}

  lemma OneAnswered(p: Policy, parsed: Reply -> bool, rule: Rule, target: Target, op: Op, plan: Plan, reply: Reply,
                    v: Verdict, now: Time, id: Id)
    requires Answered(p, parsed, rule) && parsed(reply) && rule(op) && OpOk(op, true) && op.state.Dispatched?
    requires RowPlan(p, target, op.ask) == Some(plan) && Judge(p, op.ask, plan, reply, now, id) == Some(v)
    ensures var evidence := if Captures(op, v) then p.evidence(reply, plan, op.ask.kind, now) else None;
            (Captures(op, v) && evidence.None?) || rule(AnsweredOp(op, v, reply, evidence, now))
  {
    hide RowPlan, Judge, AnsweredOp, OpOk;
    assert Captures(op, v) || !Captures(op, v);
  }

  lemma ExchangeKeep(p: Policy, parsed: Reply -> bool, rule: Rule, db: Db, a: Action)
    requires KeptByMoves(rule) && Answered(p, parsed, rule) && Contract(p) && Inv(p, db) && a.DoExchange?
    requires (a.reply.Some? ==> parsed(a.reply.value)) && AllKeep(rule, db.ops)
    ensures AllKeep(rule, Act(p, db, a).ops)
  {
    hide KeptByMoves, Answered, Core, Steady, Evolves, Poll, Answer, AdvanceActive, Expire, AllKeep, PlanContract,
      PermittedContract, DiscoveryContract, ObservationContract;
    if a.token in db.sessions && db.sessions[a.token].cpe in db.store.cpes {
      var cpe := db.sessions[a.token].cpe;
      PreparedKeeps(p, db, cpe, a.now);
      ExpireKeep(rule, db, cpe, a.now);
      var e := Expire(db, cpe, a.now);
      AdvanceActiveMoves(p, e, cpe, a.now);
      var d := AdvanceActive(p, e, cpe, a.now);
      MovesKeep(rule, e.ops, d.ops);
      if a.reply.None? {
        PollMoves(p, d, a.token, a.rpcId, a.now);
        MovesKeep(rule, d.ops, Settle(d, Poll(p, d, a.token, a.rpcId, a.now)).ops);
      } else {
        AnswerKeep(p, parsed, rule, d, a.token, a.reply.value, a.now);
      }
    }
  }

  /** From the empty database, whatever actions follow, every operation keeps a rule that new operations, moves and
      answers keep. */
  lemma {:induction false} RunsKeep(p: Policy, parsed: Reply -> bool, rule: Rule, actions: seq<Action>)
    requires KeptByMoves(rule) && Answered(p, parsed, rule) && Contract(p) && AllPossible(actions)
    requires forall a | a in actions && a.DoExchange? && a.reply.Some? :: parsed(a.reply.value)
    ensures AllKeep(rule, Run(p, EMPTY, actions).ops)
  {
    hide KeptByMoves, Answered, Act, AllKeep, Possible, Contract, Inv;
    if actions == [] {
      NoneKept(rule);
    } else {
      var n := |actions| - 1;
      RunsKeep(p, parsed, rule, actions[..n]);
      var db := Run(p, EMPTY, actions[..n]);
      EmptyInv(p);
      RunKeeps(p, EMPTY, actions[..n]);
      if actions[n].DoExchange? {
        ExchangeKeep(p, parsed, rule, db, actions[n]);
      } else {
        OthersKeep(p, rule, db, actions[n]);
      }
    }
  }

  lemma NoneKept(rule: Rule)
    ensures AllKeep(rule, EMPTY.ops)
  {}

  // ----- Outcomes -----

  /** What an operation shows of its outcome: nothing while it is active; a reason exactly when it did not succeed; a
      fault code exactly when the device answered with a fault; results only of a success; evidence of every answer that
      fits the request, if it was asked for. */
  predicate Outcome(op: Op) {
    && (Active(op) ==>
          op.reason.None? && op.fault.None? && op.result == [] && op.evidence.None? && op.finishedAt.None?)
    && (!Active(op) ==> op.finishedAt.Some?)
    && (op.state.Succeeded? ==> op.reason.None?)
    && (op.state.Failed? ==> op.reason.Some? && op.reason != Some(DeadlineExceeded))
    && (op.state.Expired? ==> op.reason == Some(DeadlineExceeded) && op.result == [])
    && (op.fault.Some? <==> op.reason == Some(CpeFault))
    && (op.evidence.Some? <==>
          op.ask.capture && !Active(op)
          && op.reason !in {Some(DeadlineExceeded), Some(ProfileChanged), Some(UnexpectedParameters)})
  }

  lemma OutcomeClosed()
    ensures KeptByMoves(op => Outcome(op))
  {}

  lemma JudgedOutcome(p: Policy, op: Op, plan: Plan, reply: Reply, v: Verdict, evidence: Option<string>, now: Time,
                      id: Id)
    requires Judge(p, op.ask, plan, reply, now, id) == Some(v) && (evidence.Some? <==> Captures(op, v))
    ensures Outcome(AnsweredOp(op, v, reply, evidence, now))
  {
    hide SortBy, MapItems, SomeField;
  }

  lemma OutcomesAnswered(p: Policy)
    ensures Answered(p, r => true, op => Outcome(op))
  {
    hide RowPlan, Judge, Outcome, AnsweredOp, OpOk, Captures;
    forall target, op, plan, reply, v, now, id: Id |
      OpOk(op, true) && op.state.Dispatched? && RowPlan(p, target, op.ask) == Some(plan)
      && Judge(p, op.ask, plan, reply, now, id) == Some(v)
      ensures var evidence := if Captures(op, v) then p.evidence(reply, plan, op.ask.kind, now) else None;
              (Captures(op, v) && evidence.None?) || Outcome(AnsweredOp(op, v, reply, evidence, now))
    {
      var evidence := if Captures(op, v) then p.evidence(reply, plan, op.ask.kind, now) else None;
      if evidence.Some? <==> Captures(op, v) { JudgedOutcome(p, op, plan, reply, v, evidence, now, id); }
    }
  }

  /** After any run every operation shows its outcome as it should. */
  lemma OutcomesOfRun(p: Policy, actions: seq<Action>)
    requires Contract(p) && AllPossible(actions)
    ensures forall i | i in Run(p, EMPTY, actions).ops :: Outcome(Run(p, EMPTY, actions).ops[i])
  {
    hide Contract, AllPossible, Run, Outcome, KeptByMoves, Answered;
    OutcomeClosed();
    OutcomesAnswered(p);
    RunsKeep(p, r => true, op => Outcome(op), actions);
  }
}
