/** Every repository operation keeps the invariants, and none ever changes a terminal operation. */
module OperationProofs {
  import opened Text
  import opened Domain
  import opened Policies
  import opened Jobs
  import opened Registers
  import opened Queue
  import opened Invariants
  import opened QueueProofs
  import opened AdvanceProofs
  import opened AnswerProofs

  /** A committed state after `db`. */
  ghost predicate Follows(p: Policy, db: Db, later: Db) {
    Inv(p, later) && Evolves(db.ops, later.ops)
  }

  // ----- Advancing whatever job is active -----

  lemma SteadyIsSteadyBut(jobs: map<Id, Job>, ops: map<Id, Op>, cpe: Id)
    requires Steady(jobs, ops)
    ensures SteadyBut(jobs, ops, cpe)
  {}

  lemma WaitingIsSteady(db: Db, j: Id)
    requires OneRunning(db.jobs) && JobsOk(db.jobs, db.ops) && j in db.jobs && db.jobs[j].state.JobRunning?
    requires Waits(db, db.jobs[j]) && SteadyBut(db.jobs, db.ops, db.jobs[j].cpe)
    ensures Steady(db.jobs, db.ops)
  {}

  lemma IdleIsSteady(jobs: map<Id, Job>, ops: map<Id, Op>, cpe: Id)
    requires SteadyBut(jobs, ops, cpe)
    requires forall j | j in jobs && jobs[j].cpe == cpe :: !jobs[j].state.JobRunning?
    ensures Steady(jobs, ops)
  {}

  lemma AdvanceActiveKeeps(p: Policy, db: Db, cpe: Id, now: Time)
    requires PlanContract(p) && Core(p, db) && SteadyBut(db.jobs, db.ops, cpe)
    ensures var d := AdvanceActive(p, db, cpe, now);
            Follows(p, db, d) && d == db.(jobs := d.jobs, ops := d.ops, next := d.next)
  {
    hide PlanContract, SteadyBut, Steady, Evolves, JobsOk, OneRunning, Accounted, CatalogSourced, ValuesSourced,
      StoreOk, Coupled, OneActive, JobsDrive, OpKeys, JobKeys, OpsLinked, SessionsLinked, CpesLinked;
    EvolvesSame(db.ops);
    var found := ActiveJob(db.jobs, cpe);
    if found.None? {
      IdleIsSteady(db.jobs, db.ops, cpe);
    } else if Waits(db, db.jobs[found.value]) {
      WaitingIsSteady(db, found.value);
    } else {
      AdvanceReady(p, db, found.value, now);
    }
  }

  // ----- Exchanges -----

  lemma AttemptConcerns(p: Policy, db: Db, token: string, id: Id)
    requires Core(p, db) && token in db.sessions && id in db.attempts && db.attempts[id].session == token
    ensures id in db.ops && AttemptOk(db.ops[id], db.attempts[id], db.sessions[token])
    ensures db.ops[id].state.Dispatched? ==> Concerns(db, token, id)
    ensures db.sessions[token].cpe in db.store.cpes && db.sessions[token].cpe == db.ops[id].ask.cpe
  {
    hide JobsOk, OneRunning, Accounted, CatalogSourced, ValuesSourced, StoreOk, OneActive, JobsDrive, OpKeys, JobKeys,
      OpsLinked, CpesLinked, OpsOk, OneAttemptEach, WaitersAttempted;
  }

  lemma CoreParts(p: Policy, db: Db)
    requires Core(p, db)
    ensures Coupled(db.ops, db.attempts, db.sessions) && SessionsLinked(db.sessions, db.store.cpes.Keys)
    ensures OpsOk(db.ops, db.attempts.Keys)
  {
    hide OpsOk;
  }

  lemma WaiterHasAttempt(db: Db, token: string)
    requires Coupled(db.ops, db.attempts, db.sessions) && token in db.sessions
             && db.sessions[token].state.AwaitingResponse?
    ensures AttemptOf(db.attempts, token).Some? && db.ops[AttemptOf(db.attempts, token).value].state.Dispatched?
  {}

  /** A step that at most dispatches or fails operations: no request changes, nothing succeeds and nothing else is
      touched but attempts and sessions. */
  ghost predicate OnlyDispatches(db: Db, later: Db) {
    && later == db.(ops := later.ops, attempts := later.attempts, sessions := later.sessions)
    && forall i | i in later.ops ::
         i in db.ops && later.ops[i].ask == db.ops[i].ask && (later.ops[i].state.Succeeded? ==>
                                                                db.ops[i].state.Succeeded?)
  }

  lemma SameDispatches(db: Db)
    ensures OnlyDispatches(db, db)
  {}

  lemma FinishDispatches(db: Db, token: string, now: Time)
    requires token in db.sessions
    ensures OnlyDispatches(db, db.(sessions := Finish(db.sessions, token, now)))
  {
    hide Finish;
  }

  lemma FailDispatches(db: Db, token: string, id: Id, now: Time)
    requires token in db.sessions && id in db.ops
    ensures OnlyDispatches(db, FailedProfile(db, token, id, now))
  {
    hide Finish;
  }

  lemma DispatchDispatches(db: Db, token: string, id: Id, rpcId: string, now: Time)
    requires token in db.sessions && id in db.ops
    ensures OnlyDispatches(db, Dispatch(db, token, id, rpcId, now))
  {}

  lemma PollDispatches(p: Policy, db: Db, token: string, rpcId: string, now: Time)
    requires token in db.sessions
    ensures var o := Poll(p, db, token, rpcId, now); o.Commit? ==> OnlyDispatches(db, o.db)
  {
    hide RowPlan, Finish, FailedProfile, Dispatch, OnlyDispatches;
    SameDispatches(db);
    FinishDispatches(db, token, now);
    var s := db.sessions[token];
    var found := if s.state.AwaitingResponse? then AttemptOf(db.attempts, token) else PendingOp(db.ops, s.cpe);
    if found.Some? && found.value in db.ops {
      FailDispatches(db, token, found.value, now);
      DispatchDispatches(db, token, found.value, rpcId, now);
    }
  }

  lemma FailFollows(p: Policy, db: Db, token: string, id: Id, now: Time)
    requires Inv(p, db) && Concerns(db, token, id)
    ensures Follows(p, db, FailedProfile(db, token, id, now))
  {
    hide Core, Steady, Evolves, FailedProfile, Calmer, NoNewSuccess;
    FailKeeps(p, db, token, id, now);
  }

  lemma DispatchFollows(p: Policy, db: Db, token: string, id: Id, rpcId: string, now: Time)
    requires Inv(p, db) && Concerns(db, token, id) && db.ops[id].state.Pending?
    ensures Follows(p, db, Dispatch(db, token, id, rpcId, now))
  {
    hide Core, Steady, Evolves, Dispatch, Calmer, NoNewSuccess;
    DispatchKeeps(p, db, token, id, rpcId, now);
  }

  /** The one operation that a poll may fail, repeat or dispatch. */
  lemma PollConcerns(p: Policy, db: Db, token: string)
    requires Core(p, db) && token in db.sessions
    ensures db.sessions[token].cpe in db.store.cpes
    ensures db.sessions[token].state.AwaitingResponse? ==>
      AttemptOf(db.attempts, token).Some? && Concerns(db, token, AttemptOf(db.attempts, token).value)
    ensures db.sessions[token].state.AwaitingEmpty? ==>
      (forall i | i in db.attempts :: db.attempts[i].session != token)
      && (PendingOp(db.ops, db.sessions[token].cpe).Some? ==>
            Concerns(db, token, PendingOp(db.ops, db.sessions[token].cpe).value))
  {
    hide Core, Coupled, AttemptOk;
    CoreParts(p, db);
    if db.sessions[token].state.AwaitingResponse? {
      WaiterHasAttempt(db, token);
      AttemptConcerns(p, db, token, AttemptOf(db.attempts, token).value);
    } else if db.sessions[token].state.AwaitingEmpty? {
      EmptyMeansUnattempted(db.ops, db.attempts, db.sessions, token);
    }
  }

  /** Polling never finds a waiting session without its attempt, and never fails a finished operation. */
  lemma PollKeeps(p: Policy, db: Db, token: string, rpcId: string, now: Time)
    requires Inv(p, db) && token in db.sessions
    ensures var o := Poll(p, db, token, rpcId, now); o.Commit? ==> Follows(p, db, o.db)
    ensures Poll(p, db, token, rpcId, now).Raised? <==>
      !db.sessions[token].state.Completed? && db.sessions[token].expiresAt <= now
  {
    hide Core, Steady, Evolves, RowPlan, FailedProfile, Dispatch, Finish;
    EvolvesSame(db.ops);
    PollConcerns(p, db, token);
    if db.sessions[token].state.AwaitingResponse? {
      FailFollows(p, db, token, AttemptOf(db.attempts, token).value, now);
    } else if db.sessions[token].state.AwaitingEmpty? {
      FinishKeeps(p, db, token, now);
      var found := PendingOp(db.ops, db.sessions[token].cpe);
      if found.Some? {
        FailFollows(p, db, token, found.value, now);
        DispatchFollows(p, db, token, found.value, rpcId, now);
      }
    }
  }

  lemma RowPlanFits(p: Policy, target: Target, ask: Ask)
    requires PlanContract(p) && RowPlan(p, target, ask).Some?
    ensures var plan := RowPlan(p, target, ask).value;
            PlanFits(p.defaults, plan, plan.target, ask.scope, ask.path, ask.requested)
  {}

  lemma AnswerJudgedKeeps(p: Policy, db: Db, token: string, id: Id, plan: Plan, reply: Reply, v: Verdict, now: Time)
    requires Contract(p) && DistinctReply(reply) && Inv(p, db)
    requires token in db.sessions && id in db.attempts && db.attempts[id].session == token && id in db.ops
    requires db.ops[id].state.Dispatched? ==> RowPlan(p, TargetOf(CpeOf(db, token)), db.ops[id].ask) == Some(plan)
    requires db.sessions[token].cpe in db.store.cpes && Judge(p, db.ops[id].ask, plan, reply, now, id) == Some(v)
    ensures var o := AnswerJudged(p, db, token, id, plan, reply, v, now); o.Commit? ==> Follows(p, db, o.db)
  {
    hide Core, Steady, SteadyBut, Evolves, AttemptOk, RowPlan, Judge, DigestOf, Recorded, AdvanceActive, PlanFits,
      PlanContract, PermittedContract, DiscoveryContract, ObservationContract;
    EvolvesSame(db.ops);
    AttemptConcerns(p, db, token, id);
    var op := db.ops[id];
    if op.state.Dispatched? && db.sessions[token].state.AwaitingResponse? {
      RowPlanFits(p, TargetOf(CpeOf(db, token)), op.ask);
      var evidence := if Captures(op, v) then p.evidence(reply, plan, op.ask.kind, now) else None;
      RecordedKeeps(p, db, token, id, plan, reply, v, evidence, now);
      var r := Recorded(p, db, token, id, plan, reply, v, evidence, now);
      AdvanceActiveKeeps(p, r, db.sessions[token].cpe, now);
      EvolvesTransitive(db.ops, r.ops, AdvanceActive(p, r, db.sessions[token].cpe, now).ops);
    }
  }

  ghost function CpeOf(db: Db, token: string): Cpe
    requires token in db.sessions && db.sessions[token].cpe in db.store.cpes
  {
    db.store.cpes[db.sessions[token].cpe]
  }

  lemma AnswerKeeps(p: Policy, db: Db, token: string, reply: Reply, now: Time)
    requires Contract(p) && DistinctReply(reply) && Inv(p, db) && token in db.sessions
    ensures var o := Answer(p, db, token, reply, now); o.Commit? ==> Follows(p, db, o.db)
  {
    hide Core, Steady, Evolves, RowPlan, Judge, AnswerJudged, Contract;
    EvolvesSame(db.ops);
    var found := AttemptFor(db.attempts, token, reply.rpcId);
    if found.Some? {
      var id := found.value;
      AttemptConcerns(p, db, token, id);
      var op := db.ops[id];
      if op.state.Expired? {
        FinishKeeps(p, db, token, now);
      } else {
        var current := RowPlan(p, TargetOf(CpeOf(db, token)), op.ask);
        if current.None? && op.state.Dispatched? {
          FailKeeps(p, db, token, id, now);
        } else {
          var plan := if current.Some? then current
                      else p.restore(op.ask.profileId, op.ask.profileVersion, op.ask.scope, op.ask.path,
                                     op.ask.requested);
          if plan.Some? && Judge(p, op.ask, plan.value, reply, now, id).Some? {
            AnswerJudgedKeeps(p, db, token, id, plan.value, reply, Judge(p, op.ask, plan.value, reply, now, id).value,
                              now);
          }
        }
      }
    }
  }

  /** The state in which an exchange treats the device's message: overdue work expired, its job advanced. */
  ghost function Prepared(p: Policy, db: Db, cpe: Id, now: Time): Db {
    AdvanceActive(p, Expire(db, cpe, now), cpe, now)
  }

  lemma PreparedKeeps(p: Policy, db: Db, cpe: Id, now: Time)
    requires PlanContract(p) && Inv(p, db)
    ensures var d := Prepared(p, db, cpe, now);
            && Follows(p, db, d) && d.sessions.Keys == db.sessions.Keys && d.attempts == db.attempts
            && d.store == db.store && d.catalog == db.catalog && d.values == db.values
            && forall t | t in db.sessions :: d.sessions[t].cpe == db.sessions[t].cpe
  {
    hide Core, Steady, SteadyBut, Evolves, PlanContract, AdvanceActive, NoneDue, Calmer, NoNewSuccess;
    ExpireKeeps(p, db, cpe, now);
    var d1 := Expire(db, cpe, now);
    SteadyIsSteadyBut(d1.jobs, d1.ops, cpe);
    AdvanceActiveKeeps(p, d1, cpe, now);
    EvolvesTransitive(db.ops, d1.ops, AdvanceActive(p, d1, cpe, now).ops);
  }

  lemma ExchangeKeeps(p: Policy, db: Db, token: string, reply: Option<Reply>, rpcId: string, now: Time)
    requires Contract(p) && Inv(p, db) && (reply.Some? ==> DistinctReply(reply.value))
    ensures var o := Exchange(p, db, token, reply, rpcId, now); o.Commit? ==> Follows(p, db, o.db)
  {
    hide Core, Steady, Evolves, Poll, Answer, PlanContract, PermittedContract, DiscoveryContract, ObservationContract,
      AdvanceActive, Expire;
    if token in db.sessions && db.sessions[token].cpe in db.store.cpes {
      var cpe := db.sessions[token].cpe;
      PreparedKeeps(p, db, cpe, now);
      var d := Prepared(p, db, cpe, now);
      match reply
      case None =>
        PollKeeps(p, d, token, rpcId, now);
        var o := Poll(p, d, token, rpcId, now);
        if o.Commit? { EvolvesTransitive(db.ops, d.ops, o.db.ops); }
      case Some(r) =>
        AnswerKeeps(p, d, token, r, now);
        var o := Answer(p, d, token, r, now);
        if o.Commit? { EvolvesTransitive(db.ops, d.ops, o.db.ops); }
    }
  }

  // ----- Creating and reading operations -----

  lemma SelectionAscends(names: seq<string>)
    requires forall i, j | 0 <= i < j < |names| :: names[i] != names[j]
    ensures Ascending(Self, SortBy(Self, names)) && (SortBy(Self, names) == [] <==> names == [])
  {
    assert DistinctBy(Self, names);
    SortAscends(Self, names);
  }

  lemma RequestOk(p: Policy, target: Target, r: Request, discovered: seq<string>, now: Time)
    requires PlanContract(p) && !BadSelection(r.kind, r.scope, r.names) && CreatePlan(p, target, r, discovered).Ok?
    ensures OpOk(NewOp(RequestAsk(r, CreatePlan(p, target, r, discovered).value, now)), false)
  {
    if r.names != [] {
      assert forall i, j | 0 <= i < j < |r.names| :: r.names[i] != r.names[j];
      SelectionAscends(r.names);
    }
  }

  lemma CreateKeeps(p: Policy, db: Db, r: Request, discovered: seq<string>, now: Time)
    requires PlanContract(p) && Inv(p, db)
    ensures var o := Create(p, db, r, discovered, now); o.Commit? ==> Follows(p, db, o.db)
  {
    hide Core, Steady, Evolves, CreatePlan, OpOk, PlanContract, BadSelection, SameRequest, Expire, NoneDue, Calmer,
      NoNewSuccess, NewOp;
    if !BadSelection(r.kind, r.scope, r.names) && r.cpe in db.store.cpes {
      ExpireKeeps(p, db, r.cpe, now);
      var d := Expire(db, r.cpe, now);
      if OpByKey(d.ops, r.cpe, ClientKey(r.key)).None? && ActiveJob(d.jobs, r.cpe).None?
          && ActiveOp(d.ops, r.cpe).None? {
        var plan := CreatePlan(p, TargetOf(d.store.cpes[r.cpe]), r, discovered);
        if plan.Ok? {
          RequestOk(p, TargetOf(d.store.cpes[r.cpe]), r, discovered, now);
          var op := NewOp(RequestAsk(r, plan.value, now));
          NewOpIsNew(RequestAsk(r, plan.value, now));
          WithOpKeeps(p, d, op);
          EvolvesTransitive(db.ops, d.ops, WithOp(d, op).ops);
        }
      }
    }
  }

  lemma NewOpIsNew(ask: Ask)
    ensures NewOp(ask) == NewOp(NewOp(ask).ask) && NewOp(ask).ask == ask
  {}

  lemma GetKeeps(p: Policy, db: Db, cpe: Id, id: Id, now: Time)
    requires Inv(p, db)
    ensures var o := Get(db, cpe, id, now); o.Commit? ==> Follows(p, db, o.db) && NoneDue(o.db.ops, cpe, now)
  {
    hide Core, Steady, Evolves, Expire, NoneDue, Calmer, NoNewSuccess;
    ExpireKeeps(p, db, cpe, now);
  }

  // ----- Creating and polling jobs -----

  lemma {:induction false} BatchesHold(names: seq<string>, batch: int)
    requires 1 <= batch
    ensures Waiting(Batches(names, batch)) == names && FrontierBatched(batch, Batches(names, batch))
    decreases |names|
  {
    if |names| > batch {
      BatchesHold(names[batch..], batch);
      var rest := Batches(names[batch..], batch);
      var all := [Step(0, None, names[..batch])] + rest;
      assert all[1..] == rest;
      assert names == names[..batch] + names[batch..];
      assert forall k | 0 < k < |all| :: all[k] == rest[k - 1];
    } else if names != [] {
      var one := [Step(0, None, names)];
      assert one[1..] == [] && names + [] == names;
    }
  }

  /** A job before its first launch. */
  lemma NewJobOk(p: Policy, db: Db, cpe: Id, spec: Spec, key: Key, now: Time)
    requires PlanContract(p) && cpe in db.store.cpes && ValidSpec(spec) && Ascending(Self, spec.names)
    requires FirstFrontier(p, db, cpe, spec).Ok?
    ensures JobOk(NewJob(cpe, key, spec, FirstFrontier(p, db, cpe, spec).value, now), [])
  {
    var job := NewJob(cpe, key, spec, FirstFrontier(p, db, cpe, spec).value, now);
    if spec.kind.WalkJob? {
      var root := spec.root.value;
      assert job.frontier == [Step(0, spec.root, [])] && root[..|root|] == root;
      assert Below(root, root, 0);
      assert Walking(job, []);
    } else {
      BatchesHold(spec.names, spec.batch);
      assert spec.names[0..] == spec.names;
    }
  }

  lemma WithJobTables(db: Db, job: Job)
    requires JobsLinked(db.next, db.jobs, db.store.cpes.Keys) && OpsLinked(db.next, db.ops, db.store.cpes.Keys)
             && CpesLinked(db.next, db.store.cpes.Keys)
    requires OneRunning(db.jobs) && JobKeys(db.jobs) && JobsDrive(db.jobs, db.ops) && Accounted(db.jobs, db.catalog)
    requires job.cpe in db.store.cpes && job.opIds == [] && job.current.None? && job.entryCount == 0
    requires forall j | j in db.jobs && db.jobs[j].cpe == job.cpe ::
             !db.jobs[j].state.JobRunning? && db.jobs[j].key != job.key
    requires forall i | i in db.ops && db.ops[i].ask.cpe == job.cpe :: !Active(db.ops[i])
    ensures var d := WithJob(db, job);
            && JobsLinked(d.next, d.jobs, d.store.cpes.Keys) && OpsLinked(d.next, d.ops, d.store.cpes.Keys)
            && CpesLinked(d.next, d.store.cpes.Keys)
            && OneRunning(d.jobs) && JobKeys(d.jobs) && JobsDrive(d.jobs, d.ops) && Accounted(d.jobs, d.catalog)
  {}

  lemma WithJobKeeps(p: Policy, db: Db, job: Job)
    requires Inv(p, db) && job.cpe in db.store.cpes && job.opIds == [] && job.current.None? && job.entryCount == 0
    requires job.state.JobRunning? && JobOk(job, [])
    requires forall j | j in db.jobs && db.jobs[j].cpe == job.cpe ::
             !db.jobs[j].state.JobRunning? && db.jobs[j].key != job.key
    requires forall i | i in db.ops && db.ops[i].ask.cpe == job.cpe :: !Active(db.ops[i])
    ensures var d := WithJob(db, job); Core(p, d) && SteadyBut(d.jobs, d.ops, job.cpe) && Ready(d, db.next)
  {
    hide JobOk, OneActive, OneRunning, JobsDrive, OpKeys, JobKeys, Accounted, CatalogSourced, ValuesSourced, StoreOk,
      Coupled, SessionsLinked, OpsLinked, JobsLinked, CpesLinked;
    WithJobTables(db, job);
    assert TraceOf([], db.ops) == [];
    ReplaceKeepsJobs(db.jobs, db.ops, db.next, job);
  }

  lemma CreateJobKeeps(p: Policy, db: Db, cpe: Id, spec: Spec, key: nat, now: Time)
    requires PlanContract(p) && Inv(p, db)
    ensures var o := CreateJob(p, db, cpe, spec, key, now); o.Commit? ==> Follows(p, db, o.db)
  {
    hide Core, Steady, SteadyBut, Evolves, PlanContract, Expire, NoneDue, Calmer, NoNewSuccess, JobOk, FirstFrontier,
      ValidSpec, Advance, Ready;
    if cpe in db.store.cpes && ValidSpec(spec) {
      ExpireKeeps(p, db, cpe, now);
      var d := Expire(db, cpe, now);
      var data := spec.(names := SortBy(Self, spec.names));
      SortedSpecValid(spec);
      if JobByKey(d.jobs, cpe, ClientKey(key)).None? && ActiveJob(d.jobs, cpe).None? && ActiveOp(d.ops, cpe).None?
         && FirstFrontier(p, d, cpe, data).Ok? {
        NewJobOk(p, d, cpe, data, ClientKey(key), now);
        var job := NewJob(cpe, ClientKey(key), data, FirstFrontier(p, d, cpe, data).value, now);
        WithJobKeeps(p, d, job);
        AdvanceReady(p, WithJob(d, job), d.next, now);
        EvolvesTransitive(db.ops, d.ops, Advance(p, WithJob(d, job), d.next, now).ops);
      }
    }
  }

  lemma GetJobKeeps(p: Policy, db: Db, cpe: Id, j: Id, now: Time)
    requires PlanContract(p) && Inv(p, db)
    ensures var o := GetJob(p, db, cpe, j, now); o.Commit? ==> Follows(p, db, o.db)
  {
    hide Core, Steady, SteadyBut, Evolves, PlanContract, Expire, NoneDue, Calmer, NoNewSuccess;
    ExpireKeeps(p, db, cpe, now);
    var d := Expire(db, cpe, now);
    if j in d.jobs && !Waits(d, d.jobs[j]) {
      SteadyIsSteadyBut(d.jobs, d.ops, d.jobs[j].cpe);
      AdvanceReady(p, d, j, now);
      EvolvesTransitive(db.ops, d.ops, Advance(p, d, j, now).ops);
    }
  }

  // ----- Inform -----

  /** An inventory taken from an Inform names no operation. */
  predicate FromInform(inv: Inventory) { inv.via.Inform? && inv.operation.None? }

  lemma NewSessionKeepsCoupled(ops: map<Id, Op>, attempts: map<Id, Attempt>, sessions: map<string, Session>,
                               token: string, s: Session)
    requires Coupled(ops, attempts, sessions) && token !in sessions && s.state.AwaitingEmpty?
    ensures Coupled(ops, attempts, sessions[token := s])
  {}

  lemma MoreCpesLinked(db: Db, next: Id, cpes: set<Id>, token: string, s: Session)
    requires SessionsLinked(db.sessions, db.store.cpes.Keys) && OpsLinked(db.next, db.ops, db.store.cpes.Keys)
    requires JobsLinked(db.next, db.jobs, db.store.cpes.Keys) && CpesLinked(db.next, db.store.cpes.Keys)
    requires db.next <= next && db.store.cpes.Keys <= cpes && s.cpe in cpes && forall c | c in cpes :: c < next
    ensures SessionsLinked(db.sessions[token := s], cpes) && OpsLinked(next, db.ops, cpes)
            && JobsLinked(next, db.jobs, cpes) && CpesLinked(next, cpes)
  {}

  lemma SeenCpeKeepsApproval(s: Store, cpe: Id, row: Cpe)
    requires ApprovalSafe(s) && (cpe in s.cpes ==> row.firmware == s.cpes[cpe].firmware)
    ensures ApprovalSafe(s.(cpes := s.cpes[cpe := row]))
  {}

  lemma InformStoreOk(ops: map<Id, Op>, s: Store, cpe: Id, inv: Inventory)
    requires cpe in s.cpes && StoreOk(ops, s) && FromInform(inv)
    ensures StoreOk(ops, UpdateInventory(s, cpe, inv)) && UpdateInventory(s, cpe, inv).cpes.Keys == s.cpes.Keys
  {
    hide FieldsSourced, TelemetrySourced, FieldsChecked, TelemetryChecked, ApprovalSafe, WrittenFields, WrittenCpe,
      NewValue, Revoked;
    UpdateKeepsApprovalSafe(s, cpe, inv);
    UpdateKeepsFieldsChecked(s, cpe, inv);
    InventorySourced(ops, s.fields, cpe, inv);
  }

  lemma NextIsFree(p: Policy, db: Db)
    requires Inv(p, db)
    ensures db.next !in db.store.cpes
  {
    hide JobsOk, Accounted, CatalogSourced, ValuesSourced, StoreOk, Coupled;
  }

  /** The tables after a first Inform, when what it touches is in order. */
  lemma SeenKeepsCore(p: Policy, db: Db, later: Db)
    requires Inv(p, db) && later == db.(next := later.next, store := later.store, sessions := later.sessions)
    requires SessionsLinked(later.sessions, later.store.cpes.Keys)
             && OpsLinked(later.next, db.ops, later.store.cpes.Keys)
    requires JobsLinked(later.next, db.jobs, later.store.cpes.Keys) && CpesLinked(later.next, later.store.cpes.Keys)
    requires Coupled(db.ops, db.attempts, later.sessions) && StoreOk(db.ops, later.store)
    ensures Follows(p, db, later)
  {
    hide JobsOk, OneActive, OneRunning, JobsDrive, OpKeys, JobKeys, Accounted, CatalogSourced, ValuesSourced, Coupled,
      Steady, Evolves, SessionsLinked, OpsLinked, JobsLinked, CpesLinked, StoreOk;
    EvolvesSame(db.ops);
  }

  lemma PartsInOrder(p: Policy, db: Db)
    requires Inv(p, db)
    ensures SessionsLinked(db.sessions, db.store.cpes.Keys) && OpsLinked(db.next, db.ops, db.store.cpes.Keys)
    ensures JobsLinked(db.next, db.jobs, db.store.cpes.Keys) && CpesLinked(db.next, db.store.cpes.Keys)
    ensures Coupled(db.ops, db.attempts, db.sessions) && StoreOk(db.ops, db.store)
  {
    hide JobsOk, OneActive, OneRunning, JobsDrive, OpKeys, JobKeys, Accounted, CatalogSourced, ValuesSourced, Coupled,
      Steady, SessionsLinked, OpsLinked, JobsLinked, CpesLinked, StoreOk;
  }

  /** Writing the row of a CPE, new or with another manufacturer, and its inventory keeps the store in order. */
  lemma UpsertStoreOk(ops: map<Id, Op>, s: Store, cpe: Id, row: Cpe, inv: Inventory)
    requires StoreOk(ops, s) && FromInform(inv) && (cpe in s.cpes ==> row.firmware == s.cpes[cpe].firmware)
    ensures var mid := s.(cpes := s.cpes[cpe := row]);
            && StoreOk(ops, UpdateInventory(mid, cpe, inv))
            && UpdateInventory(mid, cpe, inv).cpes.Keys == s.cpes.Keys + {cpe}
  {
    hide FieldsSourced, TelemetrySourced, FieldsChecked, TelemetryChecked, ApprovalSafe, UpdateInventory;
    SeenCpeKeepsApproval(s, cpe, row);
    InformStoreOk(ops, s.(cpes := s.cpes[cpe := row]), cpe, inv);
  }

  function DeviceRow(cpes: map<Id, Cpe>, cpe: Id, d: Device): Cpe {
    if cpe in cpes then cpes[cpe].(manufacturer := d.manufacturer)
    else Cpe(d.manufacturer, d.oui, d.productClass, d.serial, None, None, None)
  }

  /** What a first Inform commits. */
  lemma AcceptShape(db: Db, token: string, d: Device, inv: Inventory, now: Time, expiresAt: Time)
    requires db.next !in db.store.cpes && token !in db.sessions
    ensures var o := Accept(db, token, d, inv, now, expiresAt);
            && o.Commit? && (o.result in db.store.cpes || o.result == db.next)
            && o.db == db.(next := if o.result in db.store.cpes then db.next else db.next + 1,
                           store := UpdateInventory(db.store.(cpes := db.store.cpes[o.result :=
                                      DeviceRow(db.store.cpes, o.result, d)]), o.result, inv),
                           sessions := db.sessions[token := Session(o.result, AwaitingEmpty, expiresAt, None)])
  {
    hide UpdateInventory;
  }

  lemma AcceptKeeps(p: Policy, db: Db, token: string, d: Device, inv: Inventory, now: Time, expiresAt: Time)
    requires Inv(p, db) && FromInform(inv)
    ensures var o := Accept(db, token, d, inv, now, expiresAt); o.Commit? ==> Follows(p, db, o.db)
  {
    hide Inv, Coupled, StoreOk, Steady, Evolves, SessionsLinked, OpsLinked, JobsLinked, UpdateInventory, Follows,
      FromInform;
    PartsInOrder(p, db);
    if token in db.sessions {
      assert Accept(db, token, d, inv, now, expiresAt).Raised?;
    } else {
      hide Accept;
      NextIsFree(p, db);
      AcceptShape(db, token, d, inv, now, expiresAt);
      var o := Accept(db, token, d, inv, now, expiresAt);
      UpsertStoreOk(db.ops, db.store, o.result, DeviceRow(db.store.cpes, o.result, d), inv);
      NewSessionKeepsCoupled(db.ops, db.attempts, db.sessions, token,
                             Session(o.result, AwaitingEmpty, expiresAt, None));
      MoreCpesLinked(db, o.db.next, db.store.cpes.Keys + {o.result}, token, o.db.sessions[token]);
      SeenKeepsCore(p, db, o.db);
    }
  }

  lemma EndKeepsCoupled(ops: map<Id, Op>, attempts: map<Id, Attempt>, sessions: map<string, Session>, token: string,
                        now: Time)
    requires Coupled(ops, attempts, sessions) && token in sessions && sessions[token].state.AwaitingEmpty?
    ensures Coupled(ops, attempts, sessions[token := sessions[token].(state := Completed, completedAt := Some(now))])
  {}

  lemma CompleteKeeps(p: Policy, db: Db, token: string, now: Time)
    requires Inv(p, db)
    ensures var o := Complete(db, token, now); o.Commit? ==> Follows(p, db, o.db)
  {
    hide JobsOk, OneActive, OneRunning, JobsDrive, OpKeys, JobKeys, Accounted, CatalogSourced, ValuesSourced, StoreOk,
      Coupled, Steady, Evolves, OpsLinked, JobsLinked, CpesLinked;
    EvolvesSame(db.ops);
    if token in db.sessions && db.sessions[token].state.AwaitingEmpty? {
      EndKeepsCoupled(db.ops, db.attempts, db.sessions, token, now);
    }
  }
}
