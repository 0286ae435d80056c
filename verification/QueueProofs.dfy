/** Every change that the repository operations are made of keeps the queue's invariants. */
module QueueProofs {
  import opened Text
  import opened Domain
  import opened Policies
  import opened Jobs
  import opened Queue
  import opened Invariants

  // ----- Changes that only calm operations down -----

  ghost predicate NoNewSuccess(ops: map<Id, Op>, later: map<Id, Op>) {
    forall i | i in later && later[i].state.Succeeded? :: i in ops && ops[i].state.Succeeded?
  }

  lemma SteadyStays(jobs: map<Id, Job>, ops: map<Id, Op>, later: map<Id, Op>)
    requires Steady(jobs, ops) && Evolves(ops, later) && NoNewSuccess(ops, later)
    ensures Steady(jobs, later)
  {}

  /** The tables other than operations, attempts and sessions are the same, and nothing became active. */
  ghost predicate CalmStep(db: Db, later: Db) {
    && later == db.(ops := later.ops, attempts := later.attempts, sessions := later.sessions)
    && Evolves(db.ops, later.ops) && Calmer(db.ops, later.ops) && later.ops.Keys == db.ops.Keys
    && NoNewSuccess(db.ops, later.ops)
    && later.sessions.Keys == db.sessions.Keys
    && forall t | t in db.sessions :: later.sessions[t].cpe == db.sessions[t].cpe
  }

  lemma CalmKeepsCore(p: Policy, db: Db, later: Db)
    requires Core(p, db) && CalmStep(db, later) && Coupled(later.ops, later.attempts, later.sessions)
    ensures Core(p, later)
    ensures Steady(db.jobs, db.ops) ==> Steady(later.jobs, later.ops)
  {
    assert SessionsLinked(later.sessions, db.store.cpes.Keys) && OpsLinked(db.next, later.ops, db.store.cpes.Keys);
    hide OneActive, OneRunning, JobsDrive, OpKeys, JobKeys, JobsOk, Accounted, CatalogSourced, ValuesSourced, StoreOk,
      Coupled, Evolves, Calmer, SessionsLinked, OpsLinked, JobsLinked, CpesLinked, Steady, NoNewSuccess;
    CalmKeepsActive(db.jobs, db.ops, later.ops);
    EvolveKeepsKeys(db.ops, later.ops);
    EvolveKeepsJobs(db.jobs, db.ops, later.ops);
    EvolveKeepsSources(p.defaults, db.ops, later.ops, db.catalog, db.values, db.store);
    if Steady(db.jobs, db.ops) { SteadyStays(db.jobs, db.ops, later.ops); }
  }

  // ----- Expiry -----

  ghost predicate NoneDue(ops: map<Id, Op>, cpe: Id, now: Time) {
    forall i | i in ops && Active(ops[i]) && ops[i].ask.cpe == cpe :: now < ops[i].expiresAt
  }

  lemma ExpireIsCalm(db: Db, cpe: Id, now: Time)
    ensures CalmStep(db, Expire(db, cpe, now))
    ensures NoneDue(Expire(db, cpe, now).ops, cpe, now)
  {}

  lemma ExpireKeepsCoupled(ops: map<Id, Op>, attempts: map<Id, Attempt>, sessions: map<string, Session>, cpe: Id,
                           now: Time)
    requires Coupled(ops, attempts, sessions)
    ensures Coupled(ExpireOps(ops, cpe, now), attempts, ExpireSessions(sessions, ops, attempts, cpe, now))
  {
    var later, sessions' := ExpireOps(ops, cpe, now), ExpireSessions(sessions, ops, attempts, cpe, now);
    forall i | i in attempts
      ensures i in later && attempts[i].session in sessions'
              && AttemptOk(later[i], attempts[i], sessions'[attempts[i].session])
    {
      var t := attempts[i].session;
      assert AttemptOk(ops[i], attempts[i], sessions[t]);
      assert Due(ops[i], cpe, now) ==> ExpiresWith(ops, attempts, cpe, now, t);
      assert ExpiresWith(ops, attempts, cpe, now, t) ==> Due(ops[i], cpe, now);
    }
  }

  /** Where nothing is overdue, expiring changes nothing. */
  lemma NothingDue(db: Db, cpe: Id, now: Time)
    requires forall i | i in db.ops :: !Due(db.ops[i], cpe, now)
    ensures Expire(db, cpe, now) == db
  {
    assert ExpireOps(db.ops, cpe, now) == db.ops;
    assert ExpireSessions(db.sessions, db.ops, db.attempts, cpe, now) == db.sessions;
  }

  /** Expiring ends every overdue operation of the CPE, and its session, and nothing else. */
  lemma ExpireKeeps(p: Policy, db: Db, cpe: Id, now: Time)
    requires Core(p, db)
    ensures var d := Expire(db, cpe, now);
            Core(p, d) && CalmStep(db, d) && NoneDue(d.ops, cpe, now)
                && (Steady(db.jobs, db.ops) ==> Steady(d.jobs, d.ops))
  {
    hide Coupled, CalmStep, NoneDue;
    ExpireIsCalm(db, cpe, now);
    ExpireKeepsCoupled(db.ops, db.attempts, db.sessions, cpe, now);
    CalmKeepsCore(p, db, Expire(db, cpe, now));
  }

  predicate Overdue(s: Session, cpe: Id, now: Time) { s.cpe == cpe && s.state.AwaitingResponse? && s.expiresAt <= now }

  lemma OverdueSessions(db: Db, cpe: Id, now: Time, token: string)
    requires Coupled(db.ops, db.attempts, db.sessions) && token in db.sessions
    ensures ExpiresWith(db.ops, db.attempts, cpe, now, token) <==> Overdue(db.sessions[token], cpe, now)
  {
    hide OneAttemptEach;
    if Overdue(db.sessions[token], cpe, now) {
      var i :| i in db.attempts && db.attempts[i].session == token;
      assert AttemptOk(db.ops[i], db.attempts[i], db.sessions[token]);
    }
    if ExpiresWith(db.ops, db.attempts, cpe, now, token) {
      var i :| i in db.ops && Due(db.ops[i], cpe, now) && i in db.attempts && db.attempts[i].session == token;
      assert AttemptOk(db.ops[i], db.attempts[i], db.sessions[token]);
    }
  }

  /** Expiring ends exactly the overdue operations of the CPE and exactly the sessions that wait past their own
      deadline; everything else stays as it is. */
  lemma ExpiresExactly(p: Policy, db: Db, cpe: Id, now: Time)
    requires Core(p, db)
    ensures var d := Expire(db, cpe, now);
            && d == db.(ops := d.ops, sessions := d.sessions) && d.ops.Keys == db.ops.Keys
            && d.sessions.Keys == db.sessions.Keys
            && (forall i | i in db.ops ::
                  if db.ops[i].ask.cpe == cpe && Active(db.ops[i]) && db.ops[i].expiresAt <= now
                  then d.ops[i].state.Expired? && d.ops[i].finishedAt == Some(now) && d.ops[i].ask == db.ops[i].ask
                  else d.ops[i] == db.ops[i])
            && (forall t | t in db.sessions ::
                  if Overdue(db.sessions[t], cpe, now) then d.sessions[t].state.Completed?
                                                            && d.sessions[t].completedAt == Some(now)
                  else d.sessions[t] == db.sessions[t])
  {
    hide JobsOk, CatalogSourced, ValuesSourced, StoreOk, OneActive, JobsDrive, OneRunning, Accounted, Coupled,
      ExpiresWith, OpKeys, JobKeys, OpsLinked, JobsLinked, CpesLinked, SessionsLinked;
    forall t | t in db.sessions
      ensures ExpiresWith(db.ops, db.attempts, cpe, now, t) <==> Overdue(db.sessions[t], cpe, now)
    {
      OverdueSessions(db, cpe, now, t);
    }
  }

  // ----- Ending a session -----

  lemma FinishKeeps(p: Policy, db: Db, token: string, now: Time)
    requires Core(p, db) && token in db.sessions
    requires !db.sessions[token].state.AwaitingResponse?
    requires db.sessions[token].state.AwaitingEmpty? ==> forall i | i in db.attempts :: db.attempts[i].session != token
    ensures var d := db.(sessions := Finish(db.sessions, token, now));
            Core(p, d) && CalmStep(db, d) && (Steady(db.jobs, db.ops) ==> Steady(d.jobs, d.ops))
  {
    var d := db.(sessions := Finish(db.sessions, token, now));
    FinishKeepsCoupled(db.ops, db.attempts, db.sessions, token, now);
    assert CalmStep(db, d);
    hide Coupled, CalmStep;
    CalmKeepsCore(p, db, d);
  }

  lemma FinishKeepsCoupled(ops: map<Id, Op>, attempts: map<Id, Attempt>, sessions: map<string, Session>, token: string,
                           now: Time)
    requires Coupled(ops, attempts, sessions) && token in sessions
    requires !sessions[token].state.AwaitingResponse?
    requires sessions[token].state.AwaitingEmpty? ==> forall i | i in attempts :: attempts[i].session != token
    ensures Coupled(ops, attempts, Finish(sessions, token, now))
  {}

  lemma EmptyMeansUnattempted(ops: map<Id, Op>, attempts: map<Id, Attempt>, sessions: map<string, Session>,
                              token: string)
    requires Coupled(ops, attempts, sessions) && token in sessions && sessions[token].state.AwaitingEmpty?
    ensures forall i | i in attempts :: attempts[i].session != token
  {}

  // ----- Failing an operation whose profile changed -----

  /** The operation a session is about: its dispatched one, or a pending one it is about to take. */
  ghost predicate Concerns(db: Db, token: string, id: Id) {
    && token in db.sessions && id in db.ops && db.ops[id].ask.cpe == db.sessions[token].cpe
    && ((db.ops[id].state.Dispatched? && id in db.attempts && db.attempts[id].session == token)
        || (db.ops[id].state.Pending? && db.sessions[token].state.AwaitingEmpty?))
  }

  lemma FailKeepsCoupled(db: Db, token: string, id: Id, now: Time)
    requires Coupled(db.ops, db.attempts, db.sessions) && Concerns(db, token, id)
    ensures var d := FailedProfile(db, token, id, now); Coupled(d.ops, d.attempts, d.sessions)
  {
    var d := FailedProfile(db, token, id, now);
    forall i | i in d.attempts
      ensures i in d.ops && d.attempts[i].session in d.sessions
              && AttemptOk(d.ops[i], d.attempts[i], d.sessions[d.attempts[i].session])
    {
      assert AttemptOk(db.ops[i], db.attempts[i], db.sessions[db.attempts[i].session]);
    }
  }

  /** The unguarded write of a failure only ever meets an active operation. */
  lemma FailKeeps(p: Policy, db: Db, token: string, id: Id, now: Time)
    requires Core(p, db) && Concerns(db, token, id)
    ensures var d := FailedProfile(db, token, id, now);
            Core(p, d) && CalmStep(db, d) && (Steady(db.jobs, db.ops) ==> Steady(d.jobs, d.ops))
  {
    hide Coupled, CalmStep, FailedProfile, JobsOk, OneActive, OneRunning, JobsDrive, OpKeys, JobKeys, Accounted,
      CatalogSourced, ValuesSourced, StoreOk, OpsLinked, JobsLinked, CpesLinked, SessionsLinked;
    FailKeepsCoupled(db, token, id, now);
    FailIsCalm(db, token, id, now);
    CalmKeepsCore(p, db, FailedProfile(db, token, id, now));
  }

  lemma FailIsCalm(db: Db, token: string, id: Id, now: Time)
    requires Concerns(db, token, id)
    ensures CalmStep(db, FailedProfile(db, token, id, now))
  {}

  // ----- Dispatching -----

  lemma DispatchKeepsOps(db: Db, token: string, id: Id, rpcId: string, now: Time)
    requires OpsOk(db.ops, db.attempts.Keys) && Concerns(db, token, id) && db.ops[id].state.Pending?
    ensures var d := Dispatch(db, token, id, rpcId, now); OpsOk(d.ops, d.attempts.Keys)
  {
    hide Ascending, Concrete;
  }

  lemma DispatchKeepsAttempts(db: Db, token: string, id: Id, rpcId: string, now: Time)
    requires AttemptsOk(db.ops, db.attempts, db.sessions) && OpsOk(db.ops, db.attempts.Keys) && Concerns(db, token, id)
    requires db.ops[id].state.Pending? && forall i | i in db.attempts :: db.attempts[i].session != token
    ensures var d := Dispatch(db, token, id, rpcId, now); AttemptsOk(d.ops, d.attempts, d.sessions)
  {
    var d := Dispatch(db, token, id, rpcId, now);
    assert OpOk(db.ops[id], id in db.attempts);
    hide OpsOk, OpOk;
    forall i | i in d.attempts
      ensures i in d.ops && d.attempts[i].session in d.sessions
              && AttemptOk(d.ops[i], d.attempts[i], d.sessions[d.attempts[i].session])
    {
      if i != id { assert AttemptOk(db.ops[i], db.attempts[i], db.sessions[db.attempts[i].session]); }
    }
  }

  lemma DispatchKeepsWaiters(db: Db, token: string, id: Id, rpcId: string, now: Time)
    requires WaitersAttempted(db.attempts, db.sessions) && OneAttemptEach(db.attempts) && token in db.sessions
             && id in db.ops
    requires id !in db.attempts && forall i | i in db.attempts :: db.attempts[i].session != token
    ensures var d := Dispatch(db, token, id, rpcId, now);
            WaitersAttempted(d.attempts, d.sessions) && OneAttemptEach(d.attempts)
  {
    var d := Dispatch(db, token, id, rpcId, now);
    forall t | t in d.sessions && d.sessions[t].state.AwaitingResponse?
      ensures exists i :: i in d.attempts && d.attempts[i].session == t
    {
      if t == token {
        assert d.attempts[id].session == t;
      } else {
        var i :| i in db.attempts && db.attempts[i].session == t;
        assert i in d.attempts && d.attempts[i].session == t;
      }
    }
  }

  lemma PendingIsNew(ops: map<Id, Op>, attempted: set<Id>, id: Id)
    requires OpsOk(ops, attempted) && id in ops && ops[id].state.Pending?
    ensures id !in attempted
  {
    assert OpOk(ops[id], id in attempted);
  }

  lemma DispatchKeepsCoupled(db: Db, token: string, id: Id, rpcId: string, now: Time)
    requires Coupled(db.ops, db.attempts, db.sessions) && Concerns(db, token, id) && db.ops[id].state.Pending?
    ensures var d := Dispatch(db, token, id, rpcId, now); Coupled(d.ops, d.attempts, d.sessions)
  {
    EmptyMeansUnattempted(db.ops, db.attempts, db.sessions, token);
    hide OpsOk, AttemptsOk, OneAttemptEach, WaitersAttempted, Dispatch;
    PendingIsNew(db.ops, db.attempts.Keys, id);
    DispatchKeepsOps(db, token, id, rpcId, now);
    DispatchKeepsAttempts(db, token, id, rpcId, now);
    DispatchKeepsWaiters(db, token, id, rpcId, now);
  }

  lemma DispatchKeeps(p: Policy, db: Db, token: string, id: Id, rpcId: string, now: Time)
    requires Core(p, db) && Concerns(db, token, id) && db.ops[id].state.Pending?
    ensures var d := Dispatch(db, token, id, rpcId, now);
            Core(p, d) && CalmStep(db, d) && (Steady(db.jobs, db.ops) ==> Steady(d.jobs, d.ops))
  {
    hide Coupled, CalmStep, Dispatch, JobsOk, OneActive, OneRunning, JobsDrive, OpKeys, JobKeys, Accounted,
      CatalogSourced, ValuesSourced, StoreOk, OpsLinked, JobsLinked, CpesLinked, SessionsLinked;
    DispatchKeepsCoupled(db, token, id, rpcId, now);
    DispatchIsCalm(db, token, id, rpcId, now);
    CalmKeepsCore(p, db, Dispatch(db, token, id, rpcId, now));
  }

  lemma DispatchIsCalm(db: Db, token: string, id: Id, rpcId: string, now: Time)
    requires Concerns(db, token, id) && db.ops[id].state.Pending?
    ensures CalmStep(db, Dispatch(db, token, id, rpcId, now))
  {}

  // ----- A new operation -----

  /** A pending operation that may enter the queue. */
  ghost predicate Admissible(db: Db, op: Op) {
    && op == NewOp(op.ask) && op.ask.cpe in db.store.cpes && OpOk(op, false)
    && (forall i | i in db.ops && db.ops[i].ask.cpe == op.ask.cpe ::
        !Active(db.ops[i]) && db.ops[i].ask.key != op.ask.key)
    && (op.ask.key.ServerKey? ==> op.ask.key == ServerKey(db.next))
  }

  lemma NewOpEvolves(next: Id, ops: map<Id, Op>, cpes: set<Id>, op: Op)
    requires OpsLinked(next, ops, cpes)
    ensures Evolves(ops, ops[next := op])
  {}

  lemma NewOpKeepsCoupled(next: Id, ops: map<Id, Op>, attempts: map<Id, Attempt>, sessions: map<string, Session>,
                          cpes: set<Id>, op: Op)
    requires OpsLinked(next, ops, cpes) && Coupled(ops, attempts, sessions) && OpOk(op, false)
    ensures Coupled(ops[next := op], attempts, sessions)
  {}

  lemma NewOpKeepsActive(db: Db, op: Op)
    requires OneActive(db.ops) && OpKeys(db.ops) && Admissible(db, op) && OpsLinked(db.next, db.ops, db.store.cpes.Keys)
    ensures OneActive(db.ops[db.next := op]) && OpKeys(db.ops[db.next := op])
  {}

  lemma WithOpLinked(db: Db, op: Op)
    requires OpsLinked(db.next, db.ops, db.store.cpes.Keys) && JobsLinked(db.next, db.jobs, db.store.cpes.Keys)
    requires CpesLinked(db.next, db.store.cpes.Keys) && op.ask.cpe in db.store.cpes
    ensures var d := WithOp(db, op);
            OpsLinked(d.next, d.ops, d.store.cpes.Keys) && JobsLinked(d.next, d.jobs, d.store.cpes.Keys)
                && CpesLinked(d.next, d.store.cpes.Keys)
  {}

  lemma WithOpDrives(db: Db, op: Op)
    requires JobsDrive(db.jobs, db.ops) && OpsLinked(db.next, db.ops, db.store.cpes.Keys)
    requires forall j | j in db.jobs && db.jobs[j].cpe == op.ask.cpe :: !db.jobs[j].state.JobRunning?
    ensures JobsDrive(db.jobs, WithOp(db, op).ops) && (Steady(db.jobs, db.ops) ==> Steady(db.jobs, WithOp(db, op).ops))
  {}

  lemma AdmissibleOk(db: Db, op: Op)
    requires Admissible(db, op)
    ensures OpOk(op, false) && op.ask.cpe in db.store.cpes && op == NewOp(op.ask)
  {}

  lemma WithOpKeeps(p: Policy, db: Db, op: Op)
    requires Core(p, db) && Admissible(db, op)
    requires forall j | j in db.jobs && db.jobs[j].cpe == op.ask.cpe :: !db.jobs[j].state.JobRunning?
    ensures Core(p, WithOp(db, op)) && Evolves(db.ops, WithOp(db, op).ops)
    ensures Steady(db.jobs, db.ops) ==> Steady(WithOp(db, op).jobs, WithOp(db, op).ops)
  {
    hide OneActive, OneRunning, JobsDrive, OpKeys, JobKeys, JobsOk, Accounted, CatalogSourced, ValuesSourced, StoreOk,
      Coupled, Evolves, SessionsLinked, OpsLinked, JobsLinked, CpesLinked, Steady, Admissible, OpOk, NewOp;
    AdmissibleOk(db, op);
    var d := WithOp(db, op);
    WithOpLinked(db, op);
    WithOpDrives(db, op);
    NewOpEvolves(db.next, db.ops, db.store.cpes.Keys, op);
    NewOpKeepsCoupled(db.next, db.ops, db.attempts, db.sessions, db.store.cpes.Keys, op);
    NewOpKeepsActive(db, op);
    EvolveKeepsJobs(db.jobs, db.ops, d.ops);
    EvolveKeepsSources(p.defaults, db.ops, d.ops, db.catalog, db.values, db.store);
  }
}
