/** Idempotency keys over whole runs: a request repeated under its key finds what it created, whatever has happened
    since. */
module Idempotency {
  import opened Text
  import opened Domain
  import opened Policies
  import opened Jobs
  import opened Registers
  import opened Queue
  import opened Invariants
  import opened QueueProofs
  import opened AdvanceProofs
  import opened OperationProofs
  import opened Validation
  import opened Runs
  import opened Effects
  import opened QuietSteps

  // ----- Operations -----

  /** An operation that the request would find again. */
  ghost predicate Answers(ops: map<Id, Op>, id: Id, r: Request) {
    && id in ops && ops[id].ask.cpe == r.cpe && ops[id].ask.key == ClientKey(r.key)
    && SameRequest(ops[id], r.kind, r.scope, r.path, r.capture, SortBy(Self, r.names))
  }

  lemma NewAnswers(p: Policy, db: Db, r: Request, plan: Plan, discovered: seq<string>, now: Time)
    requires PlanContract(p) && r.cpe in db.store.cpes && !BadSelection(r.kind, r.scope, r.names)
    requires CreatePlan(p, TargetOf(db.store.cpes[r.cpe]), r, discovered) == Ok(plan)
    ensures Answers(WithOp(db, NewOp(RequestAsk(r, plan, now))).ops, db.next, r)
  {
    var names := SortBy(Self, r.names);
    SortMembers(Self, r.names);
    if names != [] && Measured(r.scope) {
      assert DistinctBy(Self, r.names);
      SortAscends(Self, r.names);
      assert forall n :: n in plan.names <==> n in SetOf(plan.names);
      assert forall n :: n in names <==> n in SetOf(names);
      AscendingUnique(Self, plan.names, names);
    }
  }

  lemma CreatedAnswers(p: Policy, db: Db, r: Request, discovered: seq<string>, now: Time)
    requires PlanContract(p)
    ensures var o := Create(p, db, r, discovered, now); o.Commit? ==> Answers(o.db.ops, o.result, r)
  {
    hide Expire, CreatePlan, BadSelection, SameRequest, RequestAsk, PlanContract;
    var d := Expire(db, r.cpe, now);
    ExpiredNotDue(db, r.cpe, now);
    if r.cpe in d.store.cpes && !BadSelection(r.kind, r.scope, r.names) {
      var plan := CreatePlan(p, TargetOf(d.store.cpes[r.cpe]), r, discovered);
      if plan.Ok? { NewAnswers(p, d, r, plan.value, discovered, now); }
    }
  }

  lemma AnswersStay(ops: map<Id, Op>, later: map<Id, Op>, id: Id, r: Request)
    requires Answers(ops, id, r) && Evolves(ops, later)
    ensures Answers(later, id, r)
  {}

  lemma FoundAgain(p: Policy, db: Db, id: Id, r: Request, discovered: seq<string>, now: Time)
    requires Inv(p, db) && Answers(db.ops, id, r) && r.cpe in db.store.cpes && !BadSelection(r.kind, r.scope, r.names)
    ensures Create(p, db, r, discovered, now) == Commit(Expire(db, r.cpe, now), id)
  {
    hide Core, Steady, Expire, BadSelection, SameRequest, Evolves;
    ExpireKeeps(p, db, r.cpe, now);
    var d := Expire(db, r.cpe, now);
    AnswersStay(db.ops, d.ops, id, r);
    OneKey(p, d);
  }

  lemma OneKey(p: Policy, db: Db)
    requires Core(p, db)
    ensures OpKeys(db.ops) && JobKeys(db.jobs)
  {
    hide JobsOk, Coupled, CatalogSourced, ValuesSourced, StoreOk, OneActive, JobsDrive, OneRunning, Accounted;
  }

  lemma CpeStays(p: Policy, db: Db, actions: seq<Action>, cpe: Id)
    requires Contract(p) && Inv(p, db) && AllPossible(actions) && cpe in db.store.cpes
    ensures cpe in Run(p, db, actions).store.cpes
  {
    hide Contract, Inv, AllPossible, Run;
    RunLasts(p, db, actions);
  }

  /** Once a request has been accepted, the same request under the same key returns the same operation after any further
      run, whatever was discovered or changed since; it only expires what is overdue. */
  lemma CreateIsIdempotent(p: Policy, db: Db, r: Request, discovered: seq<string>, now: Time, actions: seq<Action>,
                           discoveredLater: seq<string>, later: Time)
    requires Contract(p) && Inv(p, db) && AllPossible(actions) && Create(p, db, r, discovered, now).Commit?
    ensures var o := Create(p, db, r, discovered, now);
            var e := Run(p, o.db, actions);
            Create(p, e, r, discoveredLater, later) == Commit(Expire(e, r.cpe, later), o.result)
  {
    hide Inv, PlanContract, PermittedContract, ObservationContract, DiscoveryContract, AllPossible, Run, Evolves,
      Answers, CreatePlan, SameRequest, RequestAsk;
    var o := Create(p, db, r, discovered, now);
    CreateKeeps(p, db, r, discovered, now);
    CreatedAnswers(p, db, r, discovered, now);
    RunKeeps(p, o.db, actions);
    AnswersStay(o.db.ops, Run(p, o.db, actions).ops, o.result, r);
    CreatedCpe(p, db, r, discovered, now);
    CpeStays(p, o.db, actions, r.cpe);
    FoundAgain(p, Run(p, o.db, actions), o.result, r, discoveredLater, later);
  }

  lemma CreatedCpe(p: Policy, db: Db, r: Request, discovered: seq<string>, now: Time)
    ensures var o := Create(p, db, r, discovered, now);
            o.Commit? ==> r.cpe in o.db.store.cpes && !BadSelection(r.kind, r.scope, r.names)
  {
    hide CreatePlan, BadSelection, SameRequest, RequestAsk;
  }

  /** A request under a used key that asks for something else is refused, and nothing changes. */
  lemma OtherRequestRefused(p: Policy, db: Db, id: Id, r: Request, discovered: seq<string>, now: Time)
    requires Inv(p, db) && id in db.ops && db.ops[id].ask.cpe == r.cpe && db.ops[id].ask.key == ClientKey(r.key)
    requires !SameRequest(db.ops[id], r.kind, r.scope, r.path, r.capture, SortBy(Self, r.names))
    ensures Create(p, db, r, discovered, now).Raised?
  {
    hide Core, Steady, Expire, BadSelection;
    ExpireKeeps(p, db, r.cpe, now);
    OneKey(p, Expire(db, r.cpe, now));
  }

  // ----- Jobs -----

  /** A job record keeps its CPE, its key and its specification. */
  ghost predicate SameOrder(a: Job, b: Job) { a.cpe == b.cpe && a.key == b.key && a.spec == b.spec }

  ghost predicate JobsStay(jobs: map<Id, Job>, later: map<Id, Job>) {
    forall j | j in jobs :: j in later && SameOrder(jobs[j], later[j])
  }

  lemma {:induction false} LaunchStays(p: Policy, target: Target, job: Job, id: Id, now: Time)
    ensures SameOrder(job, Launch(p, target, job, id, now).0)
    decreases |job.frontier|
  {
    if job.frontier != [] && job.rpcCount < job.spec.maxRpcs && job.entryCount < job.spec.maxEntries {
      LaunchStays(p, target, Popped(job).(failures := Popped(job).failures + [PlanFailure]), id, now);
    }
  }

  lemma {:induction false} EntriesStay(job: Job, entries: seq<Entry>, n: nat)
    requires n <= |entries|
    ensures SameOrder(job, AddEntries(job, entries, n))
  {
    hide Concrete;
    if n > 0 { EntriesStay(job, entries, n - 1); }
  }

  lemma SettledStays(job: Job, id: Id, op: Op, entries: seq<Entry>)
    ensures SameOrder(job, Settled(job, id, op, entries))
  {
    hide AddEntries;
    EntriesStay(Counted(job, |entries|), entries, |entries|);
  }

  lemma AdvanceStays(p: Policy, db: Db, j: Id, now: Time)
    requires j in db.jobs
    ensures JobsStay(db.jobs, Advance(p, db, j, now).jobs)
  {
    hide Launch, Settled, EntriesOf;
    var job := db.jobs[j];
    if job.current.Some? && job.current.value in db.ops {
      SettledStays(job, job.current.value, db.ops[job.current.value],
                   EntriesOf(db.catalog, job.cpe, job.current.value));
    }
    if job.cpe in db.store.cpes { LaunchStays(p, TargetOf(db.store.cpes[job.cpe]), ReadyJob(db, job), db.next, now); }
  }

  lemma JobsStayTransitive(a: map<Id, Job>, b: map<Id, Job>, c: map<Id, Job>)
    requires JobsStay(a, b) && JobsStay(b, c)
    ensures JobsStay(a, c)
  {}

  lemma SameJobsStay(jobs: map<Id, Job>)
    ensures JobsStay(jobs, jobs)
  {}

  lemma ActiveStays(p: Policy, db: Db, cpe: Id, now: Time)
    ensures JobsStay(db.jobs, AdvanceActive(p, db, cpe, now).jobs)
  {
    hide Advance, JobsStay;
    SameJobsStay(db.jobs);
    var found := ActiveJob(db.jobs, cpe);
    if found.Some? { AdvanceStays(p, db, found.value, now); }
  }

  lemma TruncateStays(jobs: map<Id, Job>, cpe: Id, id: Id, names: seq<Info>)
    ensures JobsStay(jobs, Truncate(jobs, cpe, id, names).1)
  {
    hide SortBy;
  }

  lemma ExpireStays(db: Db, cpe: Id, now: Time)
    ensures Expire(db, cpe, now).jobs == db.jobs
  {}

  lemma AnswerStays(p: Policy, db: Db, token: string, reply: Reply, now: Time)
    requires token in db.sessions
    ensures var o := Answer(p, db, token, reply, now); o.Commit? ==> JobsStay(db.jobs, o.db.jobs)
  {
    hide RowPlan, Judge, Finish, AdvanceActive, DigestOf, JobsStay, Truncate, CatalogAll, ValuesAll, Stored,
      AnsweredOp;
    SameJobsStay(db.jobs);
    var found := AttemptFor(db.attempts, token, reply.rpcId);
    var s := db.sessions[token];
    if found.Some? && found.value in db.ops && s.cpe in db.store.cpes {
      var id, ask := found.value, db.ops[found.value].ask;
      var current := RowPlan(p, TargetOf(db.store.cpes[s.cpe]), ask);
      var plan := if current.Some? then current
        else p.restore(ask.profileId, ask.profileVersion, ask.scope, ask.path, ask.requested);
      if plan.Some? && Judge(p, ask, plan.value, reply, now, id).Some? {
        var v := Judge(p, ask, plan.value, reply, now, id).value;
        var evidence := if Captures(db.ops[id], v) then p.evidence(reply, plan.value, ask.kind, now) else None;
        var r := Recorded(p, db, token, id, plan.value, reply, v, evidence, now);
        if reply.NamesReply? { TruncateStays(db.jobs, s.cpe, id, reply.names); }
        ActiveStays(p, r, s.cpe, now);
        JobsStayTransitive(db.jobs, r.jobs, AdvanceActive(p, r, s.cpe, now).jobs);
      }
    }
  }

  lemma PollStays(p: Policy, db: Db, token: string, rpcId: string, now: Time)
    requires token in db.sessions
    ensures Settle(db, Poll(p, db, token, rpcId, now)).jobs == db.jobs
  {
    hide Poll;
    PollDispatches(p, db, token, rpcId, now);
  }

  lemma ExchangeStays(p: Policy, db: Db, token: string, reply: Option<Reply>, rpcId: string, now: Time)
    ensures JobsStay(db.jobs, Settle(db, Exchange(p, db, token, reply, rpcId, now)).jobs)
  {
    hide Expire, AdvanceActive, Poll, Answer, JobsStay;
    SameJobsStay(db.jobs);
    if token in db.sessions && db.sessions[token].cpe in db.store.cpes {
      var cpe := db.sessions[token].cpe;
      ExpireStays(db, cpe, now);
      ActiveStays(p, Expire(db, cpe, now), cpe, now);
      SameSessions(p, db, cpe, now, token);
      var d := AdvanceActive(p, Expire(db, cpe, now), cpe, now);
      if reply.None? {
        PollStays(p, d, token, rpcId, now);
      } else {
        AnswerStays(p, d, token, reply.value, now);
        var o := Answer(p, d, token, reply.value, now);
        if o.Commit? { JobsStayTransitive(db.jobs, d.jobs, o.db.jobs); }
      }
    }
  }

  lemma NewJobStays(p: Policy, db: Db, cpe: Id, spec: Spec, key: nat, now: Time)
    requires db.next !in db.jobs
    ensures JobsStay(db.jobs, Settle(db, CreateJob(p, db, cpe, spec, key, now)).jobs)
  {
    hide Expire, Advance, FirstFrontier, JobsStay, ValidSpec, NewJob;
    SameJobsStay(db.jobs);
    ExpireStays(db, cpe, now);
    ExpireKeepsNext(db, cpe, now);
    var o, d := CreateJob(p, db, cpe, spec, key, now), Expire(db, cpe, now);
    if o.Commit? && o.db != d {
      SortedSpecValid(spec);
      var data := spec.(names := SortBy(Self, spec.names));
      var w := WithJob(d, NewJob(cpe, ClientKey(key), data, FirstFrontier(p, d, cpe, data).value, now));
      AddedStays(d, w);
      AdvanceStays(p, w, d.next, now);
      JobsStayTransitive(db.jobs, w.jobs, o.db.jobs);
    }
  }

  lemma ExpireKeepsNext(db: Db, cpe: Id, now: Time)
    ensures Expire(db, cpe, now).next == db.next && Expire(db, cpe, now).store == db.store
  {}

  lemma AddedStays(db: Db, later: Db)
    requires db.next !in db.jobs && exists job :: later == WithJob(db, job)
    ensures JobsStay(db.jobs, later.jobs)
  {}

  lemma NextIsNew(p: Policy, db: Db)
    requires Inv(p, db)
    ensures db.next !in db.jobs
  {
    hide JobsOk, Coupled, CatalogSourced, ValuesSourced, StoreOk, OneActive, JobsDrive, OneRunning, Accounted;
  }

  lemma PlainStays(p: Policy, db: Db, a: Action)
    requires !a.DoExchange? && !a.DoCreateJob? && !a.DoGetJob?
    ensures Act(p, db, a).jobs == db.jobs
  {
    hide Create, Get, Accept, Complete, Bind, Approve;
    if a.DoCreate? {
      CreateJobs(p, db, a.request, a.discovered, a.now);
    } else {
      OtherSteps(p, db, a);
    }
  }

  lemma StepStays(p: Policy, db: Db, a: Action)
    requires Inv(p, db)
    ensures JobsStay(db.jobs, Act(p, db, a).jobs)
  {
    hide Inv, Create, Get, CreateJob, Exchange, Accept, Complete, Bind, Approve, JobsStay, Advance, Expire;
    SameJobsStay(db.jobs);
    match a
    case DoCreateJob(cpe, spec, key, now) =>
      NextIsNew(p, db);
      NewJobStays(p, db, cpe, spec, key, now);
    case DoGetJob(cpe, id, now) =>
      ExpireStays(db, cpe, now);
      if id in db.jobs { AdvanceStays(p, Expire(db, cpe, now), id, now); }
    case DoExchange(token, reply, rpcId, now) => ExchangeStays(p, db, token, reply, rpcId, now);
    case _ => PlainStays(p, db, a);
  }

  /** Over any run every job keeps its CPE, its key and its specification. */
  lemma {:induction false} RunStays(p: Policy, db: Db, actions: seq<Action>)
    requires Contract(p) && Inv(p, db) && AllPossible(actions)
    ensures JobsStay(db.jobs, Run(p, db, actions).jobs)
  {
    hide Contract, Inv, Possible, Act, JobsStay;
    if actions == [] {
      SameJobsStay(db.jobs);
    } else {
      var n := |actions| - 1;
      RunStays(p, db, actions[..n]);
      RunKeeps(p, db, actions[..n]);
      StepStays(p, Run(p, db, actions[..n]), actions[n]);
      JobsStayTransitive(db.jobs, Run(p, db, actions[..n]).jobs, Run(p, db, actions).jobs);
    }
  }

  ghost predicate Ordered(jobs: map<Id, Job>, j: Id, cpe: Id, spec: Spec, key: nat) {
    j in jobs && jobs[j].cpe == cpe && jobs[j].key == ClientKey(key)
        && jobs[j].spec == spec.(names := SortBy(Self, spec.names))
  }

  lemma CreatedOrdered(p: Policy, db: Db, cpe: Id, spec: Spec, key: nat, now: Time)
    requires db.next !in db.jobs
    ensures var o := CreateJob(p, db, cpe, spec, key, now);
            o.Commit? ==> Ordered(o.db.jobs, o.result, cpe, spec, key) && ValidSpec(spec) && cpe in o.db.store.cpes
  {
    hide Expire, Advance, FirstFrontier, ValidSpec, SortBy;
    ExpireStays(db, cpe, now);
    ExpireKeepsNext(db, cpe, now);
    var o, d := CreateJob(p, db, cpe, spec, key, now), Expire(db, cpe, now);
    if o.Commit? && JobByKey(d.jobs, cpe, ClientKey(key)).None? {
      SortedSpecValid(spec);
      var data := spec.(names := SortBy(Self, spec.names));
      var w := WithJob(d, NewJob(cpe, ClientKey(key), data, FirstFrontier(p, d, cpe, data).value, now));
      AdvanceStays(p, w, d.next, now);
      AdvanceQuiet(p, w, d.next, now);
      OrderedStays(w.jobs, Advance(p, w, d.next, now).jobs, d.next, cpe, spec, key);
    }
  }

  /** Once a collection job has been accepted, the same specification under the same key returns the same job after any
      further run. */
  lemma CreateJobIsIdempotent(p: Policy, db: Db, cpe: Id, spec: Spec, key: nat, now: Time, actions: seq<Action>,
                              later: Time)
    requires Contract(p) && Inv(p, db) && AllPossible(actions) && CreateJob(p, db, cpe, spec, key, now).Commit?
    ensures var o := CreateJob(p, db, cpe, spec, key, now);
            var e := Run(p, o.db, actions);
            CreateJob(p, e, cpe, spec, key, later) == Commit(Expire(e, cpe, later), o.result)
  {
    hide Inv, PlanContract, PermittedContract, ObservationContract, DiscoveryContract, AllPossible, Run, Evolves,
      JobsStay, CreateJob, ValidSpec, Ordered;
    var o := CreateJob(p, db, cpe, spec, key, now);
    NextIsNew(p, db);
    CreateJobKeeps(p, db, cpe, spec, key, now);
    CreatedOrdered(p, db, cpe, spec, key, now);
    RunKeeps(p, o.db, actions);
    RunStays(p, o.db, actions);
    CpeStays(p, o.db, actions, cpe);
    OrderedStays(o.db.jobs, Run(p, o.db, actions).jobs, o.result, cpe, spec, key);
    JobFoundAgain(p, Run(p, o.db, actions), o.result, cpe, spec, key, later);
  }

  lemma OrderedStays(jobs: map<Id, Job>, later: map<Id, Job>, j: Id, cpe: Id, spec: Spec, key: nat)
    requires Ordered(jobs, j, cpe, spec, key) && JobsStay(jobs, later)
    ensures Ordered(later, j, cpe, spec, key)
  {}

  lemma JobFoundAgain(p: Policy, db: Db, j: Id, cpe: Id, spec: Spec, key: nat, now: Time)
    requires Inv(p, db) && Ordered(db.jobs, j, cpe, spec, key) && cpe in db.store.cpes && ValidSpec(spec)
    ensures CreateJob(p, db, cpe, spec, key, now) == Commit(Expire(db, cpe, now), j)
  {
    hide Core, Steady, Expire, Advance, FirstFrontier, ValidSpec, Evolves;
    ExpireKeeps(p, db, cpe, now);
    ExpireStays(db, cpe, now);
    ExpireKeepsNext(db, cpe, now);
    OneKey(p, Expire(db, cpe, now));
  }

  // ----- Commands -----

  lemma PollRepeats(p: Policy, db: Db, token: string, rpcId: string, now: Time, again: string, later: Time)
    requires PlanContract(p) && Inv(p, db) && token in db.sessions
    requires var o := Poll(p, db, token, rpcId, now);
             o.Commit? && o.result.Some? && later < o.db.sessions[token].expiresAt
    ensures var o := Poll(p, db, token, rpcId, now); Poll(p, o.db, token, again, later) == Commit(o.db, o.result)
  {
    hide Core, Steady, Evolves, RowPlan, PlanContract, Finish;
    PollKeeps(p, db, token, rpcId, now);
    var o := Poll(p, db, token, rpcId, now);
    OneAttempts(p, o.db);
    var s := db.sessions[token];
    var found := if s.state.AwaitingResponse? then AttemptOf(db.attempts, token) else PendingOp(db.ops, s.cpe);
    assert found.value in o.db.attempts && o.db.attempts[found.value].session == token;
    assert AttemptOf(o.db.attempts, token) == found;
  }

  /** A session that awaits a response has one operation in flight, with its own deadline. */
  lemma InFlight(p: Policy, db: Db, token: string) returns (id: Id)
    requires Core(p, db) && token in db.sessions && db.sessions[token].state.AwaitingResponse?
    ensures id in db.ops && db.ops[id].state.Dispatched? && db.ops[id].ask.cpe == db.sessions[token].cpe
    ensures db.ops[id].expiresAt == db.sessions[token].expiresAt
  {
    hide Core, OpsOk;
    CoreParts(p, db);
    WaiterHasAttempt(db, token);
    id := AttemptOf(db.attempts, token).value;
    AttemptConcerns(p, db, token, id);
  }

  lemma OnlyActive(p: Policy, db: Db, id: Id)
    requires Core(p, db) && id in db.ops && Active(db.ops[id])
    ensures forall i | i in db.ops && Active(db.ops[i]) && db.ops[i].ask.cpe == db.ops[id].ask.cpe :: i == id
    ensures forall j | j in db.jobs && db.jobs[j].cpe == db.ops[id].ask.cpe :: Waits(db, db.jobs[j])
  {
    hide JobsOk, CatalogSourced, ValuesSourced, StoreOk, Coupled, OneRunning, Accounted, OpKeys, JobKeys, OpsLinked,
      JobsLinked, CpesLinked, SessionsLinked;
  }

  /** While an operation is in flight, preparing an exchange of its session changes nothing. */
  lemma NothingToPrepare(p: Policy, db: Db, token: string, now: Time)
    requires Core(p, db) && token in db.sessions && db.sessions[token].state.AwaitingResponse?
    requires now < db.sessions[token].expiresAt
    ensures Prepared(p, db, db.sessions[token].cpe, now) == db
  {
    hide Core, Waits, Expire, AdvanceActive;
    var id := InFlight(p, db, token);
    OnlyActive(p, db, id);
    NothingDue(db, db.sessions[token].cpe, now);
    Unadvanced(p, db, db.sessions[token].cpe, now);
  }

  lemma CommandAwaited(p: Policy, db: Db, token: string, rpcId: string, now: Time)
    requires token in db.sessions
    ensures var o := Poll(p, db, token, rpcId, now);
            o.Commit? && o.result.Some? ==>
              token in o.db.sessions && o.db.sessions[token].state.AwaitingResponse?
              && o.db.sessions[token].cpe == db.sessions[token].cpe
  {
    hide RowPlan, Finish, FailedProfile;
  }

  /** A session that polls again before its deadline gets the very same command, under the same request identifier, and
      nothing changes: nothing expires and no job advances either. */
  lemma CommandRepeats(p: Policy, db: Db, token: string, rpcId: string, now: Time, again: string, later: Time)
    requires PlanContract(p) && Inv(p, db)
    requires var o := Exchange(p, db, token, None, rpcId, now);
             o.Commit? && o.result.Some? && (token in o.db.sessions ==> later < o.db.sessions[token].expiresAt)
    ensures var o := Exchange(p, db, token, None, rpcId, now);
            Exchange(p, o.db, token, None, again, later) == Commit(o.db, o.result)
  {
    hide Inv, Core, Steady, Evolves, PlanContract, Poll, Expire, AdvanceActive;
    var cpe := db.sessions[token].cpe;
    PreparedKeeps(p, db, cpe, now);
    var d := Prepared(p, db, cpe, now);
    CommandAwaited(p, d, token, rpcId, now);
    PollKeeps(p, d, token, rpcId, now);
    var o := Poll(p, d, token, rpcId, now);
    PollRepeats(p, d, token, rpcId, now, again, later);
    CoreOfInv(p, o.db);
    NothingToPrepare(p, o.db, token, later);
    PollDispatches(p, d, token, rpcId, now);
  }



  lemma OneAttempts(p: Policy, db: Db)
    requires Core(p, db)
    ensures OneAttemptEach(db.attempts)
  {
    hide JobsOk, CatalogSourced, ValuesSourced, StoreOk, OneActive, JobsDrive, OneRunning, Accounted, OpsOk,
      AttemptsOk, WaitersAttempted;
  }
}
