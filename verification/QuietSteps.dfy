/** Steps in which no operation succeeds: what they leave of the jobs. */
module QuietSteps {
  import opened Text
  import opened Domain
  import opened Policies
  import opened Jobs
  import opened JobProofs
  import opened Registers
  import opened Queue
  import opened Invariants
  import opened QueueProofs
  import opened AdvanceProofs
  import opened OperationProofs
  import opened Validation
  import opened Runs

  predicate HasSucceeded(ops: map<Id, Op>, i: Id) { i in ops && ops[i].state.Succeeded? }

  // ----- What such a step does to a job -----

  /** A job after a step in which none of its operations succeeded: it counts no more entries, launches at most
      operations that have not succeeded, and if it is still clean, either nothing happened to it or it has not
      accounted for anything yet. */
  ghost predicate QuietJob(job: Job, next: Job, later: map<Id, Op>) {
    && next.spec == job.spec
    && (job.spec.kind.WalkJob? ==>
          && next.entryCount == job.entryCount && |job.opIds| <= |next.opIds| && next.opIds[..|job.opIds|] == job.opIds
          && (forall k | |job.opIds| <= k < |next.opIds| :: !HasSucceeded(later, next.opIds[k]))
          && (MaxEntries in job.limits ==> MaxEntries in next.limits)
          && (Clean(next) ==> next == job || DoneIds(next) == {}))
  }

  ghost predicate NewJobQuiet(next: Job, later: map<Id, Op>) {
    next.spec.kind.WalkJob? ==>
      next.entryCount == 0 && (Clean(next) ==> DoneIds(next) == {})
          && forall k | 0 <= k < |next.opIds| :: !HasSucceeded(later, next.opIds[k])
  }

  ghost predicate QuietStep(db: Db, later: Db) {
    && Evolves(db.ops, later.ops) && NoNewSuccess(db.ops, later.ops)
    && forall j | j in later.jobs ::
         if j in db.jobs then QuietJob(db.jobs[j], later.jobs[j], later.ops) else NewJobQuiet(later.jobs[j], later.ops)
  }

  lemma QuietTwice(a: Db, b: Db, c: Db)
    requires QuietStep(a, b) && QuietStep(b, c) && a.jobs.Keys <= b.jobs.Keys <= c.jobs.Keys
    ensures QuietStep(a, c)
  {
    EvolvesTransitive(a.ops, b.ops, c.ops);
    hide Evolves, DoneIds;
    forall j | j in c.jobs
      ensures if j in a.jobs then QuietJob(a.jobs[j], c.jobs[j], c.ops) else NewJobQuiet(c.jobs[j], c.ops)
    {
      if j in b.jobs && c.jobs[j].spec.kind.WalkJob? {
        var was, ids := b.jobs[j].opIds, c.jobs[j].opIds;
        forall k | 0 <= k < |ids| && (k < |was| ==> !HasSucceeded(b.ops, was[k])) ensures !HasSucceeded(c.ops, ids[k]) {
          if k < |was| { assert ids[..|was|][k] == was[k]; }
        }
        if j in a.jobs {
          var first := a.jobs[j].opIds;
          assert ids[..|first|] == ids[..|was|][..|first|];
        }
      }
    }
  }

  lemma SameJobsQuiet(db: Db, later: Db)
    requires later.jobs == db.jobs && Evolves(db.ops, later.ops) && NoNewSuccess(db.ops, later.ops)
    ensures QuietStep(db, later)
  {
    hide Evolves, NoNewSuccess;
  }

  lemma SameDbQuiet(db: Db)
    ensures QuietStep(db, db)
  {}

  // ----- Advancing -----

  /** Launching changes no count, keeps failures, limits and the launched operations, and adds at most one. */
  lemma {:induction false} LaunchCounts(p: Policy, target: Target, job: Job, id: Id, now: Time)
    ensures var (next, op) := Launch(p, target, job, id, now);
            && next.spec == job.spec && next.entryCount == job.entryCount && next.cpe == job.cpe
            && next.opIds == (if op.Some? then job.opIds + [id] else job.opIds)
            && (forall l | l in job.limits :: l in next.limits) && (job.failures != [] ==> next.failures != [])
            && next.current == (if op.Some? then Some(id) else job.current) && (op.Some? ==> op.value.state.Pending?)
    decreases |job.frontier|
  {
    if job.frontier != [] && job.rpcCount < job.spec.maxRpcs && job.entryCount < job.spec.maxEntries {
      LaunchCounts(p, target, Popped(job).(failures := Popped(job).failures + [PlanFailure]), id, now);
    }
  }

  lemma {:induction false} AddEntriesLimits(job: Job, entries: seq<Entry>, n: nat)
    requires n <= |entries|
    ensures forall l | l in job.limits :: l in AddEntries(job, entries, n).limits
  {
    hide Concrete;
    if n > 0 { AddEntriesLimits(job, entries, n - 1); }
  }

  lemma SettledLimits(job: Job, id: Id, op: Op, entries: seq<Entry>)
    ensures !op.state.Succeeded? ==> Settled(job, id, op, entries).failures != []
    ensures forall l | l in job.limits :: l in Settled(job, id, op, entries).limits
  {
    hide AddEntries;
    if op.state.Succeeded? && job.spec.kind.WalkJob? { AddEntriesLimits(Counted(job, |entries|), entries, |entries|); }
  }

  /** What advancing a ready job does to its record: the entries of its operation are counted, the launched operations
      grow by at most one that is pending. */
  ghost predicate Advanced(job: Job, next: Job, later: map<Id, Op>, count: int) {
    && next.spec == job.spec && next.cpe == job.cpe && next.entryCount == job.entryCount + count
    && |job.opIds| <= |next.opIds| && next.opIds[..|job.opIds|] == job.opIds
    && (forall k | |job.opIds| <= k < |next.opIds| :: !HasSucceeded(later, next.opIds[k]))
    && (forall l | l in job.limits :: l in next.limits)
  }

  ghost function CountedBy(db: Db, job: Job): nat {
    if job.current.Some? && job.current.value in db.ops && db.ops[job.current.value].state.Succeeded?
    then if job.spec.kind.WalkJob? then |Cited(db.catalog, job.current.value)| else |db.ops[job.current.value].result|
    else 0
  }

  lemma ReadyAdvances(p: Policy, db: Db, j: Id)
    requires Core(p, db) && Ready(db, j)
    ensures var job, ready := db.jobs[j], ReadyJob(db, db.jobs[j]);
            && ready.spec == job.spec && ready.cpe == job.cpe && ready.current.None? && ready.opIds == job.opIds
            && ready.entryCount == job.entryCount + CountedBy(db, job)
            && (forall l | l in job.limits :: l in ready.limits)
            && (job.current.Some? && !HasSucceeded(db.ops, job.current.value) ==> ready.failures != [])
            && job.cpe in db.store.cpes && OpsLinked(db.next, db.ops, db.store.cpes.Keys)
  {
    hide Core, JobOk, TraceOf, AllIn, CatalogSourced, EntriesOf, Settleable, Settled, OpsLinked, CitedBy, DoneIds;
    var job := db.jobs[j];
    JobInCore(p, db, j);
    if job.current.Some? {
      var id := job.current.value;
      var entries := EntriesOf(db.catalog, job.cpe, id);
      CurrentIsLast(job, db.ops);
      ReadyIsSettleable(p, db, j);
      EntriesSound(db.catalog, db.ops, id);
      SettledFrame(job, id, db.ops[id], entries, TraceOf(job.opIds, db.ops));
      SettledLimits(job, id, db.ops[id], entries);
    }
  }

  /** What the launch makes of the job that was readied. */
  lemma LaunchedAdvances(job: Job, ready: Job, next: Job, launched: bool, later: map<Id, Op>, id: Id, count: int)
    requires ready.spec == job.spec && ready.cpe == job.cpe && ready.current.None? && ready.opIds == job.opIds
             && ready.entryCount == job.entryCount + count && (forall l | l in job.limits :: l in ready.limits)
    requires next.spec == ready.spec && next.entryCount == ready.entryCount && next.cpe == ready.cpe
             && next.opIds == (if launched then ready.opIds + [id] else ready.opIds)
             && (forall l | l in ready.limits :: l in next.limits)
             && next.current == (if launched then Some(id) else ready.current)
    requires launched ==> !HasSucceeded(later, id)
    ensures Advanced(job, next, later, count) && (job.opIds == [] ==> DoneIds(next) == {})
  {}

  lemma AdvanceCounts(p: Policy, db: Db, j: Id, now: Time)
    requires Core(p, db) && Ready(db, j)
    ensures var d := Advance(p, db, j, now);
            && Evolves(db.ops, d.ops) && NoNewSuccess(db.ops, d.ops) && d.jobs.Keys == db.jobs.Keys
            && Advanced(db.jobs[j], d.jobs[j], d.ops, CountedBy(db, db.jobs[j]))
            && (forall k | k in db.jobs && k != j :: d.jobs[k] == db.jobs[k])
            && (db.jobs[j].current.Some? && !HasSucceeded(db.ops, db.jobs[j].current.value) ==>
                  d.jobs[j].failures != [])
            && (db.jobs[j].opIds == [] ==> DoneIds(d.jobs[j]) == {})
  {
    hide Core, Launch, ReadyJob, Evolves, CountedBy, OpsLinked, Advanced, DoneIds;
    ReadyAdvances(p, db, j);
    EvolvesSame(db.ops);
    var job, ready, target := db.jobs[j], ReadyJob(db, db.jobs[j]), TargetOf(db.store.cpes[db.jobs[j].cpe]);
    LaunchCounts(p, target, ready, db.next, now);
    var (next, op) := Launch(p, target, ready, db.next, now);
    LaunchedAdvances(job, ready, next, op.Some?, Advance(p, db, j, now).ops, db.next, CountedBy(db, job));
    if op.Some? { NewOpEvolves(db.next, db.ops, db.store.cpes.Keys, op.value); }
  }

  lemma WaitingStays(p: Policy, db: Db, j: Id, now: Time)
    requires j in db.jobs
    ensures Waits(db, db.jobs[j]) ==> Advance(p, db, j, now) == db
  {}

  lemma RunningAdvances(p: Policy, db: Db, j: Id, cpe: Id, now: Time)
    requires OneRunning(db.jobs) && j in db.jobs && db.jobs[j].state.JobRunning? && db.jobs[j].cpe == cpe
    ensures AdvanceActive(p, db, cpe, now) == Advance(p, db, j, now)
  {
    hide Advance;
  }

  /** Nothing to count: a running walk of the CPE waits for an operation that did not succeed, or has launched none. */
  ghost predicate NothingToCount(db: Db, cpe: Id) {
    forall j | j in db.jobs && db.jobs[j].cpe == cpe && db.jobs[j].state.JobRunning? && db.jobs[j].spec.kind.WalkJob? ::
      if db.jobs[j].current.Some? then !HasSucceeded(db.ops, db.jobs[j].current.value) else db.jobs[j].opIds == []
  }

  lemma AdvanceQuietStep(p: Policy, db: Db, j: Id, now: Time)
    requires Core(p, db) && j in db.jobs && NothingToCount(db, db.jobs[j].cpe)
    ensures QuietStep(db, Advance(p, db, j, now)) && Advance(p, db, j, now).jobs.Keys == db.jobs.Keys
  {
    hide Core, Evolves, NoNewSuccess;
    SameDbQuiet(db);
    if db.jobs[j].cpe in db.store.cpes && !Waits(db, db.jobs[j]) { AdvanceCounts(p, db, j, now); }
  }

  lemma AdvanceActiveQuietStep(p: Policy, db: Db, cpe: Id, now: Time)
    requires Core(p, db) && NothingToCount(db, cpe)
    ensures QuietStep(db, AdvanceActive(p, db, cpe, now)) && AdvanceActive(p, db, cpe, now).jobs.Keys == db.jobs.Keys
  {
    hide Core, QuietStep, Advance, NothingToCount;
    SameDbQuiet(db);
    var found := ActiveJob(db.jobs, cpe);
    if found.Some? { AdvanceQuietStep(p, db, found.value, now); }
  }

  lemma SteadyCountsNothing(db: Db, cpe: Id)
    requires Steady(db.jobs, db.ops)
    ensures NothingToCount(db, cpe)
  {}

  // ----- Every action that answers nothing -----

  lemma ExpireQuietStep(p: Policy, db: Db, cpe: Id, now: Time)
    requires Inv(p, db)
    ensures var d := Expire(db, cpe, now);
            QuietStep(db, d) && Inv(p, d) && d.jobs == db.jobs && d.store == db.store && d.catalog == db.catalog
  {
    hide Core, Steady, Evolves, NoNewSuccess, Calmer;
    ExpireKeeps(p, db, cpe, now);
    SameJobsQuiet(db, Expire(db, cpe, now));
  }

  lemma PreparedQuietStep(p: Policy, db: Db, cpe: Id, now: Time)
    requires PlanContract(p) && Inv(p, db)
    ensures var d := Prepared(p, db, cpe, now); QuietStep(db, d) && d.jobs.Keys == db.jobs.Keys
  {
    hide Core, Steady, Expire, QuietStep, AdvanceActive, NothingToCount, PlanContract;
    ExpireQuietStep(p, db, cpe, now);
    var d := Expire(db, cpe, now);
    SteadyCountsNothing(d, cpe);
    AdvanceActiveQuietStep(p, d, cpe, now);
    QuietTwice(db, d, AdvanceActive(p, d, cpe, now));
  }

  lemma PollQuietStep(p: Policy, db: Db, token: string, rpcId: string, now: Time)
    requires PlanContract(p) && Inv(p, db) && token in db.sessions
    ensures var o := Poll(p, db, token, rpcId, now); o.Commit? ==> QuietStep(db, o.db)
  {
    hide Inv, Evolves, PlanContract, Poll;
    PollKeeps(p, db, token, rpcId, now);
    PollDispatches(p, db, token, rpcId, now);
    var o := Poll(p, db, token, rpcId, now);
    if o.Commit? { SameJobsQuiet(db, o.db); }
  }

  lemma CreateJobs(p: Policy, db: Db, r: Request, discovered: seq<string>, now: Time)
    ensures Settle(db, Create(p, db, r, discovered, now)).jobs == db.jobs
  {
    hide BadSelection, CreatePlan, SameRequest, ExpireOps, ExpireSessions, RequestAsk, NewOp;
  }

  lemma CreateQuietStep(p: Policy, db: Db, r: Request, discovered: seq<string>, now: Time)
    requires PlanContract(p) && Inv(p, db)
    ensures QuietStep(db, Settle(db, Create(p, db, r, discovered, now)))
  {
    hide Inv, Evolves, PlanContract, Create, NoNewSuccess;
    EvolvesSame(db.ops);
    NoneNew(db.ops);
    CreateKeeps(p, db, r, discovered, now);
    CreateJobs(p, db, r, discovered, now);
    CreateNoneNew(p, db, r, discovered, now);
    SameJobsQuiet(db, Settle(db, Create(p, db, r, discovered, now)));
  }

  lemma CreateNoneNew(p: Policy, db: Db, r: Request, discovered: seq<string>, now: Time)
    ensures NoNewSuccess(db.ops, Settle(db, Create(p, db, r, discovered, now)).ops)
  {
    hide BadSelection, CreatePlan, SameRequest, RequestAsk, ExpireSessions;
  }

  lemma GetJobQuietStep(p: Policy, db: Db, cpe: Id, j: Id, now: Time)
    requires PlanContract(p) && Inv(p, db)
    ensures QuietStep(db, Settle(db, GetJob(p, db, cpe, j, now)))
  {
    hide Core, Steady, Expire, QuietStep, Advance, NothingToCount, PlanContract;
    SameDbQuiet(db);
    ExpireQuietStep(p, db, cpe, now);
    var d := Expire(db, cpe, now);
    if j in d.jobs {
      SteadyCountsNothing(d, d.jobs[j].cpe);
      AdvanceQuietStep(p, d, j, now);
      QuietTwice(db, d, Advance(p, d, j, now));
    }
  }

  lemma CreateJobQuietStep(p: Policy, db: Db, cpe: Id, spec: Spec, key: nat, now: Time)
    requires PlanContract(p) && Inv(p, db)
    ensures QuietStep(db, Settle(db, CreateJob(p, db, cpe, spec, key, now)))
  {
    hide Core, Steady, SteadyBut, PlanContract, Expire, JobOk, FirstFrontier, ValidSpec, Advance, Ready, QuietStep,
      NothingToCount;
    SameDbQuiet(db);
    if cpe in db.store.cpes && ValidSpec(spec) {
      ExpireQuietStep(p, db, cpe, now);
      var d := Expire(db, cpe, now);
      var data := spec.(names := SortBy(Self, spec.names));
      SortedSpecValid(spec);
      if JobByKey(d.jobs, cpe, ClientKey(key)).None? && ActiveJob(d.jobs, cpe).None? && ActiveOp(d.ops, cpe).None?
         && FirstFrontier(p, d, cpe, data).Ok? {
        NewJobOk(p, d, cpe, data, ClientKey(key), now);
        var job := NewJob(cpe, ClientKey(key), data, FirstFrontier(p, d, cpe, data).value, now);
        WithJobKeeps(p, d, job);
        WithJobQuietStep(p, d, job);
        var w := WithJob(d, job);
        AdvanceQuietStep(p, w, d.next, now);
        QuietTwice(db, d, w);
        QuietTwice(db, w, Advance(p, w, d.next, now));
      }
    }
  }

  lemma WithJobQuietStep(p: Policy, db: Db, job: Job)
    requires Inv(p, db) && job.opIds == [] && job.current.None? && job.entryCount == 0
    requires forall j | j in db.jobs && db.jobs[j].cpe == job.cpe :: !db.jobs[j].state.JobRunning?
    ensures QuietStep(db, WithJob(db, job)) && NothingToCount(WithJob(db, job), job.cpe) && db.next !in db.jobs
  {
    hide JobsOk, Coupled, CatalogSourced, ValuesSourced, StoreOk, OneActive, JobsDrive, OpKeys, JobKeys, OneRunning,
      Accounted, Steady;
    EvolvesSame(db.ops);
  }

  lemma GetQuiet(db: Db, cpe: Id, id: Id, now: Time)
    ensures var d := Settle(db, Get(db, cpe, id, now)); d.jobs == db.jobs && NoNewSuccess(db.ops, d.ops)
  {
    hide ExpireSessions;
  }

  lemma OtherSteps(p: Policy, db: Db, a: Action)
    requires a.DoGet? || a.DoAccept? || a.DoComplete? || a.DoBind? || a.DoApprove?
    ensures Act(p, db, a).jobs == db.jobs && NoNewSuccess(db.ops, Act(p, db, a).ops)
  {
    hide Get, Accept, Complete, Bind, Approve;
    NoneNew(db.ops);
    if a.DoGet? { GetQuiet(db, a.cpe, a.id, a.now); } else { SessionStepsSame(p, db, a); }
  }

  lemma OthersQuietStep(p: Policy, db: Db, a: Action)
    requires Contract(p) && Inv(p, db) && Possible(a) && !a.DoExchange?
    ensures QuietStep(db, Act(p, db, a))
  {
    hide Inv, Evolves, Create, Get, CreateJob, GetJob, Accept, Complete, Bind, Approve, PermittedContract,
      DiscoveryContract, ObservationContract, PlanContract, QuietStep;
    match a
    case DoCreate(r, discovered, now) => CreateQuietStep(p, db, r, discovered, now);
    case DoCreateJob(cpe, spec, key, now) => CreateJobQuietStep(p, db, cpe, spec, key, now);
    case DoGetJob(cpe, id, now) => GetJobQuietStep(p, db, cpe, id, now);
    case _ =>
      StepKeeps(p, db, a);
      OtherSteps(p, db, a);
      SameJobsQuiet(db, Act(p, db, a));
  }

  lemma FailedQuiet(db: Db, token: string, id: Id, now: Time)
    requires token in db.sessions && id in db.ops
    ensures var d := FailedProfile(db, token, id, now); d.jobs == db.jobs && NoNewSuccess(db.ops, d.ops)
  {
    hide Finish;
  }

  lemma NoneNew(ops: map<Id, Op>)
    ensures NoNewSuccess(ops, ops)
  {}
}
