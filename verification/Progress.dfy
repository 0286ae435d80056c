/** A job ends even when its device never answers: every poll past the current deadline accounts for one operation. */
module Progress {
  import opened Domain
  import opened Policies
  import opened Jobs
  import opened Queue
  import opened Invariants
  import opened QueueProofs
  import opened AdvanceProofs
  import opened OperationProofs

  /** A job is over, or its current operation is past its deadline. */
  ghost predicate Overdue(db: Db, j: Id, now: Time)
    requires j in db.jobs
  {
    db.jobs[j].state.JobRunning? ==>
      db.jobs[j].current.Some? && db.jobs[j].current.value in db.ops
          && db.ops[db.jobs[j].current.value].expiresAt <= now
  }

  lemma OverdueIsReady(db: Db, cpe: Id, j: Id, now: Time)
    requires j in db.jobs && db.jobs[j].state.JobRunning? && Overdue(db, j, now)
    requires db.ops[db.jobs[j].current.value].ask.cpe == cpe
    ensures Ready(Expire(db, cpe, now), j) && Expire(db, cpe, now).jobs == db.jobs
  {}

  lemma RunningCounts(p: Policy, db: Db, j: Id)
    requires Inv(p, db) && j in db.jobs && db.jobs[j].state.JobRunning?
    ensures |db.jobs[j].opIds| == db.jobs[j].completed + 1 <= db.jobs[j].spec.maxRpcs
    ensures db.jobs[j].current.Some? && db.jobs[j].current.value in db.ops
    ensures db.ops[db.jobs[j].current.value].ask.cpe == db.jobs[j].cpe
  {
    hide Walking, Reading, Coupled, CatalogSourced, ValuesSourced, StoreOk, OneActive, JobsDrive, OpKeys, JobKeys,
      OneRunning, Accounted, OpsLinked, SessionsLinked, CpesLinked, JobsLinked, Owned, Over, AllSucceeded;
    JobInCore(p, db, j);
    CurrentIsLast(db.jobs[j], db.ops);
  }

  /** One poll of a running job past its deadline accounts for exactly one more operation; a job that is over stays as
      it is. */
  lemma PollCounts(p: Policy, db: Db, cpe: Id, j: Id, now: Time)
    requires PlanContract(p) && Inv(p, db) && cpe in db.store.cpes && j in db.jobs && db.jobs[j].cpe == cpe
             && Overdue(db, j, now)
    ensures var o := GetJob(p, db, cpe, j, now);
            && o.Commit? && Inv(p, o.db) && j in o.db.jobs && cpe in o.db.store.cpes
            && (if db.jobs[j].state.JobRunning?
                then && o.db.jobs[j].completed == db.jobs[j].completed + 1
                     && o.db.jobs[j].spec == db.jobs[j].spec && o.db.jobs[j].cpe == cpe
                else o.db.jobs[j] == db.jobs[j])
  {
    hide Core, Steady, SteadyBut, Evolves, PlanContract, NoneDue, Calmer, NoNewSuccess, Ready, Expire;
    GetJobKeeps(p, db, cpe, j, now);
    ExpireKeeps(p, db, cpe, now);
    var d := Expire(db, cpe, now);
    if db.jobs[j].state.JobRunning? {
      RunningCounts(p, db, j);
      OverdueIsReady(db, cpe, j, now);
      SteadyIsSteadyBut(d.jobs, d.ops, cpe);
      AdvanceReady(p, d, j, now);
    }
  }

  ghost function Polls(p: Policy, db: Db, cpe: Id, j: Id, times: seq<Time>): Db
    decreases |times|
  {
    if times == [] then db
    else
      var o := GetJob(p, db, cpe, j, times[0]);
      Polls(p, if o.Commit? then o.db else db, cpe, j, times[1..])
  }

  /** Each poll comes at or after the deadline of the operation that is then current. */
  ghost predicate AllOverdue(p: Policy, db: Db, cpe: Id, j: Id, times: seq<Time>)
    decreases |times|
  {
    times != [] ==>
      && j in db.jobs && Overdue(db, j, times[0])
      && var o := GetJob(p, db, cpe, j, times[0]);
         AllOverdue(p, if o.Commit? then o.db else db, cpe, j, times[1..])
  }

  /** From any good state, as many overdue polls as the job has operations left to account for end the job; `maxRpcs`
      always suffice. */
  lemma {:induction false} PollsEndJob(p: Policy, db: Db, cpe: Id, j: Id, times: seq<Time>)
    requires PlanContract(p) && Inv(p, db) && cpe in db.store.cpes && j in db.jobs && db.jobs[j].cpe == cpe
    requires AllOverdue(p, db, cpe, j, times)
    requires db.jobs[j].state.JobRunning? ==> db.jobs[j].spec.maxRpcs - db.jobs[j].completed <= |times|
    ensures j in Polls(p, db, cpe, j, times).jobs && !Polls(p, db, cpe, j, times).jobs[j].state.JobRunning?
    decreases |times|
  {
    hide Inv, PlanContract, Overdue;
    if db.jobs[j].state.JobRunning? { RunningCounts(p, db, j); }
    if times != [] {
      PollCounts(p, db, cpe, j, times[0]);
      PollsEndJob(p, GetJob(p, db, cpe, j, times[0]).db, cpe, j, times[1..]);
    }
  }
}
