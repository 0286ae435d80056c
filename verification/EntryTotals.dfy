/** What the entry count of a discovery job adds up to: the names that the replies to its operations brought into the
    catalog. */
module EntryTotals {
  import opened Text
  import opened Domain
  import opened Policies
  import opened Jobs
  import opened Queue
  import opened Invariants
  import opened QueueProofs
  import opened AdvanceProofs
  import opened AnswerProofs
  import opened Effects
  import opened QuietSteps
  import opened ReplyLog

  function Worth(log: Log, ops: map<Id, Op>, i: Id): nat {
    if HasSucceeded(ops, i) && i in log then |Written(log[i])| else 0
  }

  /** The names that these operations brought into the catalog. */
  function Total(log: Log, ops: map<Id, Op>, ids: seq<Id>): nat {
    if ids == [] then 0 else Total(log, ops, ids[..|ids| - 1]) + Worth(log, ops, ids[|ids| - 1])
  }

  /** The entry count of a walk that never met its entry limit is the number of names it brought into the catalog. */
  ghost predicate CountOk(job: Job, ops: map<Id, Op>, log: Log) {
    MaxEntries !in job.limits ==> job.entryCount == Total(log, ops, job.opIds)
  }

  lemma {:induction false} TotalPrefix(log: Log, ops: map<Id, Op>, ids: seq<Id>, later: Log, laterOps: map<Id, Op>,
                                       more: seq<Id>)
    requires |ids| <= |more| && more[..|ids|] == ids
    requires forall k | 0 <= k < |ids| :: Worth(log, ops, ids[k]) == Worth(later, laterOps, ids[k])
    requires forall k | |ids| <= k < |more| :: Worth(later, laterOps, more[k]) == 0
    ensures Total(later, laterOps, more) == Total(log, ops, ids)
    decreases |more|
  {
    hide Worth;
    if |more| > |ids| {
      var n := |more| - 1;
      assert more[..n][..|ids|] == ids;
      TotalPrefix(log, ops, ids, later, laterOps, more[..n]);
    } else if ids != [] {
      var n := |ids| - 1;
      assert more == ids && more[..n] == ids[..n];
      TotalPrefix(log, ops, ids[..n], later, laterOps, ids[..n]);
    }
  }

  /** One more operation, the last of the earlier list, is worth `c`. */
  lemma {:induction false} TotalOneMore(log: Log, ops: map<Id, Op>, ids: seq<Id>, later: Log, laterOps: map<Id, Op>,
                                        more: seq<Id>, c: nat)
    requires 0 < |ids| <= |more| && more[..|ids|] == ids
    requires forall k | 0 <= k < |ids| - 1 :: Worth(log, ops, ids[k]) == Worth(later, laterOps, ids[k])
    requires Worth(log, ops, ids[|ids| - 1]) == 0 && Worth(later, laterOps, ids[|ids| - 1]) == c
    requires forall k | |ids| <= k < |more| :: Worth(later, laterOps, more[k]) == 0
    ensures Total(later, laterOps, more) == Total(log, ops, ids) + c
  {
    hide Worth;
    var n := |ids| - 1;
    TotalPrefix(log, ops, ids[..n], later, laterOps, ids[..n]);
    assert Total(later, laterOps, ids) == Total(log, ops, ids) + c;
    TotalPrefix(later, laterOps, ids, later, laterOps, more);
  }

  lemma QuietCount(job: Job, next: Job, ops: map<Id, Op>, later: map<Id, Op>, log: Log)
    requires QuietJob(job, next, later) && job.spec.kind.WalkJob? && CountOk(job, ops, log)
    requires Evolves(ops, later) && NoNewSuccess(ops, later)
    ensures CountOk(next, later, log)
  {
    if MaxEntries !in next.limits {
      TotalPrefix(log, ops, job.opIds, log, later, next.opIds);
    }
  }

  lemma NewCount(next: Job, later: map<Id, Op>, log: Log)
    requires NewJobQuiet(next, later) && next.spec.kind.WalkJob?
    ensures CountOk(next, later, log)
  {
    TotalPrefix(log, later, [], log, later, next.opIds);
  }

  lemma AdvancedFrom(was: Job, job: Job, next: Job, later: map<Id, Op>, count: nat)
    requires job == was.(limits := job.limits) && (forall l | l in was.limits :: l in job.limits)
             && Advanced(job, next, later, count)
    ensures Advanced(was, next, later, count) && next.entryCount == was.entryCount + count
            && forall l | l in job.limits :: l in next.limits
  {}

  /** The running walk that waited for the operation counts the entries of the reply. */
  lemma OwnerCounts(p: Policy, db: Db, token: string, id: Id, plan: Plan, reply: Reply, v: Verdict,
                    evidence: Option<string>, now: Time, j: Id)
    requires Inv(p, db) && Answering(p, db, token, id, plan, reply, v, now) && id in db.attempts
    requires j in db.jobs && db.jobs[j].state.JobRunning? && db.jobs[j].cpe == db.ops[id].ask.cpe
             && db.jobs[j].spec.kind.WalkJob?
    ensures var r := Recorded(p, db, token, id, plan, reply, v, evidence, now);
            var d := AdvanceActive(p, r, db.sessions[token].cpe, now);
            && j in d.jobs && Advanced(db.jobs[j], d.jobs[j], d.ops, d.jobs[j].entryCount - db.jobs[j].entryCount)
            && (MaxEntries !in d.jobs[j].limits ==>
                  d.jobs[j].entryCount == db.jobs[j].entryCount + if v.reason.None?
                      then |Written(ReceiptFor(db.catalog, db.jobs[j].cpe, reply, now))| else 0)
  {
    hide Inv, Core, Recorded, Advance, AdvanceActive, Ready, JobsOk, JobsDrive, OneRunning, Judge, DigestOf,
      SteadyBut, Evolves, NoNewSuccess, PlanFits, DistinctReply, PlanContract, PermittedContract, DiscoveryContract,
      ObservationContract, Cited, Concerns, Advanced, Written, ReceiptFor, Keyed;
    AnsweringFacts(p, db, token, id, plan, reply, v, now);
    CoreOfInv(p, db);
    WalkIsCurrent(p, db, id, j);
    RecordedKeeps(p, db, token, id, plan, reply, v, evidence, now);
    KeyedSize(db.jobs[j].cpe, Written(ReceiptFor(db.catalog, db.jobs[j].cpe, reply, now)));
    RecordedWalk(p, db, token, id, plan, reply, v, evidence, now, j);
    var r := Recorded(p, db, token, id, plan, reply, v, evidence, now);
    JobsOfCore(p, r);
    RunningAdvances(p, r, j, db.sessions[token].cpe, now);
    AdvanceCounts(p, r, j, now);
    AdvancedFrom(db.jobs[j], r.jobs[j], Advance(p, r, j, now).jobs[j], Advance(p, r, j, now).ops,
                 CountedBy(r, r.jobs[j]));
  }

  /** The walk that waited for the answered operation counts the names its reply brought. */
  lemma OwnerTotal(p: Policy, db: Db, token: string, id: Id, plan: Plan, reply: Reply, v: Verdict,
                   evidence: Option<string>, now: Time, log: Log, next: Log, j: Id)
    requires Inv(p, db) && Answering(p, db, token, id, plan, reply, v, now) && id in db.attempts && LogOk(db.ops, log)
    requires j in db.jobs && db.jobs[j].state.JobRunning? && db.jobs[j].cpe == db.ops[id].ask.cpe
             && db.jobs[j].spec.kind.WalkJob?
    requires CountOk(db.jobs[j], db.ops, log)
    requires var d := AdvanceActive(p, Recorded(p, db, token, id, plan, reply, v, evidence, now),
                                    db.sessions[token].cpe, now);
             next == Logged(log, db.ops, d.ops, db.catalog, Some(reply), now)
    ensures var d := AdvanceActive(p, Recorded(p, db, token, id, plan, reply, v, evidence, now), db.sessions[token].cpe,
                                   now);
            j in d.jobs && CountOk(d.jobs[j], d.ops, next)
  {
    hide Inv, Core, Recorded, AdvanceActive, Answering, LogOk, Logged, Written, ReceiptFor;
    AnsweringFacts(p, db, token, id, plan, reply, v, now);
    CoreOfInv(p, db);
    AnsweredLog(p, db, token, id, plan, reply, v, evidence, now, log);
    WalkIsCurrent(p, db, id, j);
    CurrentListed(p, db, j);
    OwnerWaits(p, db, id, j);
    OwnerCounts(p, db, token, id, plan, reply, v, evidence, now, j);
    var d := AdvanceActive(p, Recorded(p, db, token, id, plan, reply, v, evidence, now), db.sessions[token].cpe, now);
    var ids := db.jobs[j].opIds;
    if MaxEntries !in d.jobs[j].limits {
      forall k | 0 <= k < |ids| - 1 ensures ids[k] != id { assert ids[k] in ids[..|ids| - 1]; }
      TotalOneMore(log, db.ops, ids, next, d.ops, d.jobs[j].opIds, Worth(next, d.ops, id));
    }
  }

  /** A job that the answer does not touch keeps its total. */
  lemma OtherTotal(job: Job, ops: map<Id, Op>, later: map<Id, Op>, log: Log, next: Log, id: Id)
    requires CountOk(job, ops, log) && id !in job.opIds
    requires forall i | i != id :: (i in next <==> i in log) && (i in log ==> next[i] == log[i])
    requires forall i | i != id :: HasSucceeded(later, i) <==> HasSucceeded(ops, i)
    ensures CountOk(job, later, next)
  {
    hide Written;
    TotalPrefix(log, ops, job.opIds, next, later, job.opIds);
  }

  // ----- What was reported and what was written -----

  /** The names in the replies to these operations. */
  function AllReported(log: Log, ids: seq<Id>): nat {
    if ids == [] then 0
    else
      var i := ids[|ids| - 1];
      AllReported(log, ids[..|ids| - 1]) + if i in log then |Reported(log[i].reply)| else 0
  }

  ghost predicate NoneOvertaken(log: Log, ids: seq<Id>) { forall i | i in ids && i in log :: log[i].overtaken == {} }

  lemma NoneOvertakenSplit(log: Log, ids: seq<Id>)
    ensures ids == [] ==> NoneOvertaken(log, ids)
    ensures ids != [] ==>
              var n := |ids| - 1;
              NoneOvertaken(log, ids) <==>
                NoneOvertaken(log, ids[..n]) && (ids[n] in log ==> |log[ids[n]].overtaken| == 0)
  {
    if ids != [] { assert ids == ids[..|ids| - 1] + [ids[|ids| - 1]]; }
  }

  /** As many names were written as reported if and only if none was overtaken. */
  lemma {:induction false} TotalIsReported(log: Log, ops: map<Id, Op>, ids: seq<Id>)
    requires LogOk(ops, log) && forall i | i in ids :: HasSucceeded(ops, i)
    ensures Total(log, ops, ids) <= AllReported(log, ids)
    ensures Total(log, ops, ids) == AllReported(log, ids) <==> NoneOvertaken(log, ids)
  {
    hide Written, Reported, NoneOvertaken, DistinctReply;
    NoneOvertakenSplit(log, ids);
    if ids != [] {
      var n := |ids| - 1;
      TotalIsReported(log, ops, ids[..n]);
      assert ids[n] in ids && forall i | i in ids[..n] :: i in ids;
      WrittenCount(log[ids[n]]);
    }
  }
}
