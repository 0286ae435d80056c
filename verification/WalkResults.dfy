/** What runs make of discovery jobs: which objects a job that succeeded has dispatched and what its entry count adds up
    to, over every run, and what follows when step times never decrease. */
module WalkResults {
  import opened Text
  import opened Domain
  import opened Policies
  import opened Jobs
  import opened Queue
  import opened Invariants
  import opened QueueProofs
  import opened AdvanceProofs
  import opened AnswerProofs
  import opened OperationProofs
  import opened Validation
  import opened Runs
  import opened Effects
  import opened QuietSteps
  import opened ReplyLog
  import opened EntryTotals
  import opened WalkCompleteness

  // ----- Every job after every run -----

  /** What the log says of a discovery job. */
  ghost predicate Tallies(job: Job, ops: map<Id, Op>, log: Log) {
    job.spec.kind.WalkJob? ==> CountOk(job, ops, log) && Found(job, ops, log)
  }

  ghost predicate Logs(db: Db, log: Log) {
    LogOk(db.ops, log) && forall j | j in db.jobs :: Tallies(db.jobs[j], db.ops, log)
  }

  lemma QuietLogs(p: Policy, db: Db, later: Db, log: Log)
    requires QuietStep(db, later) && Logs(db, log) && Core(p, db)
    ensures Logs(later, log)
  {
    hide Core, CountOk, Found, Evolves, JobOk, TraceOf, NoNewSuccess;
    JobsOfCore(p, db);
    StillSucceeded(db.ops, later.ops);
    forall j | j in later.jobs ensures Tallies(later.jobs[j], later.ops, log) {
      if later.jobs[j].spec.kind.WalkJob? {
        if j in db.jobs {
          QuietCount(db.jobs[j], later.jobs[j], db.ops, later.ops, log);
          QuietFound(db.jobs[j], later.jobs[j], db.ops, later.ops, log);
        } else {
          NewCount(later.jobs[j], later.ops, log);
          NewFound(later.jobs[j], later.ops, log);
        }
      }
    }
  }

  lemma StillSucceeded(ops: map<Id, Op>, later: map<Id, Op>)
    requires Evolves(ops, later) && NoNewSuccess(ops, later)
    ensures forall i :: HasSucceeded(later, i) <==> HasSucceeded(ops, i)
  {}

  lemma NewFound(next: Job, later: map<Id, Op>, log: Log)
    requires NewJobQuiet(next, later) && next.spec.kind.WalkJob?
    ensures Found(next, later, log)
  {}

  lemma AnswerLogs(p: Policy, db: Db, token: string, id: Id, plan: Plan, reply: Reply, v: Verdict,
                   evidence: Option<string>, now: Time, log: Log)
    requires Inv(p, db) && Answering(p, db, token, id, plan, reply, v, now) && Logs(db, log)
    ensures id in db.attempts
    ensures var d := AdvanceActive(p, Recorded(p, db, token, id, plan, reply, v, evidence, now), db.sessions[token].cpe,
                                   now);
            Logs(d, Logged(log, db.ops, d.ops, db.catalog, Some(reply), now))
  {
    hide Inv, Core, Recorded, AdvanceActive, Answering, CountOk, Found, Evolves, NoNewSuccess, Logged, LogOk;
    AnsweringFacts(p, db, token, id, plan, reply, v, now);
    CoreOfInv(p, db);
    AnsweredOps(p, db, token, id, plan, reply, v, evidence, now);
    AnsweredLog(p, db, token, id, plan, reply, v, evidence, now, log);
    var d := AdvanceActive(p, Recorded(p, db, token, id, plan, reply, v, evidence, now), db.sessions[token].cpe, now);
    var next := Logged(log, db.ops, d.ops, db.catalog, Some(reply), now);
    forall j | j in d.jobs ensures Tallies(d.jobs[j], d.ops, next) {
      SpecStays(p, db, token, id, plan, reply, v, evidence, now, j);
      if d.jobs[j].spec.kind.WalkJob? {
        if db.jobs[j].state.JobRunning? && db.jobs[j].cpe == db.ops[id].ask.cpe {
          OwnerTotal(p, db, token, id, plan, reply, v, evidence, now, log, next, j);
          OwnerFound(p, db, token, id, plan, reply, v, evidence, now, log, next, j);
        } else {
          OthersUntouched(p, db, token, id, plan, reply, v, evidence, now, j);
          UntouchedTallies(p, db, id, d.ops, log, next, j);
        }
      }
    }
  }

  lemma UntouchedTallies(p: Policy, db: Db, id: Id, later: map<Id, Op>, log: Log, next: Log, j: Id)
    requires Core(p, db) && id in db.ops && Active(db.ops[id]) && j in db.jobs && db.jobs[j].spec.kind.WalkJob?
    requires !(db.jobs[j].state.JobRunning? && db.jobs[j].cpe == db.ops[id].ask.cpe)
    requires CountOk(db.jobs[j], db.ops, log) && Found(db.jobs[j], db.ops, log) && Evolves(db.ops, later)
    requires forall i | i != id :: (i in next <==> i in log) && (i in log ==> next[i] == log[i])
    requires forall i | i != id :: HasSucceeded(later, i) <==> HasSucceeded(db.ops, i)
    ensures CountOk(db.jobs[j], later, next) && Found(db.jobs[j], later, next)
  {
    hide Core, CountOk, Found, Evolves, JobOk, TraceOf, AllIn, CatalogSourced;
    JobInCore(p, db, j);
    if id in db.jobs[j].opIds { OwnerWaits(p, db, id, j); }
    OtherTotal(db.jobs[j], db.ops, later, log, next, id);
    SameFound(db.jobs[j], db.ops, later, log, next);
  }

  lemma ReplyLogs(p: Policy, db: Db, token: string, reply: Reply, now: Time, log: Log)
    requires Contract(p) && DistinctReply(reply) && Inv(p, db) && token in db.sessions && Logs(db, log)
    ensures var d := Settle(db, Answer(p, db, token, reply, now));
            Logs(d, Logged(log, db.ops, d.ops, db.catalog, Some(reply), now))
  {
    hide Core, Steady, Evolves, RowPlan, Judge, Contract, Recorded, AdvanceActive, DigestOf, DistinctReply, Answering,
      Finish, Logged, Logs, NoNewSuccess, QuietStep, FailedProfile;
    AnswerKeeps(p, db, token, reply, now);
    EvolvesSame(db.ops);
    NoneNew(db.ops);
    var o := Answer(p, db, token, reply, now);
    if o.Raised? || (o.db.ops == db.ops && o.db.jobs == db.jobs) {
      SameOpsLogs(p, db, Settle(db, o), reply, now, log);
    }
    var found := AttemptFor(db.attempts, token, reply.rpcId);
    if o.Commit? && found.Some? {
      var id := found.value;
      AttemptConcerns(p, db, token, id);
      FailedQuiet(db, token, id, now);
      var op := db.ops[id];
      var plan := RowPlan(p, TargetOf(CpeOf(db, token)), op.ask);
      if op.state.Dispatched? && plan.None? {
        SameOpsLogs(p, db, o.db, reply, now, log);
      } else if op.state.Dispatched? && Judge(p, op.ask, plan.value, reply, now, id).Some? {
        var v := Judge(p, op.ask, plan.value, reply, now, id).value;
        var evidence := if Captures(op, v) then p.evidence(reply, plan.value, op.ask.kind, now) else None;
        IsAnswering(p, db, token, id, plan.value, reply, v, now);
        AnswerLogs(p, db, token, id, plan.value, reply, v, evidence, now, log);
      }
    }
  }

  /** A reply in whose step no job changes and nothing succeeds leaves the log as it was. */
  lemma SameOpsLogs(p: Policy, db: Db, later: Db, reply: Reply, now: Time, log: Log)
    requires Core(p, db) && later.jobs == db.jobs && Evolves(db.ops, later.ops) && NoNewSuccess(db.ops, later.ops)
             && Logs(db, log)
    ensures Logs(later, Logged(log, db.ops, later.ops, db.catalog, Some(reply), now))
  {
    hide Core, Evolves, NoNewSuccess, Logs, QuietStep, Logged;
    SameJobsQuiet(db, later);
    QuietLogs(p, db, later, log);
    NothingLogged(log, db.ops, later.ops, db.catalog, Some(reply), now);
  }

  lemma ExchangeLogs(p: Policy, db: Db, token: string, reply: Option<Reply>, rpcId: string, now: Time, log: Log)
    requires Contract(p) && Inv(p, db) && (reply.Some? ==> DistinctReply(reply.value)) && Logs(db, log)
    ensures var d := Settle(db, Exchange(p, db, token, reply, rpcId, now));
            Logs(d, Logged(log, db.ops, d.ops, db.catalog, reply, now))
  {
    hide Core, Steady, Evolves, Poll, Answer, AdvanceActive, Expire, DistinctReply, PlanContract, PermittedContract,
      DiscoveryContract, ObservationContract, Logged, Logs, NoNewSuccess, QuietJob, NewJobQuiet;
    NoneNew(db.ops);
    NothingLogged(log, db.ops, db.ops, db.catalog, reply, now);
    if token in db.sessions && db.sessions[token].cpe in db.store.cpes {
      var cpe := db.sessions[token].cpe;
      PreparedKeeps(p, db, cpe, now);
      PreparedQuietStep(p, db, cpe, now);
      PreparedQuiet(p, db, cpe, now);
      var d := Prepared(p, db, cpe, now);
      QuietLogs(p, db, d, log);
      if reply.None? {
        PollQuietStep(p, d, token, rpcId, now);
        var o := Poll(p, d, token, rpcId, now);
        if o.Commit? {
          QuietLogs(p, d, o.db, log);
          NothingLogged(log, d.ops, o.db.ops, d.catalog, None, now);
          LoggedLater(log, db.ops, d.ops, o.db.ops, db.catalog, None, now);
        }
      } else {
        ReplyLogs(p, d, token, reply.value, now, log);
        var o := Answer(p, d, token, reply.value, now);
        if o.Commit? { LoggedLater(log, db.ops, d.ops, o.db.ops, db.catalog, reply, now); }
      }
    }
  }

  lemma StepLogs(p: Policy, db: Db, a: Action, log: Log)
    requires Contract(p) && Inv(p, db) && Possible(a) && Logs(db, log)
    ensures var d := Act(p, db, a); Logs(d, Logged(log, db.ops, d.ops, db.catalog, ReplyIn(a), a.now))
  {
    hide Contract, Inv, Logs, Logged, Create, Get, CreateJob, GetJob, Exchange, Accept, Complete, Bind, Approve,
      DistinctReply, FromInform, QuietJob, NewJobQuiet, NoNewSuccess;
    if a.DoExchange? {
      ExchangeLogs(p, db, a.token, a.reply, a.rpcId, a.now, log);
    } else {
      var d := Act(p, db, a);
      OthersQuietStep(p, db, a);
      CoreOfInv(p, db);
      QuietLogs(p, db, d, log);
      NothingLogged(log, db.ops, d.ops, db.catalog, None, a.now);
    }
  }

  lemma {:induction false} RunLogs(p: Policy, actions: seq<Action>)
    requires Contract(p) && AllPossible(actions)
    ensures Logs(Run(p, EMPTY, actions), LogOf(p, actions))
  {
    hide Contract, Possible, Act, Inv, Logged;
    if actions != [] {
      var before := actions[..|actions| - 1];
      RunLogs(p, before);
      EmptyInv(p);
      RunKeeps(p, EMPTY, before);
      hide Logs;
      StepLogs(p, Run(p, EMPTY, before), actions[|actions| - 1], LogOf(p, before));
    }
  }

  // ----- What a discovery job that succeeded has done -----

  lemma SucceededWalk(p: Policy, actions: seq<Action>, j: Id)
    requires Contract(p) && AllPossible(actions)
    requires var db := Run(p, EMPTY, actions);
             j in db.jobs && db.jobs[j].spec.kind.WalkJob? && db.jobs[j].state.JobSucceeded?
    ensures var db, log := Run(p, EMPTY, actions), LogOf(p, actions);
            var job := db.jobs[j];
            && job.frontier == [] && DoneIds(job) == IdSet(job.opIds) && CountOk(job, db.ops, log)
            && Found(job, db.ops, log)
            && Clean(job) && LogOk(db.ops, log) && forall i | i in job.opIds :: HasSucceeded(db.ops, i)
  {
    hide Run, Contract, AllPossible, LogOf, Walking, Reading, CountOk, FoundAmong, LogOk;
    RunLogs(p, actions);
    var db := Run(p, EMPTY, actions);
    assert Reachable(p, db);
    JobOfReachable(p, db, j);
    var job, trace := db.jobs[j], TraceOf(db.jobs[j].opIds, db.ops);
    assert Shaped(job, trace) && Tallies(job, db.ops, LogOf(p, actions));
    AllDone(job);
    forall i | i in job.opIds ensures HasSucceeded(db.ops, i) {
      var n :| 0 <= n < |job.opIds| && job.opIds[n] == i;
      assert trace[n] == db.ops[i];
    }
  }

  /** Every operation of a discovery job that succeeded got a reply, and an object named in one of these replies was
      dispatched in turn if and only if the catalog held no newer row for it when the reply was recorded. */
  lemma WalkFindsExactly(p: Policy, actions: seq<Action>, j: Id)
    requires Contract(p) && AllPossible(actions)
    requires var db := Run(p, EMPTY, actions);
             j in db.jobs && db.jobs[j].spec.kind.WalkJob? && db.jobs[j].state.JobSucceeded?
    ensures var db, log := Run(p, EMPTY, actions), LogOf(p, actions);
            var ids := db.jobs[j].opIds;
            && (forall i | i in ids :: HasSucceeded(db.ops, i) && i in log)
            && (forall i, name | i in ids && i in log && name in NamesOf(log[i].reply) && IsObjectName(name) ::
                  IsDispatched(ids, db.ops, name) <==> name !in log[i].overtaken)
  {
    hide Run, Contract, AllPossible, LogOf, CountOk, IsDispatched, NamesOf, IsObjectName, DirectChild;
    SucceededWalk(p, actions, j);
    var db, log := Run(p, EMPTY, actions), LogOf(p, actions);
    var job := db.jobs[j];
    forall i, name | i in job.opIds && name in NamesOf(log[i].reply) && IsObjectName(name)
      ensures IsDispatched(job.opIds, db.ops, name) <==> name !in log[i].overtaken
    {
      assert i in DoneIds(job) && FoundName(i, name, job.opIds, db.ops, job.frontier, log);
    }
  }

  /** The entry count of a discovery job that succeeded is the number of names that the replies to its operations
      brought into the catalog, which is the number of names they reported if and only if the catalog held no newer row
      for any of them. */
  lemma EntryCountExactly(p: Policy, actions: seq<Action>, j: Id)
    requires Contract(p) && AllPossible(actions)
    requires var db := Run(p, EMPTY, actions);
             j in db.jobs && db.jobs[j].spec.kind.WalkJob? && db.jobs[j].state.JobSucceeded?
    ensures var db, log := Run(p, EMPTY, actions), LogOf(p, actions);
            var ids := db.jobs[j].opIds;
            && db.jobs[j].entryCount == Total(log, db.ops, ids)
            && (db.jobs[j].entryCount == AllReported(log, ids) <==> NoneOvertaken(log, ids))
  {
    hide Run, Contract, AllPossible, LogOf, Total, AllReported, NoneOvertaken, Found, LogOk;
    SucceededWalk(p, actions, j);
    TotalIsReported(LogOf(p, actions), Run(p, EMPTY, actions).ops, Run(p, EMPTY, actions).jobs[j].opIds);
  }

  // ----- Where the log comes from -----

  /** The receipt `r` was written in step `k`, against the catalog before that step. */
  ghost predicate LoggedAt(p: Policy, actions: seq<Action>, k: nat, i: Id, r: Receipt)
    requires k < |actions|
  {
    var before, after := Run(p, EMPTY, actions[..k]), Run(p, EMPTY, actions[..k + 1]);
    && ReplyIn(actions[k]).Some? && HasSucceeded(after.ops, i) && !HasSucceeded(before.ops, i)
    && r == ReceiptFor(before.catalog, after.ops[i].ask.cpe, ReplyIn(actions[k]).value, actions[k].now)
  }

  /** Every receipt stems from the one step in which its operation succeeded. */
  lemma {:induction false} LogOrigin(p: Policy, actions: seq<Action>, i: Id)
    requires i in LogOf(p, actions)
    ensures exists k :: 0 <= k < |actions| && LoggedAt(p, actions, k, i, LogOf(p, actions)[i])
  {
    hide Run, ReceiptFor;
    var n := |actions| - 1;
    var before := actions[..n];
    assert actions[..n + 1] == actions;
    if !LoggedAt(p, actions, n, i, LogOf(p, actions)[i]) {
      assert i in LogOf(p, before) && LogOf(p, actions)[i] == LogOf(p, before)[i];
      LogOrigin(p, before, i);
      var k :| 0 <= k < n && LoggedAt(p, before, k, i, LogOf(p, before)[i]);
      assert before[..k] == actions[..k] && before[..k + 1] == actions[..k + 1] && before[k] == actions[k];
      assert LoggedAt(p, actions, k, i, LogOf(p, actions)[i]);
    }
  }

  // ----- Step times that never decrease -----

  ghost predicate Timely(catalog: map<PathKey, CatalogRow>, now: Time) {
    forall k | k in catalog :: catalog[k].observedAt <= now
  }

  lemma CatalogTimely(catalog: map<PathKey, CatalogRow>, cpe: Id, names: seq<Info>, id: Id, now: Time)
    requires Timely(catalog, now)
    ensures Timely(CatalogAll(catalog, cpe, names, |names|, id, now), now)
  {
    hide CatalogAll;
    CatalogAllCatalogues(catalog, cpe, names, |names|, id, now);
  }

  lemma RecordedTimely(p: Policy, db: Db, token: string, id: Id, plan: Plan, reply: Reply, v: Verdict,
                       evidence: Option<string>, now: Time)
    requires token in db.sessions && id in db.ops && id in db.attempts && db.sessions[token].cpe in db.store.cpes
             && Timely(db.catalog, now)
    ensures Timely(Recorded(p, db, token, id, plan, reply, v, evidence, now).catalog, now)
  {
    hide CatalogAll, Timely, Truncate, Stored, ValuesAll, Finish, AnsweredOp, DigestOf;
    var (names, jobs) := if reply.NamesReply? && v.reason.None?
        then Truncate(db.jobs, db.sessions[token].cpe, id, reply.names) else ([], db.jobs);
    CatalogTimely(db.catalog, db.sessions[token].cpe, names, id, now);
  }

  lemma AnswerTimely(p: Policy, db: Db, token: string, reply: Reply, now: Time)
    requires token in db.sessions && Timely(db.catalog, now)
    ensures var o := Answer(p, db, token, reply, now); o.Commit? ==> Timely(o.db.catalog, now)
  {
    hide RowPlan, Judge, Recorded, DigestOf, AdvanceActive, Lasts, Finish, Timely;
    var found := AttemptFor(db.attempts, token, reply.rpcId);
    if found.Some? && found.value in db.ops && db.sessions[token].cpe in db.store.cpes {
      var id, cpe := found.value, db.sessions[token].cpe;
      var op := db.ops[id];
      var current := RowPlan(p, TargetOf(db.store.cpes[cpe]), op.ask);
      var plan := if current.Some? then current
                  else p.restore(op.ask.profileId, op.ask.profileVersion, op.ask.scope, op.ask.path, op.ask.requested);
      if plan.Some? && Judge(p, op.ask, plan.value, reply, now, id).Some? {
        var v := Judge(p, op.ask, plan.value, reply, now, id).value;
        var evidence := if Captures(op, v) then p.evidence(reply, plan.value, op.ask.kind, now) else None;
        RecordedTimely(p, db, token, id, plan.value, reply, v, evidence, now);
        AdvanceActiveQuiet(p, Recorded(p, db, token, id, plan.value, reply, v, evidence, now), cpe, now);
      }
    }
  }

  lemma StepTimely(p: Policy, db: Db, a: Action)
    requires Contract(p) && Inv(p, db) && Possible(a) && Timely(db.catalog, a.now)
    ensures Timely(Act(p, db, a).catalog, a.now)
  {
    hide Inv, Contract, Create, Get, CreateJob, GetJob, Answer, Poll, Expire, AdvanceActive, Accept, Complete, Bind,
      Approve, Lasts, AnsweredBetween, DistinctReply, FromInform, Timely;
    ExactlyOnceEffects(p, db, a);
    if a.DoExchange? && a.reply.Some? && a.token in db.sessions && db.sessions[a.token].cpe in db.store.cpes {
      var cpe := db.sessions[a.token].cpe;
      PreparedQuiet(p, db, cpe, a.now);
      SameSessions(p, db, cpe, a.now, a.token);
      AnswerTimely(p, Prepared(p, db, cpe, a.now), a.token, a.reply.value, a.now);
    }
  }

  ghost predicate InOrder(actions: seq<Action>) {
    forall i, k | 0 <= i < k < |actions| :: actions[i].now <= actions[k].now
  }

  lemma {:induction false} RunTimely(p: Policy, actions: seq<Action>)
    requires Contract(p) && AllPossible(actions) && InOrder(actions) && actions != []
    ensures Timely(Run(p, EMPTY, actions).catalog, actions[|actions| - 1].now)
  {
    hide Contract, Possible, Act, Inv;
    var n := |actions| - 1;
    if n > 0 {
      RunTimely(p, actions[..n]);
      assert actions[..n][n - 1].now <= actions[n].now;
    }
    EmptyInv(p);
    RunKeeps(p, EMPTY, actions[..n]);
    StepTimely(p, Run(p, EMPTY, actions[..n]), actions[n]);
  }

  /** When step times never decrease, no name is ever overtaken. */
  lemma InOrderNothingOvertaken(p: Policy, actions: seq<Action>, i: Id)
    requires Contract(p) && AllPossible(actions) && InOrder(actions) && i in LogOf(p, actions)
    ensures LogOf(p, actions)[i].overtaken == {}
  {
    hide Contract, Possible, Act, LogOf, AllPossible;
    LogOrigin(p, actions, i);
    var k :| 0 <= k < |actions| && LoggedAt(p, actions, k, i, LogOf(p, actions)[i]);
    PrefixPossible(actions, k);
    if k > 0 {
      RunTimely(p, actions[..k]);
      assert actions[k - 1].now <= actions[k].now;
    }
  }

  lemma PrefixPossible(actions: seq<Action>, k: nat)
    requires AllPossible(actions) && k <= |actions|
    ensures AllPossible(actions[..k])
  {
    hide Possible;
  }

  /** When step times never decrease, a discovery job that succeeded dispatched every object that any reply to its
      operations named. */
  lemma WalkFindsEverything(p: Policy, actions: seq<Action>, j: Id)
    requires Contract(p) && AllPossible(actions) && InOrder(actions)
    requires var db := Run(p, EMPTY, actions);
             j in db.jobs && db.jobs[j].spec.kind.WalkJob? && db.jobs[j].state.JobSucceeded?
    ensures var db, log := Run(p, EMPTY, actions), LogOf(p, actions);
            var ids := db.jobs[j].opIds;
            && (forall i | i in ids :: HasSucceeded(db.ops, i) && i in log)
            && (forall i, name | i in ids && i in log && name in NamesOf(log[i].reply) && IsObjectName(name) ::
                IsDispatched(ids, db.ops, name))
  {
    hide Run, Contract, AllPossible, LogOf, IsDispatched, NamesOf, IsObjectName;
    WalkFindsExactly(p, actions, j);
    forall i | i in LogOf(p, actions) ensures LogOf(p, actions)[i].overtaken == {} {
      InOrderNothingOvertaken(p, actions, i);
    }
  }

  /** When step times never decrease, the entry count of a discovery job that succeeded is the total number of names in
      the replies to its operations. */
  lemma EntryCountIsTotal(p: Policy, actions: seq<Action>, j: Id)
    requires Contract(p) && AllPossible(actions) && InOrder(actions)
    requires var db := Run(p, EMPTY, actions);
             j in db.jobs && db.jobs[j].spec.kind.WalkJob? && db.jobs[j].state.JobSucceeded?
    ensures var db := Run(p, EMPTY, actions); db.jobs[j].entryCount == AllReported(LogOf(p, actions), db.jobs[j].opIds)
  {
    hide Run, Contract, AllPossible, LogOf, Total, AllReported;
    EntryCountExactly(p, actions, j);
    forall i | i in LogOf(p, actions) ensures LogOf(p, actions)[i].overtaken == {} {
      InOrderNothingOvertaken(p, actions, i);
    }
  }

  // ----- Results -----

  /** The result of a names read keeps every concrete object that was reported. */
  lemma ReportedObjectsKept(p: Policy, plan: Plan, names: seq<Info>, i: Info)
    requires DiscoveryContract(p) && plan.scope.Discovery? && i in names && Concrete(i.name)
    requires JudgeNames(p, plan, names).reason.None?
    ensures NameItem(i) in JudgeNames(p, plan, names).items
  {
    hide ReportedUnder, Concrete;
    var kept := p.discoveryNames(names, plan);
    SortMembers(ItemName, MapItems(NameItem, kept));
    MapItemsKeep(kept, i);
  }

  lemma {:induction false} MapItemsKeep(xs: seq<Info>, i: Info)
    requires i in xs
    ensures NameItem(i) in MapItems(NameItem, xs)
  {
    if i in xs[1..] { MapItemsKeep(xs[1..], i); } else { assert xs == [xs[0]] + xs[1..]; }
  }
}
