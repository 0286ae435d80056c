/** Runs of the whole system from the empty database, and what holds after every one of them. */
module Runs {
  import opened Text
  import opened Domain
  import opened Policies
  import opened Jobs
  import opened Registers
  import opened Queue
  import opened Invariants
  import opened QueueProofs
  import opened AdvanceProofs
  import opened OperationProofs
  import opened Validation

  /** One repository transaction, with everything that its caller and the environment supply. */
  datatype Action =
    | DoCreate(request: Request, discovered: seq<string>, now: Time)
    | DoGet(cpe: Id, id: Id, now: Time)
    | DoCreateJob(cpe: Id, spec: Spec, key: nat, now: Time)
    | DoGetJob(cpe: Id, id: Id, now: Time)
    | DoExchange(token: string, reply: Option<Reply>, rpcId: string, now: Time)
    | DoAccept(token: string, device: Device, inventory: Inventory, now: Time, expiresAt: Time)
    | DoComplete(token: string, now: Time)
    | DoBind(cpe: Id, operation: Id, bindKey: Id, now: Time)
    | DoApprove(cpe: Id, actor: Id, seen: Id, now: Time)

  /** Replies come from the reply parser, inventories of accepted sessions from an Inform. */
  ghost predicate Possible(a: Action) {
    && (a.DoExchange? && a.reply.Some? ==> DistinctReply(a.reply.value))
    && (a.DoAccept? ==> FromInform(a.inventory))
  }

  function Settle<R>(db: Db, o: Outcome<R>): Db { if o.Commit? then o.db else db }

  ghost function Act(p: Policy, db: Db, a: Action): Db {
    match a
    case DoCreate(r, discovered, now) => Settle(db, Create(p, db, r, discovered, now))
    case DoGet(cpe, id, now) => Settle(db, Get(db, cpe, id, now))
    case DoCreateJob(cpe, spec, key, now) => Settle(db, CreateJob(p, db, cpe, spec, key, now))
    case DoGetJob(cpe, id, now) => Settle(db, GetJob(p, db, cpe, id, now))
    case DoExchange(token, reply, rpcId, now) => Settle(db, Exchange(p, db, token, reply, rpcId, now))
    case DoAccept(token, d, inv, now, expiresAt) => Settle(db, Accept(db, token, d, inv, now, expiresAt))
    case DoComplete(token, now) => Settle(db, Complete(db, token, now))
    case DoBind(cpe, operation, key, _) => Settle(db, Bind(db, cpe, operation, key))
    case DoApprove(cpe, actor, seen, now) => Settle(db, Approve(db, cpe, actor, seen, now))
  }

  const EMPTY := Db(0, map[], map[], map[], map[], map[], map[], Store(map[], map[], map[], map[]))

  ghost function Run(p: Policy, db: Db, actions: seq<Action>): Db {
    if actions == [] then db else Act(p, Run(p, db, actions[..|actions| - 1]), actions[|actions| - 1])
  }

  ghost predicate AllPossible(actions: seq<Action>) { forall a | a in actions :: Possible(a) }

  // ----- Steps that concern neither operations nor jobs -----

  ghost predicate SameWork(db: Db, later: Db) {
    later.ops == db.ops && later.jobs == db.jobs && later.attempts == db.attempts && later.catalog == db.catalog
    && later.values == db.values
  }

  lemma AcceptSame(db: Db, token: string, d: Device, inv: Inventory, now: Time, expiresAt: Time)
    ensures SameWork(db, Settle(db, Accept(db, token, d, inv, now, expiresAt)))
  {
    hide UpdateInventory;
  }

  lemma CompleteSame(db: Db, token: string, now: Time)
    ensures SameWork(db, Settle(db, Complete(db, token, now)))
  {}

  lemma ApprovalsSame(db: Db, cpe: Id, operation: Id, key: Id, actor: Id, now: Time)
    ensures SameWork(db, Settle(db, Bind(db, cpe, operation, key)))
    ensures SameWork(db, Settle(db, Approve(db, cpe, actor, operation, now)))
  {
    hide Matches;
  }

  lemma SessionStepsSame(p: Policy, db: Db, a: Action)
    requires a.DoAccept? || a.DoComplete? || a.DoBind? || a.DoApprove?
    ensures SameWork(db, Act(p, db, a))
  {
    hide SameWork, Accept, Complete, Bind, Approve;
    match a
    case DoAccept(token, d, inv, now, expiresAt) => AcceptSame(db, token, d, inv, now, expiresAt);
    case DoComplete(token, now) => CompleteSame(db, token, now);
    case DoBind(cpe, operation, key, _) => ApprovalsSame(db, cpe, operation, key, 0, 0);
    case DoApprove(cpe, actor, seen, now) => ApprovalsSame(db, cpe, seen, 0, actor, now);
    case _ =>
  }

  // ----- Every step keeps the invariants -----

  lemma SafeApprovals(p: Policy, db: Db)
    requires Inv(p, db)
    ensures ApprovalSafe(db.store)
  {
    hide JobsOk, OneActive, OneRunning, JobsDrive, OpKeys, JobKeys, Accounted, CatalogSourced, ValuesSourced, Coupled,
      Steady, Evolves, OpsLinked, JobsLinked, CpesLinked, SessionsLinked, FieldsSourced, TelemetrySourced,
      FieldsChecked, TelemetryChecked, ApprovalSafe;
  }

  /** A step that changes nothing but approvals, and keeps those safe. */
  lemma ApprovalsKeep(p: Policy, db: Db, later: Db)
    requires Inv(p, db) && later == db.(store := db.store.(approvals := later.store.approvals))
             && ApprovalSafe(later.store)
    ensures Inv(p, later)
  {
    hide JobsOk, OneActive, OneRunning, JobsDrive, OpKeys, JobKeys, Accounted, CatalogSourced, ValuesSourced, Coupled,
      Steady, Evolves, OpsLinked, JobsLinked, CpesLinked, SessionsLinked, FieldsSourced, TelemetrySourced,
      FieldsChecked, TelemetryChecked, ApprovalSafe;
  }

  lemma ApprovalStepKeeps(p: Policy, db: Db, a: Action)
    requires Inv(p, db) && (a.DoBind? || a.DoApprove?)
    ensures Follows(p, db, Act(p, db, a))
  {
    hide Inv, Evolves, ApprovalSafe, Matches, Bound;
    EvolvesSame(db.ops);
    SafeApprovals(p, db);
    match a
    case DoBind(cpe, operation, key, _) =>
      BindKeepsSafe(db, cpe, operation, key);
      ApprovalsKeep(p, db, Settle(db, Bind(db, cpe, operation, key)));
    case DoApprove(cpe, actor, seen, now) =>
      ApproveKeepsSafe(db, cpe, actor, seen, now);
      ApprovalsKeep(p, db, Settle(db, Approve(db, cpe, actor, seen, now)));
    case _ =>
  }

  lemma StepKeeps(p: Policy, db: Db, a: Action)
    requires Contract(p) && Inv(p, db) && Possible(a)
    ensures Follows(p, db, Act(p, db, a))
  {
    hide Core, Steady, Evolves, Create, Get, CreateJob, GetJob, Exchange, Accept, Complete, Bind, Approve, FromInform,
      DistinctReply, PlanContract, PermittedContract, DiscoveryContract, ObservationContract;
    EvolvesSame(db.ops);
    match a
    case DoCreate(r, discovered, now) => CreateKeeps(p, db, r, discovered, now);
    case DoGet(cpe, id, now) => GetKeeps(p, db, cpe, id, now);
    case DoCreateJob(cpe, spec, key, now) => CreateJobKeeps(p, db, cpe, spec, key, now);
    case DoGetJob(cpe, id, now) => GetJobKeeps(p, db, cpe, id, now);
    case DoExchange(token, reply, rpcId, now) => ExchangeKeeps(p, db, token, reply, rpcId, now);
    case DoAccept(token, d, inv, now, expiresAt) => AcceptKeeps(p, db, token, d, inv, now, expiresAt);
    case DoComplete(token, now) => CompleteKeeps(p, db, token, now);
    case DoBind(_, _, _, _) => ApprovalStepKeeps(p, db, a);
    case DoApprove(_, _, _, _) => ApprovalStepKeeps(p, db, a);
  }

  lemma EmptyInv(p: Policy)
    ensures Inv(p, EMPTY)
  {}

  /** Every run from a good state ends in a good state, and no operation that was terminal at its start has
      changed in any way: state, result, reason, fault, finishing time and evidence are final. */
  lemma {:induction false} RunKeeps(p: Policy, db: Db, actions: seq<Action>)
    requires Contract(p) && Inv(p, db) && AllPossible(actions)
    ensures Inv(p, Run(p, db, actions)) && Evolves(db.ops, Run(p, db, actions).ops)
  {
    hide Core, Steady, Evolves, Possible, Act, Contract;
    if actions == [] {
      EvolvesSame(db.ops);
    } else {
      var n := |actions| - 1;
      RunKeeps(p, db, actions[..n]);
      StepKeeps(p, Run(p, db, actions[..n]), actions[n]);
      EvolvesTransitive(db.ops, Run(p, db, actions[..n]).ops, Run(p, db, actions).ops);
    }
  }

  /** The states that runs from the empty database reach. */
  ghost predicate Reachable(p: Policy, db: Db) {
    exists actions :: AllPossible(actions) && db == Run(p, EMPTY, actions)
  }

  lemma ReachableInv(p: Policy, db: Db)
    requires Contract(p) && Reachable(p, db)
    ensures Inv(p, db)
  {
    hide Core, Steady, AllPossible, Contract, Run;
    var actions :| AllPossible(actions) && db == Run(p, EMPTY, actions);
    EmptyInv(p);
    RunKeeps(p, EMPTY, actions);
  }

  // ----- What reachable states look like -----

  /** At most one active operation and one running job per CPE; a running job has a current operation and no other
      operation of its CPE is active. */
  lemma MutualExclusion(p: Policy, db: Db)
    requires Contract(p) && Reachable(p, db)
    ensures forall i, k | i in db.ops && k in db.ops && Active(db.ops[i]) && Active(db.ops[k])
            && db.ops[i].ask.cpe == db.ops[k].ask.cpe :: i == k
    ensures forall i, k | i in db.jobs && k in db.jobs && db.jobs[i].state.JobRunning? && db.jobs[k].state.JobRunning?
            && db.jobs[i].cpe == db.jobs[k].cpe :: i == k
    ensures forall j | j in db.jobs && db.jobs[j].state.JobRunning? :: db.jobs[j].current.Some?
    ensures forall j, i | j in db.jobs && db.jobs[j].state.JobRunning? && i in db.ops && Active(db.ops[i])
            && db.ops[i].ask.cpe == db.jobs[j].cpe ::
              db.jobs[j].current == Some(i)
  {
    hide Reachable, Contract, Coupled, JobsOk, Accounted, CatalogSourced, ValuesSourced, StoreOk, OpKeys, JobKeys;
    ReachableInv(p, db);
  }

  /** An operation is dispatched exactly when it has an attempt whose session awaits the response; attempts pair
      operations and sessions one to one; the three share one deadline, the earlier of ten minutes after creation and
      one minute after dispatch. */
  lemma DispatchCoupling(p: Policy, db: Db)
    requires Contract(p) && Reachable(p, db)
    ensures forall i | i in db.ops :: db.ops[i].state.Dispatched? <==>
              i in db.attempts && db.attempts[i].session in db.sessions
                  && db.sessions[db.attempts[i].session].state.AwaitingResponse?
    ensures forall i, k | i in db.attempts && k in db.attempts && db.attempts[i].session == db.attempts[k].session ::
            i == k
    ensures forall i | i in db.attempts :: i in db.ops && db.attempts[i].session in db.sessions
              && var op, a, s := db.ops[i], db.attempts[i], db.sessions[db.attempts[i].session];
                 s.cpe == op.ask.cpe && op.expiresAt == a.expiresAt == s.expiresAt
                 && a.expiresAt == (if op.ask.createdAt + 600 <= a.dispatchedAt + 60 then op.ask.createdAt + 600
                                    else a.dispatchedAt + 60)
  {
    hide Reachable, Contract, JobsOk, Accounted, CatalogSourced, ValuesSourced, StoreOk, OpKeys, JobKeys, OneActive,
      OneRunning, JobsDrive, Steady;
    ReachableInv(p, db);
    forall i | i in db.ops
      ensures db.ops[i].state.Dispatched? ==> i in db.attempts
      ensures i in db.attempts ==> AttemptOk(db.ops[i], db.attempts[i], db.sessions[db.attempts[i].session])
    {
      assert OpOk(db.ops[i], i in db.attempts);
    }
  }

  /** The CPE whose overdue work a committed step has expired. */
  ghost function Swept(p: Policy, db: Db, a: Action): Option<Id> {
    match a
    case DoCreate(r, discovered, now) => if Create(p, db, r, discovered, now).Commit? then Some(r.cpe) else None
    case DoGet(cpe, id, now) => if Get(db, cpe, id, now).Commit? then Some(cpe) else None
    case DoCreateJob(cpe, spec, key, now) => if CreateJob(p, db, cpe, spec, key, now).Commit? then Some(cpe) else None
    case DoGetJob(cpe, id, now) => if GetJob(p, db, cpe, id, now).Commit? then Some(cpe) else None
    case DoExchange(token, reply, rpcId, now) =>
      if token in db.sessions && Exchange(p, db, token, reply, rpcId, now).Commit? then Some(db.sessions[token].cpe)
          else None
    case _ => None
  }

  /** After any committed step that expires overdue work of a CPE, every active operation of that CPE has its deadline
      ahead. */
  lemma NothingOverdue(p: Policy, db: Db, a: Action)
    ensures Swept(p, db, a).Some? ==>
              forall i | i in Act(p, db, a).ops && Active(Act(p, db, a).ops[i])
                  && Act(p, db, a).ops[i].ask.cpe == Swept(p, db, a).value ::
                a.now < Act(p, db, a).ops[i].expiresAt
  {
    hide Create, CreateJob, Exchange, Expire, Advance, Due;
    match a
    case DoCreate(r, discovered, now) => CreateNotDue(p, db, r, discovered, now);
    case DoGet(cpe, id, now) => ExpiredNotDue(db, cpe, now);
    case DoCreateJob(cpe, spec, key, now) => CreateJobNotDue(p, db, cpe, spec, key, now);
    case DoGetJob(cpe, id, now) =>
      ExpiredNotDue(db, cpe, now);
      if id in db.jobs { AdvanceNotDue(p, Expire(db, cpe, now), id, cpe, now); }
    case DoExchange(token, reply, rpcId, now) =>
      if token in db.sessions { ExchangeNotDue(p, db, token, reply, rpcId, now); }
    case _ =>
  }

  lemma ExpiredNotDue(db: Db, cpe: Id, now: Time)
    ensures var d := Expire(db, cpe, now); NoneDue(d.ops, cpe, now) && d.jobs == db.jobs && d.store == db.store
  {}

  lemma AdvanceNotDue(p: Policy, db: Db, j: Id, cpe: Id, now: Time)
    requires j in db.jobs && NoneDue(db.ops, cpe, now)
    ensures NoneDue(Advance(p, db, j, now).ops, cpe, now)
  {
    hide Launch, ReadyJob, Waits;
    if db.jobs[j].cpe in db.store.cpes {
      LaunchFresh(p, TargetOf(db.store.cpes[db.jobs[j].cpe]), ReadyJob(db, db.jobs[j]), db.next, now);
    }
  }

  lemma ActiveNotDue(p: Policy, db: Db, cpe: Id, now: Time)
    requires NoneDue(db.ops, cpe, now)
    ensures NoneDue(AdvanceActive(p, db, cpe, now).ops, cpe, now)
  {
    hide Advance;
    var found := ActiveJob(db.jobs, cpe);
    if found.Some? { AdvanceNotDue(p, db, found.value, cpe, now); }
  }

  lemma CreateNotDue(p: Policy, db: Db, r: Request, discovered: seq<string>, now: Time)
    ensures var o := Create(p, db, r, discovered, now); o.Commit? ==> NoneDue(o.db.ops, r.cpe, now)
  {
    hide Expire, CreatePlan, BadSelection, SameRequest;
    ExpiredNotDue(db, r.cpe, now);
  }

  lemma CreateJobNotDue(p: Policy, db: Db, cpe: Id, spec: Spec, key: nat, now: Time)
    ensures var o := CreateJob(p, db, cpe, spec, key, now); o.Commit? ==> NoneDue(o.db.ops, cpe, now)
  {
    hide Expire, Advance, FirstFrontier, NoneDue, ValidSpec, NewJob;
    ExpiredNotDue(db, cpe, now);
    var o, d := CreateJob(p, db, cpe, spec, key, now), Expire(db, cpe, now);
    if o.Commit? && o.db != d {
      SortedSpecValid(spec);
      var data := spec.(names := SortBy(Self, spec.names));
      var w := WithJob(d, NewJob(cpe, ClientKey(key), data, FirstFrontier(p, d, cpe, data).value, now));
      AdvanceNotDue(p, w, d.next, cpe, now);
    }
  }

  lemma PollNotDue(p: Policy, db: Db, token: string, rpcId: string, now: Time)
    requires token in db.sessions && NoneDue(db.ops, db.sessions[token].cpe, now)
    ensures var o := Poll(p, db, token, rpcId, now); o.Commit? ==> NoneDue(o.db.ops, db.sessions[token].cpe, now)
  {
    hide RowPlan, Finish, FailedProfile, Dispatch, NoneDue;
    var s := db.sessions[token];
    var found := if s.state.AwaitingResponse? then AttemptOf(db.attempts, token) else PendingOp(db.ops, s.cpe);
    if found.Some? && found.value in db.ops {
      FailedNotDue(db, token, found.value, now);
      if !s.state.AwaitingResponse? { DispatchedNotDue(db, token, found.value, rpcId, now); }
    }
  }

  lemma DispatchedNotDue(db: Db, token: string, id: Id, rpcId: string, now: Time)
    requires token in db.sessions && id in db.ops && NoneDue(db.ops, db.sessions[token].cpe, now)
    requires Active(db.ops[id]) && db.ops[id].ask.cpe == db.sessions[token].cpe
    ensures NoneDue(Dispatch(db, token, id, rpcId, now).ops, db.sessions[token].cpe, now)
  {}

  lemma RecordedNotDue(p: Policy, db: Db, token: string, id: Id, plan: Plan, reply: Reply, v: Verdict,
                       evidence: Option<string>, now: Time)
    requires token in db.sessions && id in db.ops && id in db.attempts && db.sessions[token].cpe in db.store.cpes
    requires NoneDue(db.ops, db.sessions[token].cpe, now)
    ensures NoneDue(Recorded(p, db, token, id, plan, reply, v, evidence, now).ops, db.sessions[token].cpe, now)
  {}

  lemma AnswerNotDue(p: Policy, db: Db, token: string, reply: Reply, now: Time)
    requires token in db.sessions && NoneDue(db.ops, db.sessions[token].cpe, now)
    ensures var o := Answer(p, db, token, reply, now); o.Commit? ==> NoneDue(o.db.ops, db.sessions[token].cpe, now)
  {
    hide RowPlan, Judge, Finish, Recorded, AdvanceActive, NoneDue, FailedProfile, DigestOf;
    var found := AttemptFor(db.attempts, token, reply.rpcId);
    var s := db.sessions[token];
    if found.Some? && found.value in db.ops && s.cpe in db.store.cpes {
      var id := found.value;
      FailedNotDue(db, token, id, now);
      var ask := db.ops[id].ask;
      var current := RowPlan(p, TargetOf(db.store.cpes[s.cpe]), ask);
      var plan := if current.Some? then current
        else p.restore(ask.profileId, ask.profileVersion, ask.scope, ask.path, ask.requested);
      if plan.Some? && Judge(p, ask, plan.value, reply, now, id).Some? {
        var v := Judge(p, ask, plan.value, reply, now, id).value;
        var evidence := if Captures(db.ops[id], v) then p.evidence(reply, plan.value, ask.kind, now) else None;
        RecordedNotDue(p, db, token, id, plan.value, reply, v, evidence, now);
        ActiveNotDue(p, Recorded(p, db, token, id, plan.value, reply, v, evidence, now), s.cpe, now);
      }
    }
  }

  lemma FailedNotDue(db: Db, token: string, id: Id, now: Time)
    requires token in db.sessions && id in db.ops && NoneDue(db.ops, db.sessions[token].cpe, now)
    ensures NoneDue(FailedProfile(db, token, id, now).ops, db.sessions[token].cpe, now)
  {}

  lemma ExchangeNotDue(p: Policy, db: Db, token: string, reply: Option<Reply>, rpcId: string, now: Time)
    requires token in db.sessions
    ensures var o := Exchange(p, db, token, reply, rpcId, now);
            o.Commit? ==> NoneDue(o.db.ops, db.sessions[token].cpe, now)
  {
    hide Expire, AdvanceActive, Poll, Answer, NoneDue;
    var cpe := db.sessions[token].cpe;
    if cpe in db.store.cpes {
      ExpiredNotDue(db, cpe, now);
      ActiveNotDue(p, Expire(db, cpe, now), cpe, now);
      var d := AdvanceActive(p, Expire(db, cpe, now), cpe, now);
      SameSessions(p, db, cpe, now, token);
      match reply
      case None => PollNotDue(p, d, token, rpcId, now);
      case Some(r) => AnswerNotDue(p, d, token, r, now);
    }
  }

  lemma SameSessions(p: Policy, db: Db, cpe: Id, now: Time, token: string)
    requires token in db.sessions
    ensures var d := AdvanceActive(p, Expire(db, cpe, now), cpe, now);
            token in d.sessions && d.sessions[token].cpe == db.sessions[token].cpe
  {
    hide Launch, ReadyJob, Waits;
  }

  lemma {:induction false} LaunchFresh(p: Policy, target: Target, job: Job, id: Id, now: Time)
    ensures var op := Launch(p, target, job, id, now).1; op.Some? ==> op.value.expiresAt == now + QUEUE_SECONDS
    decreases |job.frontier|
  {
    if job.frontier != [] && job.rpcCount < job.spec.maxRpcs && job.entryCount < job.spec.maxEntries {
      LaunchFresh(p, target, Popped(job).(failures := Popped(job).failures + [PlanFailure]), id, now);
    }
  }

  lemma JobOfReachable(p: Policy, db: Db, j: Id)
    requires Contract(p) && Reachable(p, db) && j in db.jobs
    ensures AllIn(db.jobs[j].opIds, db.ops) && JobOk(db.jobs[j], TraceOf(db.jobs[j].opIds, db.ops))
  {
    hide Reachable, Contract, JobOk;
    ReachableInv(p, db);
  }

  /** The dispatched paths of a walk, then the waiting ones. */
  ghost function AllPaths(trace: seq<Op>, frontier: seq<Step>): (r: seq<string>)
    ensures |r| == |trace| + |frontier|
    ensures forall i | 0 <= i < |trace| :: r[i] == Path(trace[i])
    ensures forall k | 0 <= k < |frontier| :: r[|trace| + k] == StepPath(frontier[k])
  {
    seq(|trace| + |frontier|, i requires 0 <= i < |trace| + |frontier| => if i < |trace| then Path(trace[i])
        else StepPath(frontier[i - |trace|]))
  }

  lemma PathsApart(trace: seq<Op>, frontier: seq<Step>)
    requires Apart(trace, frontier)
    ensures forall a, b | 0 <= a < b < |trace| + |frontier| ::
            AllPaths(trace, frontier)[a] != AllPaths(trace, frontier)[b]
  {
    hide AllPaths, Path, StepPath;
    var r, n := AllPaths(trace, frontier), |trace|;
    forall a, b | 0 <= a < b < |r| ensures r[a] != r[b] {
      if a >= n { assert r[n + (a - n)] == StepPath(frontier[a - n]); }
      if b >= n { assert r[n + (b - n)] == StepPath(frontier[b - n]); }
    }
  }

  lemma PathsLevelled(job: Job, trace: seq<Op>)
    requires Walking(job, trace)
    ensures var paths, root := AllPaths(trace, job.frontier), job.spec.root.value;
            && (forall a | 0 <= a < |paths| ::
                  StartsWith(paths[a], root) && 0 <= Dots(paths[a]) - Dots(root) <= job.spec.maxDepth)
            && (forall k | 0 <= k < |job.frontier| :: Dots(paths[|trace| + k]) - Dots(root) == job.frontier[k].depth)
  {
    hide AllPaths, Path, StepPath, Apart, Rooted, Concrete, StartsWith, Dots;
    var r, n := AllPaths(trace, job.frontier), |trace|;
    var root := job.spec.root.value;
    forall a | 0 <= a < |r| ensures StartsWith(r[a], root) && 0 <= Dots(r[a]) - Dots(root) <= job.spec.maxDepth {
      if a >= n { assert r[n + (a - n)] == StepPath(job.frontier[a - n]); } else { assert r[a] == Path(trace[a]); }
    }
  }

  /** A discovery job never asks for a path twice: dispatched and waiting paths are all different, each extends the root
      by exactly its depth, within the depth limit, and the waiting ones span at most two consecutive levels in
      order. */
  lemma WalkNeverRepeats(p: Policy, db: Db, j: Id)
    requires Contract(p) && Reachable(p, db) && j in db.jobs && db.jobs[j].spec.kind.WalkJob?
    ensures AllIn(db.jobs[j].opIds, db.ops) && db.jobs[j].spec.root.Some?
    ensures var job, root := db.jobs[j], db.jobs[j].spec.root.value;
            var paths, n := AllPaths(TraceOf(job.opIds, db.ops), job.frontier), |job.opIds|;
            && (forall a, b | 0 <= a < b < |paths| :: paths[a] != paths[b])
            && (forall a | 0 <= a < |paths| ::
                  StartsWith(paths[a], root) && 0 <= Dots(paths[a]) - Dots(root) <= job.spec.maxDepth)
            && (forall k | 0 <= k < |job.frontier| :: Dots(paths[n + k]) - Dots(root) == job.frontier[k].depth)
            && (forall k, l | 0 <= k < l < |job.frontier| ::
                job.frontier[k].depth <= job.frontier[l].depth <= job.frontier[k].depth + 1)
  {
    hide Reachable, Contract, Concrete, Rooted, Shaped, AllPaths, TraceOf, TraceLevelled, Apart, StartsWith, Dots,
      AllIn;
    JobOfReachable(p, db, j);
    var trace := TraceOf(db.jobs[j].opIds, db.ops);
    PathsApart(trace, db.jobs[j].frontier);
    PathsLevelled(db.jobs[j], trace);
  }

  lemma SelectionParts(job: Job, trace: seq<Op>)
    requires Reading(job, trace)
    ensures var asked, waiting := Asked(trace), Waiting(job.frontier);
            && Ascending(Self, asked) && |waiting| <= |job.spec.names|
            && (forall n | n in asked :: n in job.spec.names[..|job.spec.names| - |waiting|])
            && waiting == job.spec.names[|job.spec.names| - |waiting|..]
            && (forall i | 0 <= i < |trace| ::
                  && 1 <= |trace[i].ask.requested| <= job.spec.batch
                  && Returned(trace[..i]) + |trace[i].ask.requested| <= job.spec.maxEntries)
            && (job.failures == [] && job.limits == [] ==> asked + waiting == job.spec.names)
  {
    hide Ascending, Asked, Waiting, Returned, FrontierBatched;
  }

  /** A names-selection job asks in ascending order, nothing twice and nothing outside the selection; each request is
      within the batch size and within what the entry budget had left after the requests before it. */
  lemma SelectionInOrder(p: Policy, db: Db, j: Id)
    requires Contract(p) && Reachable(p, db) && j in db.jobs && db.jobs[j].spec.kind.ValuesJob?
    ensures AllIn(db.jobs[j].opIds, db.ops)
    ensures var job := db.jobs[j];
            var trace := TraceOf(job.opIds, db.ops);
            var asked, waiting := Asked(trace), Waiting(job.frontier);
            && Ascending(Self, asked) && |waiting| <= |job.spec.names|
            && (forall n | n in asked :: n in job.spec.names[..|job.spec.names| - |waiting|])
            && waiting == job.spec.names[|job.spec.names| - |waiting|..]
            && (forall i | 0 <= i < |job.opIds| ::
                  && trace[i] == db.ops[job.opIds[i]] && 1 <= |trace[i].ask.requested| <= job.spec.batch
                  && Returned(trace[..i]) + |trace[i].ask.requested| <= job.spec.maxEntries)
            && (job.failures == [] && job.limits == [] ==> asked + waiting == job.spec.names)
  {
    hide Reachable, Contract, Shaped, Reading, Walking, Ascending, Asked, Waiting, TraceOf, AllIn, Returned;
    JobOfReachable(p, db, j);
    SelectionParts(db.jobs[j], TraceOf(db.jobs[j].opIds, db.ops));
  }

  lemma {:induction false} ReturnedAll(trace: seq<Op>)
    requires forall i | 0 <= i < |trace| ::
      trace[i].state.Succeeded? && ItemNames(trace[i].result) == trace[i].ask.requested
    ensures Returned(trace) == |Asked(trace)|
  {
    if trace != [] { ReturnedAll(trace[..|trace| - 1]); }
  }

  lemma SucceededReads(job: Job, trace: seq<Op>)
    requires JobOk(job, trace) && job.spec.kind.ValuesJob? && job.state.JobSucceeded?
    ensures Asked(trace) == job.spec.names && job.entryCount == |job.spec.names| && |trace| == |job.opIds|
    ensures forall i | 0 <= i < |trace| ::
      trace[i].state.Succeeded? && ItemNames(trace[i].result) == trace[i].ask.requested
  {
    hide Owned, Over, DistinctIds, ValidSpec, FrontierBatched, TraceWithin, Ascending, Asked, Returned;
    assert trace[..|trace|] == trace;
    ReturnedAll(trace);
  }

  /** A selection job that succeeded asked for every selected name exactly once, every request was answered with exactly
      the names it asked for, in their order, and the entry count is the size of the selection. */
  lemma SelectionSucceeds(p: Policy, db: Db, j: Id)
    requires Contract(p) && Reachable(p, db) && j in db.jobs && db.jobs[j].spec.kind.ValuesJob?
             && db.jobs[j].state.JobSucceeded?
    ensures AllIn(db.jobs[j].opIds, db.ops)
    ensures var job := db.jobs[j];
            && Asked(TraceOf(job.opIds, db.ops)) == job.spec.names
            && (forall i | i in job.opIds ::
                  db.ops[i].state.Succeeded? && ItemNames(db.ops[i].result) == db.ops[i].ask.requested)
            && job.entryCount == |job.spec.names|
  {
    hide Reachable, Contract, JobOk, Asked, TraceOf;
    JobOfReachable(p, db, j);
    var job := db.jobs[j];
    var trace := TraceOf(job.opIds, db.ops);
    SucceededReads(job, trace);
    forall i | i in job.opIds
      ensures db.ops[i].state.Succeeded? && ItemNames(db.ops[i].result) == db.ops[i].ask.requested
    {
      var n :| 0 <= n < |job.opIds| && job.opIds[n] == i;
      assert trace[n] == db.ops[i];
    }
  }

  /** A job tells how it ended: it is over exactly when it has a finishing time, it succeeded exactly when then nothing
      failed and no limit was met, its failures are those of its operations that ended otherwise than in success, each
      with its reason, and the limits on requests and on depth are noted only when they are reached. */
  lemma JobEnds(p: Policy, db: Db, j: Id)
    requires Contract(p) && Reachable(p, db) && j in db.jobs
    ensures var job := db.jobs[j];
            && (job.state.JobRunning? <==> job.finishedAt.None?)
            && (job.state.JobSucceeded? <==> job.finishedAt.Some? && job.failures == [] && job.limits == [])
            && (forall id, reason :: OpFailure(id, reason) in job.failures <==>
                  && id in job.opIds && job.current != Some(id) && id in db.ops
                  && !db.ops[id].state.Succeeded? && db.ops[id].reason == reason)
            && (MaxRpcs in job.limits ==> job.rpcCount == job.spec.maxRpcs)
            && (MaxDepth in job.limits ==> job.spec.kind.WalkJob? && job.depth == job.spec.maxDepth)
  {
    hide Reachable, Contract, TraceLevelled, FrontierLevelled, Apart, Rooted, Partitioned, TraceBatched,
      FrontierBatched, TraceWithin, Owned, ValidSpec;
    JobOfReachable(p, db, j);
  }

  /** The arm that notes an unsupported branch is never taken. */
  lemma BranchNeverNoted(p: Policy, db: Db, j: Id)
    requires Contract(p) && Reachable(p, db) && j in db.jobs
    ensures UnsupportedBranch !in db.jobs[j].limits
  {
    hide Reachable, Contract, Walking, Reading;
    JobOfReachable(p, db, j);
  }

  /** Budgets: the operations launched are counted exactly, and neither they nor the entries ever exceed their
      limits. */
  lemma BudgetsHold(p: Policy, db: Db, j: Id)
    requires Contract(p) && Reachable(p, db) && j in db.jobs
    ensures var job := db.jobs[j];
            && job.rpcCount == |job.opIds| == job.completed + (if job.current.Some? then 1 else 0)
            && job.rpcCount <= job.spec.maxRpcs && 0 <= job.entryCount <= job.spec.maxEntries
            && (forall a, b | 0 <= a < b < |job.opIds| :: job.opIds[a] != job.opIds[b])
  {
    hide Reachable, Contract, Walking, Reading;
    JobOfReachable(p, db, j);
  }

  /** While a discovery job runs its entry count is the number of catalog rows that cite the operations it has accounted
      for. */
  lemma EntriesAccounted(p: Policy, db: Db, j: Id)
    requires Contract(p) && Reachable(p, db) && j in db.jobs && db.jobs[j].spec.kind.WalkJob?
             && db.jobs[j].state.JobRunning?
    ensures db.jobs[j].entryCount == |CitedBy(db.catalog, IdSet(db.jobs[j].opIds))|
  {
    hide Reachable, Contract, Coupled, ValuesSourced, StoreOk, OpKeys, JobKeys, CitedBy, DoneIds, IdSet, TraceOf,
      AllIn, JobOk, CatalogSourced, Cited;
    ReachableInv(p, db);
    var job := db.jobs[j];
    CurrentIsLast(job, db.ops);
    DonePlusCurrent(job);
    assert IdSet(job.opIds) == DoneIds(job) + {job.current.value};
    CitedGrows(db.catalog, DoneIds(job), job.current.value);
    NoneCited(db.catalog, db.ops, job.current.value);
    assert |Cited(db.catalog, job.current.value)| == 0;
  }

  /** Where every stored row comes from, and the constraints of the register tables. */
  lemma Provenance(p: Policy, db: Db)
    requires Contract(p) && Reachable(p, db)
    ensures CatalogSourced(db.ops, db.catalog) && ValuesSourced(p.defaults, db.ops, db.values)
    ensures FieldsSourced(db.ops, db.store.fields) && TelemetrySourced(db.ops, db.store.telemetry)
    ensures FieldsChecked(db.store.fields) && TelemetryChecked(db.store.telemetry) && ApprovalSafe(db.store)
  {
    hide Reachable, Contract, Coupled, CatalogSourced, ValuesSourced, FieldsSourced, TelemetrySourced, FieldsChecked,
      TelemetryChecked, ApprovalSafe, JobsOk, Accounted, OneActive, OneRunning, JobsDrive, OpKeys, JobKeys, Steady;
    ReachableInv(p, db);
  }
}
