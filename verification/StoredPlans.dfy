/** Every stored operation can be planned again from its own row: the refusal of a reply whose plan cannot be restored
    is never taken under the Huawei policy. */
module StoredPlans {
  import opened Text
  import opened Domain
  import opened Policies
  import opened Jobs
  import opened Registers
  import opened Queue
  import opened Invariants
  import opened OperationProofs
  import opened Validation
  import opened Runs
  import Telemetry
  import Huawei

  /** A plan is made again from its own names. */
  ghost predicate Remakes(p: Policy) {
    forall t, s, path, names {:trigger p.plan(t, s, path, names)} ::
      var plan := p.plan(t, s, path, names);
      plan.Some? ==> p.plan(t, s, path, plan.value.names) == plan
  }

  /** Some device gets this operation's profile when what its row holds is planned. */
  ghost predicate Planned(p: Policy, ask: Ask) {
    exists t: Target ::
      var plan := p.plan(t, ask.scope, ask.path, ask.requested);
      plan.Some? && plan.value.profileId == ask.profileId && plan.value.profileVersion == ask.profileVersion
  }

  ghost predicate AllPlanned(p: Policy, ops: map<Id, Op>) { forall i | i in ops :: Planned(p, ops[i].ask) }

  /** Whatever is new was planned; requests stay. */
  ghost predicate OnlyPlanned(p: Policy, ops: map<Id, Op>, later: map<Id, Op>) {
    forall i | i in later :: (i in ops && later[i].ask == ops[i].ask) || Planned(p, later[i].ask)
  }

  lemma SameOnlyPlanned(p: Policy, ops: map<Id, Op>)
    ensures OnlyPlanned(p, ops, ops)
  {}

  lemma OnlyPlannedTransitive(p: Policy, a: map<Id, Op>, b: map<Id, Op>, c: map<Id, Op>)
    requires OnlyPlanned(p, a, b) && OnlyPlanned(p, b, c)
    ensures OnlyPlanned(p, a, c)
  {
    hide Planned;
  }

  lemma OnlyPlannedKeeps(p: Policy, ops: map<Id, Op>, later: map<Id, Op>)
    requires AllPlanned(p, ops) && OnlyPlanned(p, ops, later)
    ensures AllPlanned(p, later)
  {
    hide Planned;
  }

  // ----- Where operations come from -----

  lemma RequestPlanned(p: Policy, target: Target, r: Request, discovered: seq<string>, now: Time)
    requires Remakes(p) && CreatePlan(p, target, r, discovered).Ok?
    ensures Planned(p, RequestAsk(r, CreatePlan(p, target, r, discovered).value, now))
  {
    var plan := CreatePlan(p, target, r, discovered).value;
    SortMembers(Self, r.names);
    var names := SortBy(Self, r.names);
    var given := if names != [] then names else if Measured(r.scope) then discovered else [];
    assert p.plan(target, r.scope, r.path, given) == Some(plan);
    assert p.plan(target, r.scope, r.path, RequestAsk(r, plan, now).requested) == Some(plan);
  }

  lemma {:induction false} LaunchPlanned(p: Policy, target: Target, job: Job, id: Id, now: Time)
    requires Remakes(p)
    ensures var op := Launch(p, target, job, id, now).1; op.Some? ==> Planned(p, op.value.ask)
    decreases |job.frontier|
  {
    hide Remakes, Planned;
    if job.frontier != [] && job.rpcCount < job.spec.maxRpcs && job.entryCount < job.spec.maxEntries {
      LaunchPlanned(p, target, Popped(job).(failures := Popped(job).failures + [PlanFailure]), id, now);
      StepPlanned(p, target, job, id, now);
    }
  }

  lemma StepPlanned(p: Policy, target: Target, job: Job, id: Id, now: Time)
    requires Remakes(p) && job.frontier != [] && job.entryCount < job.spec.maxEntries
    ensures var plan := p.plan(target, ScopeOf(job), job.frontier[0].path, HeadNames(job));
            plan.Some? ==> Planned(p, StepAsk(job, job.frontier[0], HeadNames(job), plan.value, id, now))
  {
    var plan := p.plan(target, ScopeOf(job), job.frontier[0].path, HeadNames(job));
    if plan.Some? {
      var ask := StepAsk(job, job.frontier[0], HeadNames(job), plan.value, id, now);
      assert p.plan(target, ask.scope, ask.path, ask.requested) == plan;
    }
  }

  lemma ExpirePlanned(p: Policy, db: Db, cpe: Id, now: Time)
    ensures OnlyPlanned(p, db.ops, Expire(db, cpe, now).ops)
    ensures Expire(db, cpe, now).jobs == db.jobs && Expire(db, cpe, now).store == db.store
  {
    hide Planned;
  }

  lemma AdvancePlanned(p: Policy, db: Db, j: Id, now: Time)
    requires Remakes(p) && j in db.jobs
    ensures OnlyPlanned(p, db.ops, Advance(p, db, j, now).ops)
  {
    hide Launch, ReadyJob, Waits, Planned, Remakes;
    if db.jobs[j].cpe in db.store.cpes {
      LaunchPlanned(p, TargetOf(db.store.cpes[db.jobs[j].cpe]), ReadyJob(db, db.jobs[j]), db.next, now);
    }
  }

  lemma AdvanceActivePlanned(p: Policy, db: Db, cpe: Id, now: Time)
    requires Remakes(p)
    ensures OnlyPlanned(p, db.ops, AdvanceActive(p, db, cpe, now).ops)
  {
    hide Advance, OnlyPlanned, Remakes;
    SameOnlyPlanned(p, db.ops);
    var found := ActiveJob(db.jobs, cpe);
    if found.Some? { AdvancePlanned(p, db, found.value, now); }
  }

  // ----- Steps -----

  lemma CreatePlanned(p: Policy, db: Db, r: Request, discovered: seq<string>, now: Time)
    requires Remakes(p)
    ensures OnlyPlanned(p, db.ops, Settle(db, Create(p, db, r, discovered, now)).ops)
  {
    hide Expire, CreatePlan, BadSelection, SameRequest, RequestAsk, Remakes, Planned;
    SameOnlyPlanned(p, db.ops);
    ExpirePlanned(p, db, r.cpe, now);
    if r.cpe in db.store.cpes {
      var target := TargetOf(db.store.cpes[r.cpe]);
      if CreatePlan(p, target, r, discovered).Ok? { RequestPlanned(p, target, r, discovered, now); }
    }
  }

  lemma CreateJobPlanned(p: Policy, db: Db, cpe: Id, spec: Spec, key: nat, now: Time)
    requires Remakes(p)
    ensures OnlyPlanned(p, db.ops, Settle(db, CreateJob(p, db, cpe, spec, key, now)).ops)
  {
    hide Expire, Advance, FirstFrontier, OnlyPlanned, ValidSpec, Remakes;
    SameOnlyPlanned(p, db.ops);
    ExpirePlanned(p, db, cpe, now);
    var o, d := CreateJob(p, db, cpe, spec, key, now), Expire(db, cpe, now);
    if o.Commit? && o.db != d {
      SortedSpecValid(spec);
      var frontier := FirstFrontier(p, d, cpe, spec.(names := SortBy(Self, spec.names))).value;
      var w := WithJob(d, NewJob(cpe, ClientKey(key), spec.(names := SortBy(Self, spec.names)), frontier, now));
      AdvancePlanned(p, w, d.next, now);
      OnlyPlannedTransitive(p, db.ops, d.ops, o.db.ops);
    }
  }

  lemma GetJobPlanned(p: Policy, db: Db, cpe: Id, j: Id, now: Time)
    requires Remakes(p)
    ensures OnlyPlanned(p, db.ops, Settle(db, GetJob(p, db, cpe, j, now)).ops)
  {
    hide Expire, Advance, OnlyPlanned, Remakes;
    SameOnlyPlanned(p, db.ops);
    ExpirePlanned(p, db, cpe, now);
    var d := Expire(db, cpe, now);
    if j in d.jobs {
      AdvancePlanned(p, d, j, now);
      OnlyPlannedTransitive(p, db.ops, d.ops, Advance(p, d, j, now).ops);
    }
  }

  lemma DispatchesPlanned(p: Policy, db: Db, later: Db)
    requires OnlyDispatches(db, later)
    ensures OnlyPlanned(p, db.ops, later.ops)
  {
    hide Planned;
  }

  lemma AnswerPlanned(p: Policy, db: Db, token: string, reply: Reply, now: Time)
    requires Remakes(p) && token in db.sessions
    ensures OnlyPlanned(p, db.ops, Settle(db, Answer(p, db, token, reply, now)).ops)
  {
    hide RowPlan, Judge, Recorded, AdvanceActive, DigestOf, Finish, FailedProfile, OnlyPlanned, Remakes;
    SameOnlyPlanned(p, db.ops);
    var found := AttemptFor(db.attempts, token, reply.rpcId);
    if found.Some? && found.value in db.ops && db.sessions[token].cpe in db.store.cpes {
      var id, cpe := found.value, db.sessions[token].cpe;
      var op := db.ops[id];
      FailedAsks(p, db, token, id, now);
      var current := RowPlan(p, TargetOf(db.store.cpes[cpe]), op.ask);
      var plan := if current.Some? then current
        else p.restore(op.ask.profileId, op.ask.profileVersion, op.ask.scope, op.ask.path, op.ask.requested);
      if plan.Some? && Judge(p, op.ask, plan.value, reply, now, id).Some? {
        var v := Judge(p, op.ask, plan.value, reply, now, id).value;
        var evidence := if Captures(op, v) then p.evidence(reply, plan.value, op.ask.kind, now) else None;
        var r := Recorded(p, db, token, id, plan.value, reply, v, evidence, now);
        RecordedAsks(p, db, token, id, plan.value, reply, v, evidence, now);
        AdvanceActivePlanned(p, r, cpe, now);
        OnlyPlannedTransitive(p, db.ops, r.ops, AdvanceActive(p, r, cpe, now).ops);
      }
    }
  }

  lemma FailedAsks(p: Policy, db: Db, token: string, id: Id, now: Time)
    requires token in db.sessions && id in db.ops
    ensures OnlyPlanned(p, db.ops, FailedProfile(db, token, id, now).ops)
  {
    hide Planned;
  }

  lemma RecordedAsks(p: Policy, db: Db, token: string, id: Id, plan: Plan, reply: Reply, v: Verdict,
                     evidence: Option<string>, now: Time)
    requires token in db.sessions && id in db.ops && id in db.attempts && db.sessions[token].cpe in db.store.cpes
    ensures OnlyPlanned(p, db.ops, Recorded(p, db, token, id, plan, reply, v, evidence, now).ops)
  {
    hide Planned, Truncate, CatalogAll, ValuesAll, Stored, DigestOf, Finish;
  }

  lemma ExchangePlanned(p: Policy, db: Db, token: string, reply: Option<Reply>, rpcId: string, now: Time)
    requires Remakes(p)
    ensures OnlyPlanned(p, db.ops, Settle(db, Exchange(p, db, token, reply, rpcId, now)).ops)
  {
    hide Expire, AdvanceActive, Poll, Answer, OnlyPlanned, Remakes, OnlyDispatches;
    SameOnlyPlanned(p, db.ops);
    if token in db.sessions && db.sessions[token].cpe in db.store.cpes {
      var cpe := db.sessions[token].cpe;
      ExpirePlanned(p, db, cpe, now);
      var e := Expire(db, cpe, now);
      AdvanceActivePlanned(p, e, cpe, now);
      var d := AdvanceActive(p, e, cpe, now);
      OnlyPlannedTransitive(p, db.ops, e.ops, d.ops);
      SameSessions(p, db, cpe, now, token);
      if reply.None? {
        var o := Poll(p, d, token, rpcId, now);
        PollDispatches(p, d, token, rpcId, now);
        SameDispatches(d);
        DispatchesPlanned(p, d, Settle(d, o));
        OnlyPlannedTransitive(p, db.ops, d.ops, Settle(d, Poll(p, d, token, rpcId, now)).ops);
      } else {
        AnswerPlanned(p, d, token, reply.value, now);
        OnlyPlannedTransitive(p, db.ops, d.ops, Settle(d, Answer(p, d, token, reply.value, now)).ops);
      }
    }
  }

  lemma GetPlanned(p: Policy, db: Db, cpe: Id, id: Id, now: Time)
    ensures OnlyPlanned(p, db.ops, Settle(db, Get(db, cpe, id, now)).ops)
  {
    hide Expire, OnlyPlanned;
    SameOnlyPlanned(p, db.ops);
    ExpirePlanned(p, db, cpe, now);
  }

  lemma StepOnlyPlanned(p: Policy, db: Db, a: Action)
    requires Remakes(p)
    ensures OnlyPlanned(p, db.ops, Act(p, db, a).ops)
  {
    hide Create, Get, CreateJob, GetJob, Exchange, Accept, Complete, Bind, Approve, OnlyPlanned, Remakes;
    match a
    case DoCreate(r, discovered, now) => CreatePlanned(p, db, r, discovered, now);
    case DoGet(cpe, id, now) => GetPlanned(p, db, cpe, id, now);
    case DoCreateJob(cpe, spec, key, now) => CreateJobPlanned(p, db, cpe, spec, key, now);
    case DoGetJob(cpe, id, now) => GetJobPlanned(p, db, cpe, id, now);
    case DoExchange(token, reply, rpcId, now) => ExchangePlanned(p, db, token, reply, rpcId, now);
    case _ =>
      SessionStepsSame(p, db, a);
      SameOnlyPlanned(p, db.ops);
  }

  lemma {:induction false} RunPlanned(p: Policy, actions: seq<Action>)
    requires Remakes(p)
    ensures AllPlanned(p, Run(p, EMPTY, actions).ops)
  {
    hide Act, AllPlanned, Remakes, OnlyPlanned;
    if actions == [] {
      NoneYet(p);
    } else {
      var n := |actions| - 1;
      RunPlanned(p, actions[..n]);
      var db := Run(p, EMPTY, actions[..n]);
      StepOnlyPlanned(p, db, actions[n]);
      OnlyPlannedKeeps(p, db.ops, Act(p, db, actions[n]).ops);
    }
  }

  lemma NoneYet(p: Policy)
    ensures AllPlanned(p, EMPTY.ops)
  {}

  // ----- The plan of every stored operation can be restored -----

  /** Whatever happened since, and whatever device reports now, the plan of every stored operation can be restored. */
  lemma PlansRestore(p: Policy, actions: seq<Action>, i: Id)
    requires Remakes(p) && StablePlans(p) && i in Run(p, EMPTY, actions).ops
    ensures var ask := Run(p, EMPTY, actions).ops[i].ask;
            p.restore(ask.profileId, ask.profileVersion, ask.scope, ask.path, ask.requested).Some?
  {
    hide Run, Remakes;
    RunPlanned(p, actions);
    var ask := Run(p, EMPTY, actions).ops[i].ask;
    assert Planned(p, ask);
  }

  /** So it is under the policy of the repository: no reply is refused for want of a plan. */
  lemma HuaweiPlansRestore(lib: Telemetry.Lib, evidence: (Reply, Plan, Kind, Time) -> Option<string>,
                           actions: seq<Action>, i: Id)
    requires i in Run(Huawei.HuaweiPolicy(lib, evidence), EMPTY, actions).ops
    ensures var p := Huawei.HuaweiPolicy(lib, evidence);
            var ask := Run(p, EMPTY, actions).ops[i].ask;
            p.restore(ask.profileId, ask.profileVersion, ask.scope, ask.path, ask.requested).Some?
  {
    hide Run, Huawei.MakePlan, Huawei.RestorePlan, StablePlans, StableJudgement;
    var p := Huawei.HuaweiPolicy(lib, evidence);
    Huawei.PlansStable(lib, evidence);
    forall t, s, path, names | p.plan(t, s, path, names).Some?
      ensures p.plan(t, s, path, p.plan(t, s, path, names).value.names) == p.plan(t, s, path, names)
    {
      Huawei.PlanIdempotent(t, s, path, names);
    }
    PlansRestore(p, actions, i);
  }
}
