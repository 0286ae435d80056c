/** What one step may write, and what later steps never take back. */
module Effects {
  import opened Text
  import opened Domain
  import opened Policies
  import opened Jobs
  import opened Registers
  import opened Queue
  import opened Invariants
  import opened QueueProofs
  import opened AdvanceProofs
  import opened AnswerProofs
  import opened OperationProofs
  import opened Validation
  import opened Runs

  // ----- Attempts and sessions last -----

  /** Attempts are never removed or re-bound, and a recorded digest never changes. */
  ghost predicate AttemptsLast(attempts: map<Id, Attempt>, later: map<Id, Attempt>) {
    forall i | i in attempts ::
      && i in later && later[i] == attempts[i].(digest := later[i].digest)
      && (attempts[i].digest.Some? ==> later[i].digest == attempts[i].digest)
  }

  ghost predicate SessionsLast(sessions: map<string, Session>, later: map<string, Session>) {
    forall t | t in sessions :: t in later && later[t].cpe == sessions[t].cpe
  }

  ghost predicate Lasts(db: Db, later: Db) {
    && AttemptsLast(db.attempts, later.attempts) && SessionsLast(db.sessions, later.sessions)
    && db.store.cpes.Keys <= later.store.cpes.Keys
  }

  lemma LastsTransitive(a: Db, b: Db, c: Db)
    requires Lasts(a, b) && Lasts(b, c)
    ensures Lasts(a, c)
  {}

  /** The tables that only replies and Informs write. */
  ghost predicate SameRecords(db: Db, later: Db) {
    db.catalog == later.catalog && db.values == later.values && db.store == later.store
  }

  /** A step that records nothing. */
  ghost predicate Quiet(db: Db, later: Db) { SameRecords(db, later) && Lasts(db, later) }

  lemma QuietTransitive(a: Db, b: Db, c: Db)
    requires Quiet(a, b) && Quiet(b, c)
    ensures Quiet(a, c)
  {}

  lemma ExpireQuiet(db: Db, cpe: Id, now: Time)
    ensures Quiet(db, Expire(db, cpe, now)) && Expire(db, cpe, now).jobs == db.jobs
  {}

  lemma AdvanceQuiet(p: Policy, db: Db, j: Id, now: Time)
    requires j in db.jobs
    ensures Quiet(db, Advance(p, db, j, now)) && Advance(p, db, j, now).attempts == db.attempts
    ensures j in Advance(p, db, j, now).jobs && Advance(p, db, j, now).sessions == db.sessions
  {
    hide Lasts, Advance;
    AdvanceFrame(p, db, j, now);
    SameRowsLast(db, Advance(p, db, j, now));
  }

  lemma AdvanceFrame(p: Policy, db: Db, j: Id, now: Time)
    requires j in db.jobs
    ensures var d := Advance(p, db, j, now);
            d == db.(jobs := d.jobs, ops := d.ops, next := d.next) && j in d.jobs
  {
    hide Launch, ReadyJob, Waits, TargetOf;
  }

  lemma SameRowsLast(db: Db, later: Db)
    requires later.attempts == db.attempts && later.sessions == db.sessions && later.store == db.store
    ensures Lasts(db, later)
  {}

  lemma PreparedQuiet(p: Policy, db: Db, cpe: Id, now: Time)
    ensures Quiet(db, Prepared(p, db, cpe, now)) && Prepared(p, db, cpe, now).attempts == db.attempts
  {
    hide Advance, Lasts;
    ExpireQuiet(db, cpe, now);
    var d := Expire(db, cpe, now);
    var found := ActiveJob(d.jobs, cpe);
    if found.Some? {
      AdvanceQuiet(p, d, found.value, now);
      QuietTransitive(db, d, Advance(p, d, found.value, now));
    }
  }

  lemma FailQuiet(db: Db, token: string, id: Id, now: Time)
    requires token in db.sessions && id in db.ops
    ensures Quiet(db, FailedProfile(db, token, id, now))
  {}

  lemma DispatchQuiet(db: Db, token: string, id: Id, rpcId: string, now: Time)
    requires token in db.sessions && id in db.ops && id !in db.attempts
    ensures Quiet(db, Dispatch(db, token, id, rpcId, now))
  {}

  lemma PendingUnattempted(p: Policy, db: Db, cpe: Id)
    requires Inv(p, db)
    ensures var found := PendingOp(db.ops, cpe); found.Some? ==> found.value !in db.attempts
  {
    hide Inv, Core, OpsOk;
    CoreOfInv(p, db);
    CoreParts(p, db);
    var found := PendingOp(db.ops, cpe);
    if found.Some? { OpOfOps(db, found.value); }
  }

  lemma OpOfOps(db: Db, id: Id)
    requires OpsOk(db.ops, db.attempts.Keys) && id in db.ops
    ensures OpOk(db.ops[id], id in db.attempts)
  {}

  lemma AttemptedIn(p: Policy, db: Db, token: string)
    requires Inv(p, db)
    ensures var found := AttemptOf(db.attempts, token); found.Some? ==> found.value in db.ops
  {
    hide OpsOk, JobsOk, OneActive, OneRunning, JobsDrive, OpKeys, JobKeys, Accounted, CatalogSourced, ValuesSourced,
      StoreOk, Steady, OneAttemptEach, WaitersAttempted;
  }

  lemma PollQuiet(p: Policy, db: Db, token: string, rpcId: string, now: Time)
    requires Inv(p, db) && token in db.sessions
    ensures var o := Poll(p, db, token, rpcId, now); o.Commit? ==> Quiet(db, o.db)
  {
    hide Inv, RowPlan, Lasts, FailedProfile, Dispatch, Finish;
    LastsSame(db);
    PendingUnattempted(p, db, db.sessions[token].cpe);
    AttemptedIn(p, db, token);
    FinishQuiet(db, token, now);
    var s := db.sessions[token];
    var found := if s.state.AwaitingResponse? then AttemptOf(db.attempts, token) else PendingOp(db.ops, s.cpe);
    if found.Some? {
      FailQuiet(db, token, found.value, now);
      if !s.state.AwaitingResponse? { DispatchQuiet(db, token, found.value, rpcId, now); }
    }
  }

  lemma FinishQuiet(db: Db, token: string, now: Time)
    requires token in db.sessions
    ensures Quiet(db, db.(sessions := Finish(db.sessions, token, now)))
  {}

  lemma CoreOfInv(p: Policy, db: Db)
    requires Inv(p, db)
    ensures Core(p, db) && Steady(db.jobs, db.ops)
  {}

  // ----- Answers -----

  /** `id` went from dispatched to answered between the two states, through the session `token`; whatever was added to
      the catalog or the values cites it. */
  ghost predicate AnsweredBetween(db: Db, later: Db, token: string, id: Id) {
    && id in db.ops && db.ops[id].state.Dispatched? && id in db.attempts && db.attempts[id].session == token
    && db.attempts[id].digest.None?
    && id in later.ops && (later.ops[id].state.Succeeded? || later.ops[id].state.Failed?)
    && id in later.attempts && later.attempts[id].digest.Some?
    && (forall k | k in later.catalog ::
          later.catalog[k].operation == id || (k in db.catalog && later.catalog[k] == db.catalog[k]))
    && (forall k | k in later.values ::
          later.values[k].operation == id || (k in db.values && later.values[k] == db.values[k]))
  }

  lemma {:induction false} ValuesAllWritten(values: map<PathKey, ValueRow>, cpe: Id, ps: seq<Parameter>, n: nat, id: Id,
                                            now: Time)
    requires n <= |ps|
    ensures forall k | k in ValuesAll(values, cpe, ps, n, id, now) ::
              var later := ValuesAll(values, cpe, ps, n, id, now);
              later[k].operation == id || (k in values && later[k] == values[k])
  {
    if n > 0 { ValuesAllWritten(values, cpe, ps, n - 1, id, now); }
  }

  lemma CatalogWritten(catalog: map<PathKey, CatalogRow>, cpe: Id, names: seq<Info>, id: Id, now: Time)
    ensures forall k | k in CatalogAll(catalog, cpe, names, |names|, id, now) ::
              var later := CatalogAll(catalog, cpe, names, |names|, id, now);
              later[k].operation == id || (k in catalog && later[k] == catalog[k])
  {
    hide CatalogAll;
    CatalogAllCatalogues(catalog, cpe, names, |names|, id, now);
  }

  lemma AnswerLasts(db: Db, later: Db, token: string, id: Id, digest: Digest, now: Time)
    requires token in db.sessions && id in db.attempts && db.attempts[id].digest.None?
    requires later.attempts == db.attempts[id := db.attempts[id].(digest := Some(digest))]
    requires later.sessions == Finish(db.sessions, token, now) && later.store.cpes.Keys == db.store.cpes.Keys
    ensures Lasts(db, later)
  {}

  lemma RecordedEffects(p: Policy, db: Db, token: string, id: Id, plan: Plan, reply: Reply, v: Verdict,
                        evidence: Option<string>, now: Time)
    requires token in db.sessions && id in db.ops && id in db.attempts && db.sessions[token].cpe in db.store.cpes
    requires db.ops[id].state.Dispatched? && db.attempts[id].session == token && db.attempts[id].digest.None?
    ensures var d := Recorded(p, db, token, id, plan, reply, v, evidence, now);
            AnsweredBetween(db, d, token, id) && Lasts(db, d)
  {
    hide Truncate, CatalogAll, ValuesAll, DigestOf, Stored, Finish, Lasts;
    var cpe := db.sessions[token].cpe;
    var (names, jobs) := if reply.NamesReply? && v.reason.None? then Truncate(db.jobs, cpe, id, reply.names)
        else ([], db.jobs);
    var ps := if reply.ValuesReply? && v.reason.None? then p.permitted(reply.parameters, plan) else [];
    CatalogWritten(db.catalog, cpe, names, id, now);
    ValuesAllWritten(db.values, cpe, ps, |ps|, id, now);
    TelemetryKeepsCpes(db.store, cpe, v);
    AnswerLasts(db, Recorded(p, db, token, id, plan, reply, v, evidence, now), token, id, DigestOf(reply, v), now);
  }

  lemma TelemetryKeepsCpes(s: Store, cpe: Id, v: Verdict)
    requires cpe in s.cpes
    ensures Stored(s, cpe, v).cpes.Keys == s.cpes.Keys
  {}

  lemma AdvanceActiveQuiet(p: Policy, db: Db, cpe: Id, now: Time)
    ensures var d := AdvanceActive(p, db, cpe, now); Quiet(db, d) && d.attempts == db.attempts
  {
    hide Advance, Lasts;
    var found := ActiveJob(db.jobs, cpe);
    if found.Some? { AdvanceQuiet(p, db, found.value, now); }
    LastsSame(db);
  }

  lemma LastsSame(db: Db)
    ensures Lasts(db, db)
  {}

  /** A reply either records nothing, or is the one answer of the operation its session was dispatched for. */
  lemma AnswerEffects(p: Policy, db: Db, token: string, reply: Reply, now: Time)
    requires Contract(p) && DistinctReply(reply) && Inv(p, db) && token in db.sessions
    ensures var o := Answer(p, db, token, reply, now);
            o.Commit? ==>
              Lasts(db, o.db) && (SameRecords(db, o.db) || exists id :: AnsweredBetween(db, o.db, token, id))
  {
    hide Inv, Core, Steady, Evolves, SteadyBut, RowPlan, Judge, Contract, Recorded, AdvanceActive, DigestOf,
      AnsweredBetween, Lasts, FailedProfile, Finish, DistinctReply;
    LastsSame(db);
    FinishQuiet(db, token, now);
    CoreOfInv(p, db);
    var found := AttemptFor(db.attempts, token, reply.rpcId);
    if found.Some? {
      var id := found.value;
      AttemptConcerns(p, db, token, id);
      FailQuiet(db, token, id, now);
      var op := db.ops[id];
      var plan := RowPlan(p, TargetOf(CpeOf(db, token)), op.ask);
      if op.state.Dispatched? && plan.Some? && Judge(p, op.ask, plan.value, reply, now, id).Some? {
        var v := Judge(p, op.ask, plan.value, reply, now, id).value;
        var evidence := if Captures(op, v) then p.evidence(reply, plan.value, op.ask.kind, now) else None;
        AnswerAdvanced(p, db, token, id, plan.value, reply, v, evidence, now);
      }
    }
  }

  lemma AnswerAdvanced(p: Policy, db: Db, token: string, id: Id, plan: Plan, reply: Reply, v: Verdict,
                       evidence: Option<string>, now: Time)
    requires Contract(p) && DistinctReply(reply) && Inv(p, db) && token in db.sessions
             && db.sessions[token].cpe in db.store.cpes
    requires id in db.ops && id in db.attempts && Concerns(db, token, id) && db.ops[id].state.Dispatched?
             && db.attempts[id].session == token
    requires db.attempts[id].digest.None?
    requires RowPlan(p, TargetOf(CpeOf(db, token)), db.ops[id].ask) == Some(plan)
             && Judge(p, db.ops[id].ask, plan, reply, now, id) == Some(v)
    ensures var r := Recorded(p, db, token, id, plan, reply, v, evidence, now);
            var d := AdvanceActive(p, r, db.sessions[token].cpe, now);
            AnsweredBetween(db, d, token, id) && Lasts(db, d)
  {
    hide Core, Steady, RowPlan, Judge, Recorded, AdvanceActive, SteadyBut, PlanContract, PermittedContract,
      DiscoveryContract, ObservationContract;
    RowPlanFits(p, TargetOf(CpeOf(db, token)), db.ops[id].ask);
    RecordedKeeps(p, db, token, id, plan, reply, v, evidence, now);
    RecordedEffects(p, db, token, id, plan, reply, v, evidence, now);
    var r := Recorded(p, db, token, id, plan, reply, v, evidence, now);
    AdvanceActiveKeeps(p, r, db.sessions[token].cpe, now);
    AdvanceActiveQuiet(p, r, db.sessions[token].cpe, now);
    LastsTransitive(db, r, AdvanceActive(p, r, db.sessions[token].cpe, now));
  }

  /** What was dispatched when the exchange began is what the prepared state still shows as dispatched. */
  lemma PreparedDispatched(p: Policy, db: Db, cpe: Id, now: Time, id: Id)
    requires PlanContract(p) && Inv(p, db) && id in db.attempts
    requires var d := Prepared(p, db, cpe, now); id in d.ops && d.ops[id].state.Dispatched?
    ensures id in db.ops && db.ops[id].state.Dispatched?
  {
    hide Inv, Core, Steady, Prepared, PlanContract;
    PreparedKeeps(p, db, cpe, now);
    CoreOfInv(p, db);
    CoreParts(p, db);
    assert id in db.ops && OpOk(db.ops[id], true) by { hide OpOk; }
  }

  lemma ExchangeEffects(p: Policy, db: Db, token: string, reply: Option<Reply>, rpcId: string, now: Time)
    requires Contract(p) && Inv(p, db) && (reply.Some? ==> DistinctReply(reply.value))
    ensures var o := Exchange(p, db, token, reply, rpcId, now);
            o.Commit? ==>
              Lasts(db, o.db) && (SameRecords(db, o.db)
                                  || (reply.Some? && exists id :: AnsweredBetween(db, o.db, token, id)))
  {
    hide Inv, Core, Steady, Evolves, Poll, Answer, AdvanceActive, Expire, Lasts, PlanContract, PermittedContract,
      DiscoveryContract, ObservationContract;
    if token in db.sessions && db.sessions[token].cpe in db.store.cpes {
      var cpe := db.sessions[token].cpe;
      PreparedKeeps(p, db, cpe, now);
      PreparedQuiet(p, db, cpe, now);
      var d := Prepared(p, db, cpe, now);
      var o := Exchange(p, db, token, reply, rpcId, now);
      if reply.None? {
        PollQuiet(p, d, token, rpcId, now);
        if o.Commit? { LastsTransitive(db, d, o.db); }
      } else {
        AnswerEffects(p, d, token, reply.value, now);
        if o.Commit? {
          LastsTransitive(db, d, o.db);
          if id :| AnsweredBetween(d, o.db, token, id) {
            PreparedDispatched(p, db, cpe, now, id);
            assert AnsweredBetween(db, o.db, token, id);
          }
        }
      }
    }
  }

  // ----- Every action -----

  /** A step that leaves what replies record as it was; only an Inform may still write inventory fields and the columns
      of a CPE, and only an Inform, a binding or an approval the approvals. */
  ghost predicate RecordsKept(db: Db, later: Db, a: Action) {
    && later.catalog == db.catalog && later.values == db.values && later.store.telemetry == db.store.telemetry
    && (a.DoAccept? || (later.store.fields == db.store.fields && later.store.cpes == db.store.cpes))
    && (a.DoAccept? || a.DoBind? || a.DoApprove? || later.store.approvals == db.store.approvals)
  }

  lemma CreateEffects(p: Policy, db: Db, r: Request, discovered: seq<string>, now: Time)
    ensures Quiet(db, Settle(db, Create(p, db, r, discovered, now)))
  {
    hide BadSelection, CreatePlan, SameRequest, Expire, Lasts, RequestAsk, NewOp;
    LastsSame(db);
    ExpireQuiet(db, r.cpe, now);
    var d := Expire(db, r.cpe, now);
    var plan := if r.cpe in db.store.cpes then CreatePlan(p, TargetOf(db.store.cpes[r.cpe]), r, discovered)
        else Err(NotFound);
    if plan.Ok? {
      var op := NewOp(RequestAsk(r, plan.value, now));
      WithOpQuiet(d, op);
      QuietTransitive(db, d, WithOp(d, op));
    }
  }

  lemma WithOpQuiet(db: Db, op: Op)
    ensures Quiet(db, WithOp(db, op))
  {}

  lemma GetJobEffects(p: Policy, db: Db, cpe: Id, j: Id, now: Time)
    ensures Quiet(db, Settle(db, GetJob(p, db, cpe, j, now)))
  {
    hide Advance, Expire, Lasts;
    LastsSame(db);
    ExpireQuiet(db, cpe, now);
    var d := Expire(db, cpe, now);
    if j in d.jobs {
      AdvanceQuiet(p, d, j, now);
      QuietTransitive(db, d, Advance(p, d, j, now));
    }
  }

  lemma CreateJobEffects(p: Policy, db: Db, cpe: Id, spec: Spec, key: nat, now: Time)
    ensures Quiet(db, Settle(db, CreateJob(p, db, cpe, spec, key, now)))
  {
    hide Advance, Expire, Lasts, FirstFrontier, NewJob, ValidSpec;
    LastsSame(db);
    ExpireQuiet(db, cpe, now);
    var d := Expire(db, cpe, now);
    if cpe in db.store.cpes && ValidSpec(spec) {
      SortedSpecValid(spec);
      var data := spec.(names := SortBy(Self, spec.names));
      var frontier := FirstFrontier(p, d, cpe, data);
      if frontier.Ok? {
        var w := WithJob(d, NewJob(cpe, ClientKey(key), data, frontier.value, now));
        WithJobLasts(d, NewJob(cpe, ClientKey(key), data, frontier.value, now));
        AdvanceQuiet(p, w, d.next, now);
        QuietTransitive(db, d, w);
        QuietTransitive(db, w, Advance(p, w, d.next, now));
      }
    }
  }

  lemma WithJobLasts(db: Db, job: Job)
    ensures Lasts(db, WithJob(db, job))
  {}

  lemma AcceptEffects(db: Db, token: string, d: Device, inv: Inventory, now: Time, expiresAt: Time)
    ensures var o := Accept(db, token, d, inv, now, expiresAt);
            o.Commit? ==> Lasts(db, o.db) && RecordsKept(db, o.db, DoAccept(token, d, inv, now, expiresAt))
  {}

  lemma EndEffects(db: Db, token: string, cpe: Id, id: Id, now: Time)
    ensures Quiet(db, Settle(db, Complete(db, token, now))) && Quiet(db, Settle(db, Get(db, cpe, id, now)))
  {
    hide Expire;
    ExpireQuiet(db, cpe, now);
  }

  /** A step that changes nothing but approvals. */
  ghost predicate OnlyApprovals(db: Db, later: Db) {
    later == db.(store := db.store.(approvals := later.store.approvals))
  }

  lemma ApprovalEffects(db: Db, cpe: Id, operation: Id, key: Id, actor: Id, now: Time)
    ensures OnlyApprovals(db, Settle(db, Bind(db, cpe, operation, key)))
    ensures OnlyApprovals(db, Settle(db, Approve(db, cpe, actor, operation, now)))
  {}

  lemma OnlyApprovalsLasts(db: Db, later: Db)
    requires OnlyApprovals(db, later)
    ensures Lasts(db, later) && forall a: Action | a.DoBind? || a.DoApprove? :: RecordsKept(db, later, a)
  {}

  /** Everything a reply causes is written in the one step in which its operation goes from dispatched to succeeded or
      failed: any other step leaves catalog, values and telemetry alone, inventory fields and the columns of every CPE
      too unless it is an Inform, and the approvals unless it is an Inform, a binding or an approval. */
  lemma ExactlyOnceEffects(p: Policy, db: Db, a: Action)
    requires Contract(p) && Inv(p, db) && Possible(a)
    ensures var d := Act(p, db, a);
            && Lasts(db, d)
            && (RecordsKept(db, d, a)
                || (a.DoExchange? && a.reply.Some? && exists id :: AnsweredBetween(db, d, a.token, id)))
  {
    hide Inv, Contract, Create, Get, CreateJob, GetJob, Exchange, Accept, Complete, Bind, Approve, Lasts,
      AnsweredBetween, DistinctReply, FromInform, OnlyApprovals;
    LastsSame(db);
    match a
    case DoCreate(r, discovered, now) => CreateEffects(p, db, r, discovered, now);
    case DoGet(cpe, id, now) => EndEffects(db, "", cpe, id, now);
    case DoCreateJob(cpe, spec, key, now) => CreateJobEffects(p, db, cpe, spec, key, now);
    case DoGetJob(cpe, id, now) => GetJobEffects(p, db, cpe, id, now);
    case DoExchange(token, reply, rpcId, now) => ExchangeEffects(p, db, token, reply, rpcId, now);
    case DoAccept(token, d, inv, now, expiresAt) => AcceptEffects(db, token, d, inv, now, expiresAt);
    case DoComplete(token, now) => EndEffects(db, token, 0, 0, now);
    case DoBind(cpe, operation, key, _) =>
      ApprovalEffects(db, cpe, operation, key, 0, 0);
      OnlyApprovalsLasts(db, Settle(db, Bind(db, cpe, operation, key)));
    case DoApprove(cpe, actor, seen, now) =>
      ApprovalEffects(db, cpe, seen, 0, actor, now);
      OnlyApprovalsLasts(db, Settle(db, Approve(db, cpe, actor, seen, now)));
  }

  /** Over any run, attempts and sessions stay bound and recorded digests stay as they are. */
  lemma {:induction false} RunLasts(p: Policy, db: Db, actions: seq<Action>)
    requires Contract(p) && Inv(p, db) && AllPossible(actions)
    ensures Lasts(db, Run(p, db, actions))
  {
    hide Inv, Contract, Possible, Act, Lasts, RecordsKept, AnsweredBetween;
    if actions == [] {
      LastsSame(db);
    } else {
      var n := |actions| - 1;
      RunLasts(p, db, actions[..n]);
      RunKeeps(p, db, actions[..n]);
      ExactlyOnceEffects(p, Run(p, db, actions[..n]), actions[n]);
      LastsTransitive(db, Run(p, db, actions[..n]), Run(p, db, actions));
    }
  }

  /** The assertions that a row referred to exists never fail. */
  lemma NeverAsserts(p: Policy, db: Db, token: string, reply: Option<Reply>, rpcId: string, now: Time)
    requires PlanContract(p) && Inv(p, db)
    ensures Exchange(p, db, token, reply, rpcId, now) != Raised(AssertionError)
  {
    hide Inv, Core, Steady, Evolves, PlanContract, AdvanceActive, Expire, Poll, Answer;
    if token in db.sessions && db.sessions[token].cpe in db.store.cpes {
      var d := Prepared(p, db, db.sessions[token].cpe, now);
      PreparedKeeps(p, db, db.sessions[token].cpe, now);
      PollNeverAsserts(p, d, token, rpcId, now);
      if reply.Some? { AnswerNeverAsserts(p, d, token, reply.value, now); }
    }
  }

  lemma PollNeverAsserts(p: Policy, db: Db, token: string, rpcId: string, now: Time)
    requires Inv(p, db) && token in db.sessions && db.sessions[token].cpe in db.store.cpes
    ensures Poll(p, db, token, rpcId, now) != Raised(AssertionError)
  {
    hide Inv, RowPlan, Finish, FailedProfile, Dispatch;
    AttemptedIn(p, db, token);
  }

  lemma AnswerNeverAsserts(p: Policy, db: Db, token: string, reply: Reply, now: Time)
    requires Inv(p, db) && token in db.sessions && db.sessions[token].cpe in db.store.cpes
    ensures Answer(p, db, token, reply, now) != Raised(AssertionError)
  {
    hide Inv, Core, RowPlan, Judge, Finish, FailedProfile, Recorded, AdvanceActive, DigestOf;
    CoreOfInv(p, db);
    var found := AttemptFor(db.attempts, token, reply.rpcId);
    if found.Some? { AttemptConcerns(p, db, token, found.value); }
  }

  /** An operation is answered at most once in any run. */
  lemma AnsweredOnce(p: Policy, db: Db, later: Db, token: string, id: Id, actions: seq<Action>, a: Action,
                     again: string)
    requires Contract(p) && Inv(p, later) && AllPossible(actions) && AnsweredBetween(db, later, token, id)
    ensures var e := Run(p, later, actions); !AnsweredBetween(e, Act(p, e, a), again, id)
  {
    hide Inv, Contract, AllPossible, Act, Run;
    RunLasts(p, later, actions);
  }

  // ----- A revoked approval -----

  ghost predicate IsRevoked(db: Db, cpe: Id) {
    cpe in db.store.approvals && db.store.approvals[cpe].expectedFirmware != REVIEWED_FIRMWARE
  }

  /** What an approval may become by observations: the same, or revoked; its binding stays. */
  ghost predicate AtMostRevoked(was: map<Id, Approval>, later: map<Id, Approval>, c: Id) {
    c in was ==>
      c in later && later[c].operation == was[c].operation
      && (was[c].expectedFirmware != REVIEWED_FIRMWARE ==> later[c].expectedFirmware != REVIEWED_FIRMWARE)
  }

  /** A row of the firmware that is newer than before and valid. */
  ghost predicate NewFirmware(rows: map<(Id, Field), FieldRow>, later: map<(Id, Field), FieldRow>, c: Id) {
    && (c, FirmwareField) in later && later[(c, FirmwareField)].valid
    && ((c, FirmwareField) in rows ==> rows[(c, FirmwareField)].observedAt < later[(c, FirmwareField)].observedAt)
  }

  /** The step recorded a newer valid firmware, and it is not the one that the approval of the CPE expected. */
  ghost predicate FirmwareChanged(db: Db, later: Db, c: Id) {
    && c in db.store.approvals && c in later.store.cpes && NewFirmware(db.store.fields, later.store.fields, c)
    && later.store.cpes[c].firmware != Some(db.store.approvals[c].expectedFirmware)
  }

  ghost predicate StoreRevokes(s: Store, later: Store, c: Id) {
    && AtMostRevoked(s.approvals, later.approvals, c)
    && (c in s.approvals && c in later.cpes && NewFirmware(s.fields, later.fields, c)
        && later.cpes[c].firmware != Some(s.approvals[c].expectedFirmware) ==>
          later.approvals[c].expectedFirmware != REVIEWED_FIRMWARE && later.approvals[c].approvedAt.None?)
  }

  lemma UpdateRevokes(s: Store, cpe: Id, inv: Inventory, c: Id)
    requires cpe in s.cpes
    ensures StoreRevokes(s, UpdateInventory(s, cpe, inv), c)
  {}

  lemma StoredRevokes(s: Store, cpe: Id, v: Verdict, c: Id)
    requires cpe in s.cpes
    ensures StoreRevokes(s, Stored(s, cpe, v), c)
  {
    hide StoreRevokes, UpdateInventory;
    if v.inventory.Some? { UpdateRevokes(s, cpe, v.inventory.value, c); } else { SameStoreRevokes(s, c); }
    var s1 := if v.inventory.Some? then UpdateInventory(s, cpe, v.inventory.value) else s;
    if v.telemetry.Some? { TelemetryRevokes(s, s1, cpe, v.telemetry.value, c); }
  }

  lemma SameStoreRevokes(s: Store, c: Id)
    ensures StoreRevokes(s, s, c)
  {}

  lemma TelemetryRevokes(s: Store, later: Store, cpe: Id, collection: Collection, c: Id)
    requires StoreRevokes(s, later, c)
    ensures StoreRevokes(s, UpdateTelemetry(later, cpe, collection), c)
  {}

  lemma RecordedStored(p: Policy, db: Db, token: string, id: Id, plan: Plan, reply: Reply, v: Verdict,
                       evidence: Option<string>, now: Time)
    requires token in db.sessions && id in db.ops && id in db.attempts && db.sessions[token].cpe in db.store.cpes
    ensures Recorded(p, db, token, id, plan, reply, v, evidence, now).store
            == Stored(db.store, db.sessions[token].cpe, v)
  {
    hide Truncate, CatalogAll, ValuesAll, Stored, DigestOf, Finish, AnsweredOp;
  }

  lemma AnswerRevokes(p: Policy, db: Db, token: string, reply: Reply, now: Time, c: Id)
    requires token in db.sessions
    ensures StoreRevokes(db.store, Settle(db, Answer(p, db, token, reply, now)).store, c)
  {
    hide RowPlan, Judge, Stored, Recorded, DigestOf, AdvanceActive, Lasts, Finish, FailedProfile, Captures,
      StoreRevokes;
    SameStoreRevokes(db.store, c);
    var found := AttemptFor(db.attempts, token, reply.rpcId);
    if found.Some? && found.value in db.ops && db.sessions[token].cpe in db.store.cpes {
      var id, cpe := found.value, db.sessions[token].cpe;
      var op := db.ops[id];
      FailQuiet(db, token, id, now);
      var current := RowPlan(p, TargetOf(db.store.cpes[cpe]), op.ask);
      var plan := if current.Some? then current
                  else p.restore(op.ask.profileId, op.ask.profileVersion, op.ask.scope, op.ask.path, op.ask.requested);
      if plan.Some? && Judge(p, op.ask, plan.value, reply, now, id).Some? {
        var v := Judge(p, op.ask, plan.value, reply, now, id).value;
        StoredRevokes(db.store, cpe, v, c);
        var evidence := if Captures(op, v) then p.evidence(reply, plan.value, op.ask.kind, now) else None;
        RecordedStored(p, db, token, id, plan.value, reply, v, evidence, now);
        AdvanceActiveQuiet(p, Recorded(p, db, token, id, plan.value, reply, v, evidence, now), cpe, now);
      }
    }
  }

  lemma ExchangeRevokes(p: Policy, db: Db, token: string, reply: Option<Reply>, rpcId: string, now: Time, c: Id)
    requires Contract(p) && Inv(p, db)
    ensures StoreRevokes(db.store, Settle(db, Exchange(p, db, token, reply, rpcId, now)).store, c)
  {
    hide Inv, Poll, Answer, AdvanceActive, Expire, Lasts, PlanContract, PermittedContract, DiscoveryContract,
      ObservationContract, Evolves, StoreRevokes;
    SameStoreRevokes(db.store, c);
    if token in db.sessions && db.sessions[token].cpe in db.store.cpes {
      var cpe := db.sessions[token].cpe;
      PreparedKeeps(p, db, cpe, now);
      PreparedQuiet(p, db, cpe, now);
      var d := Prepared(p, db, cpe, now);
      if reply.None? { PollQuiet(p, d, token, rpcId, now); } else { AnswerRevokes(p, d, token, reply.value, now, c); }
    }
  }

  lemma AcceptRevokes(db: Db, token: string, d: Device, inv: Inventory, now: Time, expiresAt: Time, c: Id)
    ensures StoreRevokes(db.store, Settle(db, Accept(db, token, d, inv, now, expiresAt)).store, c)
  {
    hide UpdateInventory, StoreRevokes;
    SameStoreRevokes(db.store, c);
    if token !in db.sessions {
      var found := CpeByIdentity(db.store.cpes, d.oui, d.productClass, d.serial);
      var cpe := if found.Some? then found.value else db.next;
      var row := if found.Some? then db.store.cpes[cpe].(manufacturer := d.manufacturer)
                 else Cpe(d.manufacturer, d.oui, d.productClass, d.serial, None, None, None);
      var s := db.store.(cpes := db.store.cpes[cpe := row]);
      UpdateRevokes(s, cpe, inv, c);
      SameRowsRevoke(db.store, s, UpdateInventory(s, cpe, inv), c);
    }
  }

  lemma SameRowsRevoke(s: Store, t: Store, later: Store, c: Id)
    requires t.fields == s.fields && t.approvals == s.approvals && StoreRevokes(t, later, c)
    ensures StoreRevokes(s, later, c)
  {}

  ghost predicate Rebinds(a: Action, c: Id, operation: Id) { a.DoBind? && a.cpe == c && a.operation != operation }

  /** Every step but binding a different operation revokes an approval when it records another firmware, and never lifts
      a revocation. */
  lemma StepRevokes(p: Policy, db: Db, a: Action, c: Id)
    requires Contract(p) && Inv(p, db) && Possible(a) && c in db.store.approvals
             && !Rebinds(a, c, db.store.approvals[c].operation)
    ensures StoreRevokes(db.store, Act(p, db, a).store, c)
  {
    hide Inv, Contract, Create, Get, CreateJob, GetJob, Exchange, Accept, Complete, Bind, Approve, Lasts,
      DistinctReply, FromInform, StoreRevokes;
    SameStoreRevokes(db.store, c);
    match a
    case DoCreate(r, discovered, now) => CreateEffects(p, db, r, discovered, now);
    case DoGet(cpe, id, now) => EndEffects(db, "", cpe, id, now);
    case DoCreateJob(cpe, spec, key, now) => CreateJobEffects(p, db, cpe, spec, key, now);
    case DoGetJob(cpe, id, now) => GetJobEffects(p, db, cpe, id, now);
    case DoExchange(token, reply, rpcId, now) => ExchangeRevokes(p, db, token, reply, rpcId, now, c);
    case DoAccept(token, d, inv, now, expiresAt) => AcceptRevokes(db, token, d, inv, now, expiresAt, c);
    case DoComplete(token, now) => EndEffects(db, token, 0, 0, now);
    case DoBind(cpe, operation, key, _) => BindRevokes(db, cpe, operation, key, c);
    case DoApprove(cpe, actor, seen, now) => ApproveRevokes(db, cpe, actor, seen, now, c);
  }

  lemma BindRevokes(db: Db, cpe: Id, operation: Id, key: Id, c: Id)
    requires c in db.store.approvals && (cpe == c ==> operation == db.store.approvals[c].operation)
    ensures StoreRevokes(db.store, Settle(db, Bind(db, cpe, operation, key)).store, c)
  {}

  lemma ApproveRevokes(db: Db, cpe: Id, actor: Id, seen: Id, now: Time, c: Id)
    ensures StoreRevokes(db.store, Settle(db, Approve(db, cpe, actor, seen, now)).store, c)
  {
    hide Matches;
  }

  lemma StepKeepsRevoked(db: Db, later: Db, c: Id)
    requires StoreRevokes(db.store, later.store, c) && IsRevoked(db, c)
    ensures IsRevoked(later, c) && later.store.approvals[c].operation == db.store.approvals[c].operation
  {}

  /** Over any run without a binding of another operation, a revoked approval stays revoked and bound as it was. */
  lemma {:induction false} RevokedUntilRebound(p: Policy, db: Db, actions: seq<Action>, c: Id)
    requires Contract(p) && Inv(p, db) && AllPossible(actions) && IsRevoked(db, c)
    requires forall a | a in actions :: !Rebinds(a, c, db.store.approvals[c].operation)
    ensures IsRevoked(Run(p, db, actions), c)
    ensures Run(p, db, actions).store.approvals[c].operation == db.store.approvals[c].operation
  {
    hide Inv, Contract, Possible, Act, StoreRevokes, Rebinds;
    if actions != [] {
      var n := |actions| - 1;
      RevokedUntilRebound(p, db, actions[..n], c);
      RunKeeps(p, db, actions[..n]);
      StepRevokes(p, Run(p, db, actions[..n]), actions[n], c);
      StepKeepsRevoked(Run(p, db, actions[..n]), Run(p, db, actions), c);
    }
  }

  lemma ChangeRevokes(db: Db, later: Db, c: Id)
    requires StoreRevokes(db.store, later.store, c) && FirmwareChanged(db, later, c)
    ensures IsRevoked(later, c) && later.store.approvals[c].operation == db.store.approvals[c].operation
  {}

  lemma OnlyRebindingRebinds(db: Db, a: Action, c: Id)
    requires c in db.store.approvals && Rebinds(a, c, db.store.approvals[c].operation)
    ensures forall p :: Act(p, db, a).store.fields == db.store.fields
  {}

  /** Once a step has recorded a newer valid firmware other than the expected one, from an Inform or from a read,
      approving and collecting are refused and the status asks for revalidation after any further run that binds no
      other operation for the CPE. */
  lemma ChangedFirmwareBlocks(p: Policy, db: Db, a: Action, actions: seq<Action>, c: Id, actor: Id, seen: Id, key: nat,
                              now: Time)
    requires Contract(p) && Inv(p, db) && Possible(a) && AllPossible(actions) && FirmwareChanged(db, Act(p, db, a), c)
    requires forall b | b in actions :: !Rebinds(b, c, db.store.approvals[c].operation)
    ensures var e := Run(p, Act(p, db, a), actions);
            && Approve(e, c, actor, seen, now).Raised? && Gather(p, e, c, key, now).Raised?
            && (ReadStatus(e, c, now).Commit? ==> ReadStatus(e, c, now).result.state.NeedsRevalidation?)
  {
    hide Inv, Contract, AllPossible, Act, Approve, Gather, ReadStatus, Run, StoreRevokes, Rebinds;
    if Rebinds(a, c, db.store.approvals[c].operation) { OnlyRebindingRebinds(db, a, c); }
    assert !Rebinds(a, c, db.store.approvals[c].operation);
    StepRevokes(p, db, a, c);
    ChangeRevokes(db, Act(p, db, a), c);
    StepKeeps(p, db, a);
    RevokedUntilRebound(p, Act(p, db, a), actions, c);
    RevokedRefuses(p, Run(p, Act(p, db, a), actions), c, actor, seen, key, now);
  }

  /** The approval stands on the operation `id`, which is the successful read that it was in the earlier state, on the
      firmware that it had left there, and on the firmware stored now. */
  ghost predicate RestsOnShown(db: Db, later: Db, c: Id, id: Id) {
    && id in db.ops && id in later.ops && later.ops[id] == db.ops[id] && later.ops[id].state.Succeeded?
    && later.ops[id].ask.cpe == c
    && c in later.store.approvals && later.store.approvals[c].operation == id
    && later.store.approvals[c].approvedAt.Some?
    && c in later.store.cpes && later.store.cpes[c].firmware == Some(REVIEWED_FIRMWARE)
    && (c, FIRMWARE_NAME) in db.values && Strip(db.values[(c, FIRMWARE_NAME)].value) == REVIEWED_FIRMWARE
  }

  /** An approval that is granted, after any run, to what a status showed as validated rests on the operation that the
      status showed, on what it then had read, and on the firmware stored when it is granted. */
  lemma ApprovedAsShown(p: Policy, db: Db, actions: seq<Action>, c: Id, actor: Id, now: Time)
    requires Contract(p) && Inv(p, db) && AllPossible(actions)
    requires c in db.store.cpes && c in db.store.approvals && db.store.approvals[c].operation in db.ops
    requires Status(db, c).state.Validated? || Status(db, c).state.Approved?
    requires Approve(Run(p, db, actions), c, actor, Status(db, c).operation, now).Commit?
    ensures var id := Status(db, c).operation;
            RestsOnShown(db, Approve(Run(p, db, actions), c, actor, id, now).db, c, id)
  {
    hide Inv, Core, Steady, Contract, AllPossible, Run, Status, Strip, AskedNames;
    ApprovedIsGrounded(p, db, c);
    StatusNames(db, c);
    RunKeeps(p, db, actions);
  }

  lemma StatusNames(db: Db, c: Id)
    requires c in db.store.cpes && c in db.store.approvals && db.store.approvals[c].operation in db.ops
    ensures Status(db, c).operation == db.store.approvals[c].operation
  {}
}
