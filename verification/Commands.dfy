/** Which command an exchange hands to the device: the request that its one operation stored, and nothing else. */
module Commands {
  import opened Text
  import opened Domain
  import opened Policies
  import opened Jobs
  import opened Registers
  import opened Queue
  import opened Invariants
  import opened QueueProofs
  import opened AdvanceProofs
  import opened OperationProofs
  import opened Effects

  // ----- What may be handed out -----

  /** The operation that a session may hand out: the one it waits for, or a pending one of its CPE while it awaits the
      empty request. */
  predicate Offered(db: Db, token: string, id: Id)
    requires token in db.sessions
  {
    var s := db.sessions[token];
    id in db.ops && db.ops[id].ask.cpe == s.cpe
    && ((s.state.AwaitingResponse? && id in db.attempts && db.attempts[id].session == token)
        || (s.state.AwaitingEmpty? && db.ops[id].state.Pending?))
  }

  /** The device still gets the plan that the operation was created with. */
  predicate StillPlanned(p: Policy, target: Target, ask: Ask) {
    var plan := p.plan(target, ask.scope, ask.path, ask.requested);
    plan.Some? && plan.value.profileId == ask.profileId && plan.value.profileVersion == ask.profileVersion
    && plan.value.target.firmware == ask.firmware
  }

  /** The command is the stored request of an operation in flight in this very session. */
  ghost predicate Handed(p: Policy, db: Db, token: string, c: Command) {
    && token in db.sessions && db.sessions[token].state.AwaitingResponse? && db.sessions[token].cpe in db.store.cpes
    && c.operation in db.ops && c.operation in db.attempts
    && var ask, target := db.ops[c.operation].ask, TargetOf(db.store.cpes[db.sessions[token].cpe]);
    && db.ops[c.operation].state.Dispatched? && ask.cpe == db.sessions[token].cpe
    && db.attempts[c.operation].session == token && db.attempts[c.operation].rpcId == c.rpcId
    && c.kind == ask.kind && PlanFits(p.defaults, c.plan, target, ask.scope, ask.path, ask.requested)
    && c.plan.profileId == ask.profileId && c.plan.profileVersion == ask.profileVersion
    && c.plan.target.firmware == ask.firmware
  }

  lemma PlannedRow(p: Policy, target: Target, ask: Ask)
    requires PlanContract(p)
    ensures RowPlan(p, target, ask).Some? <==> StillPlanned(p, target, ask)
    ensures RowPlan(p, target, ask).Some? ==>
      var plan := RowPlan(p, target, ask).value;
      && PlanFits(p.defaults, plan, target, ask.scope, ask.path, ask.requested) && plan.profileId == ask.profileId
      && plan.profileVersion == ask.profileVersion && plan.target.firmware == ask.firmware
  {
    hide PlanFits;
  }

  lemma OneOffer(p: Policy, db: Db, token: string, id: Id, other: Id)
    requires Core(p, db) && token in db.sessions && Offered(db, token, id) && Offered(db, token, other)
    ensures id == other
  {
    hide JobsOk, CatalogSourced, ValuesSourced, StoreOk, OneRunning, JobsDrive, Accounted, OpKeys, JobKeys, OpsLinked,
      JobsLinked, CpesLinked, SessionsLinked, OpsOk, AttemptsOk, WaitersAttempted;
  }

  /** The operation that the lookups of a poll find is the one on offer. */
  lemma FoundOffer(p: Policy, db: Db, token: string)
    requires Core(p, db) && token in db.sessions && !db.sessions[token].state.Completed?
    ensures var s := db.sessions[token];
            var found := if s.state.AwaitingResponse? then AttemptOf(db.attempts, token) else PendingOp(db.ops, s.cpe);
            && s.cpe in db.store.cpes && (s.state.AwaitingResponse? ==> found.Some?)
            && (found.Some? ==>
                  Offered(db, token, found.value) && Concerns(db, token, found.value)
                  && forall id | Offered(db, token, id) :: id == found.value)
            && (found.None? ==> forall id :: !Offered(db, token, id))
  {
    hide Core, AttemptOk;
    PollConcerns(p, db, token);
    var s := db.sessions[token];
    var found := if s.state.AwaitingResponse? then AttemptOf(db.attempts, token) else PendingOp(db.ops, s.cpe);
    if found.Some? {
      if s.state.AwaitingResponse? { AttemptConcerns(p, db, token, found.value); }
      forall id | Offered(db, token, id) ensures id == found.value { OneOffer(p, db, token, id, found.value); }
    }
  }

  /** The operation is in flight in this session from now on, for at most a minute and not past its own deadline, under
      the new identifier; nothing else changes. */
  ghost predicate Dispatched(db: Db, later: Db, token: string, id: Id, rpcId: string, now: Time)
    requires token in db.sessions && id in db.ops
  {
    var deadline := if db.ops[id].expiresAt <= now + 60 then db.ops[id].expiresAt else now + 60;
    && id in later.ops && id in later.attempts && token in later.sessions
    && later == db.(ops := db.ops[id := later.ops[id]], attempts := db.attempts[id := later.attempts[id]],
                    sessions := db.sessions[token := later.sessions[token]])
    && later.ops[id] == db.ops[id].(state := OpState.Dispatched, expiresAt := deadline)
    && later.attempts[id].session == token && later.attempts[id].rpcId == rpcId
    && later.attempts[id].dispatchedAt == now
    && later.attempts[id].expiresAt == deadline && later.attempts[id].digest.None?
    && later.sessions[token] == db.sessions[token].(state := AwaitingResponse, expiresAt := deadline)
  }

  /** What a poll hands out, and what becomes of an operation whose profile no longer applies. */
  ghost predicate Polled(p: Policy, db: Db, token: string, rpcId: string, now: Time, o: Outcome<Option<Command>>)
    requires token in db.sessions && o.Commit? && db.sessions[token].cpe in db.store.cpes
  {
    var s, target := db.sessions[token], TargetOf(db.store.cpes[db.sessions[token].cpe]);
    && (o.result.Some? <==>
          !s.state.Completed? && exists id :: Offered(db, token, id) && StillPlanned(p, target, db.ops[id].ask))
    && (o.result.Some? ==>
          && Handed(p, o.db, token, o.result.value) && Offered(db, token, o.result.value.operation)
          && (s.state.AwaitingEmpty? ==> Dispatched(db, o.db, token, o.result.value.operation, rpcId, now))
          && (s.state.AwaitingResponse? ==> o.db == db))
    && (forall id | Offered(db, token, id) && !StillPlanned(p, target, db.ops[id].ask) ::
          && id in o.db.ops && o.db.ops[id].state.Failed? && o.db.ops[id].reason == Some(ProfileChanged)
          && token in o.db.sessions && o.db.sessions[token].state.Completed?)
  }

  /** A poll that finds an operation on offer hands it out, or fails it. */
  lemma PollFound(p: Policy, db: Db, token: string, rpcId: string, now: Time, id: Id)
    requires PlanContract(p) && token in db.sessions && Poll(p, db, token, rpcId, now).Commit?
    requires var s := db.sessions[token];
             && !s.state.Completed? && s.cpe in db.store.cpes && Offered(db, token, id) && Concerns(db, token, id)
             && (forall other | Offered(db, token, other) :: other == id)
             && (if s.state.AwaitingResponse? then AttemptOf(db.attempts, token) else PendingOp(db.ops, s.cpe))
                == Some(id)
             && (s.state.AwaitingResponse? ==> db.ops[id].state.Dispatched?)
    ensures Polled(p, db, token, rpcId, now, Poll(p, db, token, rpcId, now))
  {
    hide PlanContract, PlanFits, RowPlan, StillPlanned, Concerns, AttemptOf, PendingOp;
    PlannedRow(p, TargetOf(db.store.cpes[db.sessions[token].cpe]), db.ops[id].ask);
  }

  lemma PollHands(p: Policy, db: Db, token: string, rpcId: string, now: Time)
    requires PlanContract(p) && Inv(p, db) && token in db.sessions && Poll(p, db, token, rpcId, now).Commit?
    ensures db.sessions[token].cpe in db.store.cpes && Polled(p, db, token, rpcId, now, Poll(p, db, token, rpcId, now))
  {
    hide Inv, Core, PlanContract, PlanFits, RowPlan, StillPlanned, Concerns, Handed, Dispatch, FailedProfile, Finish;
    CoreOfInv(p, db);
    PollConcerns(p, db, token);
    var s := db.sessions[token];
    if s.state.Completed? {
      assert forall id :: !Offered(db, token, id);
    } else {
      FoundOffer(p, db, token);
      var found := if s.state.AwaitingResponse? then AttemptOf(db.attempts, token) else PendingOp(db.ops, s.cpe);
      if found.Some? {
        if s.state.AwaitingResponse? { AttemptConcerns(p, db, token, found.value); }
        PollFound(p, db, token, rpcId, now, found.value);
      }
    }
  }

  /** Exactly when an exchange without a reply is answered by a command, and which: with `d` the tables once overdue
      work is expired and the job advanced, it is the stored kind, plan and names of the one operation on offer, under
      the request identifier of its attempt. Without an operation on offer the answer is empty, and an operation whose
      profile no longer applies fails. */
  lemma ExchangeHands(p: Policy, db: Db, token: string, rpcId: string, now: Time)
    requires PlanContract(p) && Inv(p, db) && Exchange(p, db, token, None, rpcId, now).Commit?
    ensures token in db.sessions
    ensures var o, d := Exchange(p, db, token, None, rpcId, now), Prepared(p, db, db.sessions[token].cpe, now);
            && token in d.sessions && d.sessions[token].cpe in d.store.cpes && Polled(p, d, token, rpcId, now, o)
  {
    hide Inv, PlanContract, Poll, Expire, AdvanceActive, Polled, Evolves;
    PreparedKeeps(p, db, db.sessions[token].cpe, now);
    PollHands(p, Prepared(p, db, db.sessions[token].cpe, now), token, rpcId, now);
  }

  /** An exchange without a reply is refused exactly when its session has neither ended nor time left, and one that
      carries a reply is never answered by a command. */
  lemma ExchangeRefuses(p: Policy, db: Db, token: string, rpcId: string, now: Time)
    requires PlanContract(p) && Inv(p, db) && token in db.sessions && db.sessions[token].cpe in db.store.cpes
    ensures var s := Prepared(p, db, db.sessions[token].cpe, now).sessions;
            token in s && (Exchange(p, db, token, None, rpcId, now).Raised? <==>
                             !s[token].state.Completed? && s[token].expiresAt <= now)
    ensures forall reply, o | o == Exchange(p, db, token, Some(reply), rpcId, now) && o.Commit? :: o.result.None?
  {
    hide Inv, PlanContract, Poll, Expire, AdvanceActive, Evolves, RowPlan, Judge, Recorded, FailedProfile, Finish,
      DigestOf;
    PreparedKeeps(p, db, db.sessions[token].cpe, now);
    PollKeeps(p, Prepared(p, db, db.sessions[token].cpe, now), token, rpcId, now);
  }
}
