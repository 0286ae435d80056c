/** A reply that is sent again after it was recorded is recognised, whatever happened in between: the digest
    depends on the set of its entries and on nothing else. */
module Replay {
  import opened Text
  import opened Domain
  import opened Policies
  import opened Jobs
  import opened Queue
  import opened Invariants
  import opened AnswerProofs
  import opened OperationProofs
  import opened Runs
  import opened Effects

  /** The same reply, its entries perhaps in another order. */
  ghost predicate SameReply(a: Reply, b: Reply) {
    && a.rpcId == b.rpcId
    && match a
       case FaultReply(_, code) => b.FaultReply? && b.code == code
       case NamesReply(_, names) => b.NamesReply? && SameEntries(InfoName, names, b.names)
       case ValuesReply(_, ps) => b.ValuesReply? && SameEntries(ParameterName, ps, b.parameters)
  }

  lemma SameSize<T(!new)>(key: T -> string, a: seq<T>, b: seq<T>)
    requires SameEntries(key, a, b)
    ensures |a| == |b|
  {
    SortCanonical(key, a, b);
    SortMembers(key, a);
    SortMembers(key, b);
  }

  lemma SameMapped<T(!new)>(key: T -> string, f: T -> Item, a: seq<T>, b: seq<T>)
    requires SameEntries(key, a, b) && forall x :: f(x).name == key(x)
    ensures SortBy(ItemName, MapItems(f, a)) == SortBy(ItemName, MapItems(f, b))
  {
    MappedDistinct(key, f, a);
    MappedDistinct(key, f, b);
    forall x ensures x in MapItems(f, a) <==> x in MapItems(f, b) {
      MapItemsMembers(f, a, x);
      MapItemsMembers(f, b, x);
    }
    SortCanonical(ItemName, MapItems(f, a), MapItems(f, b));
  }

  lemma SameNameSet(a: seq<Parameter>, b: seq<Parameter>)
    requires forall x :: x in a <==> x in b
    ensures NameSet(a) == NameSet(b)
    ensures (exists q :: q in a && q.xsdType != "xsd:string") <==> (exists q :: q in b && q.xsdType != "xsd:string")
  {}

  lemma StableTelemetry(p: Policy, a: Plan, b: Plan, ps: seq<Parameter>, qs: seq<Parameter>, t: Time, u: Time, i: Id,
                        k: Id)
    requires StableJudgement(p) && SameCore(a, b) && SameEntries(ParameterName, ps, qs) && AnswersPlan(ps, a)
             && Measured(a.scope)
    ensures var x, y := JudgeTelemetry(p, a, ps, t, i), JudgeTelemetry(p, b, qs, u, k);
            x.reason == y.reason && x.items == y.items
  {
    var x, y := p.collect(ps, a, t, i), p.collect(qs, b, u, k);
    if x.Some? {
      SortCanonical(ItemName, p.collectionResults(ps, a, x.value), p.collectionResults(qs, b, y.value));
    }
  }

  lemma StableInventory(p: Policy, a: Plan, b: Plan, ps: seq<Parameter>, qs: seq<Parameter>, t: Time, u: Time, i: Id,
                        k: Id)
    requires StableJudgement(p) && SameCore(a, b) && SameEntries(ParameterName, ps, qs)
    ensures var x, y := JudgeInventory(p, a, ps, t, i), JudgeInventory(p, b, qs, u, k);
            x.Some? == y.Some? && (x.Some? ==> x.value.reason == y.value.reason && x.value.items == y.value.items)
  {}

  lemma StableNames(p: Policy, a: Plan, b: Plan, ns: seq<Info>, ms: seq<Info>)
    requires StableJudgement(p) && SameCore(a, b) && SameEntries(InfoName, ns, ms)
    ensures JudgeNames(p, a, ns).reason == JudgeNames(p, b, ms).reason
            && JudgeNames(p, a, ns).items == JudgeNames(p, b, ms).items
  {
    hide ReportedUnder;
    SameMapped(InfoName, NameItem, p.discoveryNames(ns, a), p.discoveryNames(ms, b));
  }

  lemma StableValues(p: Policy, ask: Ask, a: Plan, b: Plan, ps: seq<Parameter>, qs: seq<Parameter>, t: Time, u: Time,
                     i: Id, k: Id)
    requires StableJudgement(p) && SameCore(a, b) && SameEntries(ParameterName, ps, qs)
    ensures var x, y := JudgeValues(p, ask, a, ps, t, i), JudgeValues(p, ask, b, qs, u, k);
            x.Some? == y.Some? && (x.Some? ==> x.value.reason == y.value.reason && x.value.items == y.value.items)
  {
    hide JudgeTelemetry, JudgeInventory;
    SameNameSet(ps, qs);
    SameSize(ParameterName, ps, qs);
    if NameSet(ps) == SetOf(a.names) {
      assert AnswersPlan(ps, a);
      if Measured(a.scope) {
        StableTelemetry(p, a, b, ps, qs, t, u, i, k);
      } else if ask.requested != [] {
        SameSize(ParameterName, p.permitted(ps, a), p.permitted(qs, b));
        SameMapped(ParameterName, ValueItem, p.permitted(ps, a), p.permitted(qs, b));
      } else {
        StableInventory(p, a, b, ps, qs, t, u, i, k);
      }
    }
  }

  /** The digest of a reply is the same for every ordering of its entries, at every time and under every plan with the
      same core. */
  lemma DigestStable(p: Policy, ask: Ask, a: Plan, b: Plan, r: Reply, q: Reply, t: Time, u: Time, i: Id, k: Id)
    requires StableJudgement(p) && SameCore(a, b) && SameReply(r, q)
    ensures var x, y := Judge(p, ask, a, r, t, i), Judge(p, ask, b, q, u, k);
            x.Some? == y.Some? && (x.Some? ==> DigestOf(r, x.value) == DigestOf(q, y.value))
  {
    hide StableJudgement, JudgeValues, JudgeNames, SameCore;
    match r
    case FaultReply(_, _) =>
    case ValuesReply(_, ps) => if ask.kind.GetValues? { StableValues(p, ask, a, b, ps, q.parameters, t, u, i, k); }
    case NamesReply(_, ns) => if ask.kind.GetNames? { StableNames(p, a, b, ns, q.names); }
  }

  // ----- A recorded reply sent again -----

  lemma OnlyAttempt(p: Policy, db: Db, token: string, rpcId: string, id: Id)
    requires Core(p, db) && id in db.attempts && db.attempts[id].session == token && db.attempts[id].rpcId == rpcId
    ensures AttemptFor(db.attempts, token, rpcId) == Some(id)
  {
    hide JobsOk, OneRunning, Accounted, CatalogSourced, ValuesSourced, StoreOk, OneActive, JobsDrive, OpKeys, JobKeys,
      OpsOk, WaitersAttempted, AttemptsOk;
  }

  /** What recording an answer leaves on its attempt. */
  lemma RecordedDigest(p: Policy, db: Db, token: string, reply: Reply, now: Time, id: Id)
    requires Contract(p) && Inv(p, db) && token in db.sessions && Answer(p, db, token, reply, now).Commit?
    requires AnsweredBetween(db, Answer(p, db, token, reply, now).db, token, id)
    ensures id in db.ops && db.attempts[id].rpcId == reply.rpcId && db.sessions[token].cpe in db.store.cpes
    ensures var plan := RowPlan(p, TargetOf(CpeOf(db, token)), db.ops[id].ask);
            && plan.Some? && Judge(p, db.ops[id].ask, plan.value, reply, now, id).Some?
            && Answer(p, db, token, reply, now).db.attempts[id].digest ==
                 Some(DigestOf(reply, Judge(p, db.ops[id].ask, plan.value, reply, now, id).value))
  {
    hide Core, Steady, RowPlan, Judge, Contract, AdvanceActive, DigestOf, Stored, CatalogAll, ValuesAll, Truncate,
      AnsweredOp;
    var found := AttemptFor(db.attempts, token, reply.rpcId);
    AttemptConcerns(p, db, token, found.value);
    OneAttempt(p, db, found.value, id);
    var plan := RowPlan(p, TargetOf(CpeOf(db, token)), db.ops[id].ask);
    if plan.Some? && Judge(p, db.ops[id].ask, plan.value, reply, now, id).Some? {
      var v := Judge(p, db.ops[id].ask, plan.value, reply, now, id).value;
      var evidence := if Captures(db.ops[id], v) then p.evidence(reply, plan.value, db.ops[id].ask.kind, now) else None;
      AdvanceActiveQuiet(p, Recorded(p, db, token, id, plan.value, reply, v, evidence, now), db.sessions[token].cpe,
                         now);
    }
  }

  lemma OneAttempt(p: Policy, db: Db, i: Id, k: Id)
    requires Core(p, db) && i in db.attempts && k in db.attempts && db.attempts[i].session == db.attempts[k].session
    ensures i == k
  {
    hide JobsOk, OneRunning, Accounted, CatalogSourced, ValuesSourced, StoreOk, OneActive, JobsDrive, OpKeys, JobKeys,
      OpsOk, WaitersAttempted, AttemptsOk;
  }

  /** The plan found for a recorded operation later on, rebuilt or restored, has the core of the plan it was judged
      under. */
  lemma LaterPlan(p: Policy, t1: Target, t2: Target, ask: Ask)
    requires StablePlans(p) && RowPlan(p, t1, ask).Some?
    ensures var a, b := RowPlan(p, t1, ask).value, RowPlan(p, t2, ask);
            var c := if b.Some? then b
              else p.restore(ask.profileId, ask.profileVersion, ask.scope, ask.path, ask.requested);
            c.Some? && SameCore(a, c.value)
  {}

  lemma ReplayRecognised(p: Policy, db: Db, token: string, reply: Reply, now: Time, id: Id, ask: Ask, plan: Plan,
                         first: Reply, was: Time, target: Target)
    requires Contract(p) && StablePlans(p) && StableJudgement(p) && Inv(p, db) && SameReply(first, reply)
    requires token in db.sessions && id in db.attempts && db.attempts[id].session == token
             && db.attempts[id].rpcId == reply.rpcId
    requires id in db.ops && db.ops[id].ask == ask && (db.ops[id].state.Succeeded? || db.ops[id].state.Failed?)
    requires RowPlan(p, target, ask) == Some(plan) && Judge(p, ask, plan, first, was, id).Some?
    requires db.attempts[id].digest == Some(DigestOf(first, Judge(p, ask, plan, first, was, id).value))
    ensures Answer(p, db, token, reply, now) == Commit(db, None)
  {
    hide Core, Steady, RowPlan, Judge, Contract, StablePlans, StableJudgement, DigestOf, SameCore, SameReply;
    OnlyAttempt(p, db, token, reply.rpcId, id);
    AttemptConcerns(p, db, token, id);
    LaterPlan(p, target, TargetOf(CpeOf(db, token)), ask);
    var b := RowPlan(p, TargetOf(CpeOf(db, token)), ask);
    var c := if b.Some? then b else p.restore(ask.profileId, ask.profileVersion, ask.scope, ask.path, ask.requested);
    DigestStable(p, ask, plan, c.value, first, reply, was, now, id, id);
  }

  /** Once an exchange has recorded a reply, sending the reply again is accepted after any further steps, in any order
      of its entries, at any time and even when the device's firmware has changed; it records nothing. */
  lemma ReplayAccepted(p: Policy, db: Db, token: string, first: Reply, rpcId: string, was: Time, id: Id,
                       actions: seq<Action>, reply: Reply, again: string, now: Time)
    requires Contract(p) && StablePlans(p) && StableJudgement(p) && Inv(p, db) && AllPossible(actions)
    requires DistinctReply(first) && SameReply(first, reply) && token in db.sessions
             && db.sessions[token].cpe in db.store.cpes
    requires Exchange(p, db, token, Some(first), rpcId, was).Commit?
    requires AnsweredBetween(db, Exchange(p, db, token, Some(first), rpcId, was).db, token, id)
    ensures var later := Run(p, Exchange(p, db, token, Some(first), rpcId, was).db, actions);
            && token in later.sessions
            && Exchange(p, later, token, Some(reply), again, now)
               == Commit(Prepared(p, later, later.sessions[token].cpe, now), None)
            && SameRecords(later, Prepared(p, later, later.sessions[token].cpe, now))
  {
    hide Inv, Contract, StablePlans, StableJudgement, AllPossible, Run, Answer, AnsweredBetween, Lasts, Evolves,
      Prepared, RowPlan, Judge, DigestOf, SameReply, DistinctReply;
    var cpe := db.sessions[token].cpe;
    var d0, d1 := Prepared(p, db, cpe, was), Exchange(p, db, token, Some(first), rpcId, was).db;
    var later := Run(p, d1, actions);
    ExchangeAnswers(p, db, token, first, rpcId, was, id);
    RunKeeps(p, d1, actions);
    RunLasts(p, d1, actions);
    TokenStays(p, d1, later, token);
    var d2 := Prepared(p, later, later.sessions[token].cpe, now);
    PreparedLater(p, later, later.sessions[token].cpe, now);
    RecordedStays(p, d0, d1, later, d2, token, id);
    ReplyIds(first, reply);
    var target := TargetOf(CpeOf(d0, token));
    var ask := d0.ops[id].ask;
    ReplayRecognised(p, d2, token, reply, now, id, ask, RowPlan(p, target, ask).value, first, was, target);
    assert Exchange(p, later, token, Some(reply), again, now)
           == Answer(p, d2, token, reply, now) by { ExchangeIs(p, later, token, reply, again, now); }
  }

  lemma ReplyIds(a: Reply, b: Reply)
    requires SameReply(a, b)
    ensures a.rpcId == b.rpcId
  {}

  lemma ExchangeIs(p: Policy, db: Db, token: string, reply: Reply, rpcId: string, now: Time)
    requires token in db.sessions && db.sessions[token].cpe in db.store.cpes
    ensures Exchange(p, db, token, Some(reply), rpcId, now)
            == Answer(p, Prepared(p, db, db.sessions[token].cpe, now), token, reply, now)
  {
    hide Answer, Expire, AdvanceActive;
    PreparedSessions(p, db, db.sessions[token].cpe, now, token);
  }

  lemma PreparedSessions(p: Policy, db: Db, cpe: Id, now: Time, token: string)
    requires token in db.sessions
    ensures token in Prepared(p, db, cpe, now).sessions
  {
    hide Prepared, SameRecords, AttemptsLast;
    PreparedQuiet(p, db, cpe, now);
  }

  lemma TokenStays(p: Policy, d1: Db, later: Db, token: string)
    requires Lasts(d1, later) && token in d1.sessions && Inv(p, later)
    ensures token in later.sessions && later.sessions[token].cpe == d1.sessions[token].cpe
            && later.sessions[token].cpe in later.store.cpes
  {
    hide JobsOk, OneRunning, Accounted, CatalogSourced, ValuesSourced, StoreOk, OneActive, JobsDrive, OpKeys, JobKeys,
      Coupled, Steady, AttemptsLast;
  }

  lemma PreparedLater(p: Policy, db: Db, cpe: Id, now: Time)
    requires Contract(p) && Inv(p, db)
    ensures var d := Prepared(p, db, cpe, now);
            Inv(p, d) && Evolves(db.ops, d.ops) && Lasts(db, d) && SameRecords(db, d)
  {
    hide Inv, Prepared, Evolves, Lasts, PlanContract;
    PreparedKeeps(p, db, cpe, now);
    PreparedQuiet(p, db, cpe, now);
  }

  lemma ExchangeAnswers(p: Policy, db: Db, token: string, first: Reply, rpcId: string, was: Time, id: Id)
    requires Contract(p) && Inv(p, db) && DistinctReply(first) && token in db.sessions
             && db.sessions[token].cpe in db.store.cpes
    requires Exchange(p, db, token, Some(first), rpcId, was).Commit?
    requires AnsweredBetween(db, Exchange(p, db, token, Some(first), rpcId, was).db, token, id)
    ensures var cpe := db.sessions[token].cpe;
            var d0, d1 := Prepared(p, db, cpe, was), Exchange(p, db, token, Some(first), rpcId, was).db;
            && Inv(p, d1) && Lasts(d0, d1) && Evolves(d0.ops, d1.ops)
            && token in d0.sessions && d0.sessions[token].cpe in d0.store.cpes && token in d1.sessions
            && id in d0.ops && id in d0.attempts && d0.attempts[id].session == token
            && d0.attempts[id].rpcId == first.rpcId
            && id in d1.ops && (d1.ops[id].state.Succeeded? || d1.ops[id].state.Failed?) && id in d1.attempts
            && var plan := RowPlan(p, TargetOf(CpeOf(d0, token)), d0.ops[id].ask);
               && plan.Some? && Judge(p, d0.ops[id].ask, plan.value, first, was, id).Some?
               && d1.attempts[id].digest
                 == Some(DigestOf(first, Judge(p, d0.ops[id].ask, plan.value, first, was, id).value))
  {
    hide Inv, Contract, Answer, AnsweredBetween, Evolves, Prepared, RowPlan, Judge, DigestOf, AttemptsLast, Exchange;
    var cpe := db.sessions[token].cpe;
    var d0 := Prepared(p, db, cpe, was);
    ExchangeIs(p, db, token, first, rpcId, was);
    PreparedLater(p, db, cpe, was);
    AnswerKeepsAll(p, d0, token, first, was);
    var d1 := Answer(p, d0, token, first, was).db;
    AnsweredAlso(p, db, d0, d1, token, id, cpe, was);
    RecordedDigest(p, d0, token, first, was, id);
    AnsweredFacts(d0, d1, token, id);
  }

  lemma AnswerKeepsAll(p: Policy, db: Db, token: string, reply: Reply, now: Time)
    requires Contract(p) && DistinctReply(reply) && Inv(p, db) && token in db.sessions
             && Answer(p, db, token, reply, now).Commit?
    ensures var d := Answer(p, db, token, reply, now).db; Inv(p, d) && Evolves(db.ops, d.ops) && Lasts(db, d)
  {
    hide Inv, Contract, Answer, Evolves, Lasts, SameRecords, AnsweredBetween, DistinctReply;
    AnswerKeeps(p, db, token, reply, now);
    AnswerEffects(p, db, token, reply, now);
  }

  lemma AnsweredFacts(db: Db, later: Db, token: string, id: Id)
    requires AnsweredBetween(db, later, token, id)
    ensures id in db.ops && id in db.attempts && db.attempts[id].session == token
    ensures id in later.ops && (later.ops[id].state.Succeeded? || later.ops[id].state.Failed?) && id in later.attempts
  {}

  lemma AnsweredAlso(p: Policy, db: Db, d0: Db, d1: Db, token: string, id: Id, cpe: Id, now: Time)
    requires Contract(p) && Inv(p, db) && d0 == Prepared(p, db, cpe, now) && AnsweredBetween(db, d1, token, id)
             && Evolves(d0.ops, d1.ops)
    requires Inv(p, d0) && Inv(p, d1) && token in d0.sessions && token in d1.sessions && Lasts(d0, d1)
    ensures AnsweredBetween(d0, d1, token, id)
  {
    hide Inv, Core, Steady, Prepared, PlanContract, PermittedContract, DiscoveryContract, ObservationContract;
    PreparedKeeps(p, db, cpe, now);
    PreparedQuiet(p, db, cpe, now);
    CoreOfInv(p, d0);
    CoreOfInv(p, d1);
    AttemptConcerns(p, d0, token, id);
    AttemptConcerns(p, d1, token, id);
  }

  lemma RecordedStays(p: Policy, d0: Db, d1: Db, later: Db, d2: Db, token: string, id: Id)
    requires Lasts(d1, later) && Lasts(later, d2) && Evolves(d1.ops, later.ops) && Evolves(later.ops, d2.ops)
             && Evolves(d0.ops, d1.ops)
    requires Lasts(d0, d1) && token in d0.sessions
    requires id in d0.ops && id in d0.attempts && d0.attempts[id].session == token
    requires id in d1.ops && (d1.ops[id].state.Succeeded? || d1.ops[id].state.Failed?) && id in d1.attempts
             && d1.attempts[id].digest.Some?
    ensures token in d2.sessions && id in d2.attempts && d2.attempts[id] == d1.attempts[id]
            && d1.attempts[id].session == token
    ensures d1.attempts[id].rpcId == d0.attempts[id].rpcId
    ensures id in d2.ops && d2.ops[id] == d1.ops[id] && d1.ops[id].ask == d0.ops[id].ask
  {}
}
