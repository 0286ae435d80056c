/** Which names recent discovery offers for a measured read, and that the device itself reported every one of them. */
module Discoveries {
  import opened Text
  import opened Domain
  import opened Policies
  import opened Jobs
  import opened Queue
  import opened Invariants
  import opened QuietSteps
  import opened OperationProofs
  import opened Runs
  import opened Effects
  import opened ReplyLog
  import opened WalkResults
  import opened ObservedRuns
  import opened ApprovalLapse
  import opened Origins
  import opened QueueProofs
  import opened AdvanceProofs
  import AnswerProofs
  import OpRules
  import Validation
  import Acceptance

  // ----- The discoveries that count -----

  /** A discovery of the CPE that succeeded under its present firmware within the last day. */
  predicate Recent(op: Op, cpe: Id, firmware: Option<string>, now: Time) {
    op.ask.cpe == cpe && op.ask.scope.Discovery? && op.state.Succeeded? && op.ask.firmware == firmware
    && op.finishedAt.Some? && op.finishedAt.value >= now - 24 * 60 * 60
  }

  function FinishedAt(op: Op): Time { if op.finishedAt.Some? then op.finishedAt.value else 0 }

  /** The latest first; of two that finished together, the one with the smaller identity. */
  predicate Ahead(ops: map<Id, Op>, i: Id, k: Id)
    requires i in ops && k in ops
  {
    FinishedAt(ops[i]) > FinishedAt(ops[k]) || (FinishedAt(ops[i]) == FinishedAt(ops[k]) && i < k)
  }

  function AheadOf(ops: map<Id, Op>, cpe: Id, firmware: Option<string>, now: Time, k: Id): set<Id>
    requires k in ops
  {
    set i | i in ops && Recent(ops[i], cpe, firmware, now) && Ahead(ops, i, k)
  }

  /** Among the latest 256 the first of its path. */
  predicate Counts(ops: map<Id, Op>, cpe: Id, firmware: Option<string>, now: Time, k: Id) {
    && k in ops && Recent(ops[k], cpe, firmware, now) && |AheadOf(ops, cpe, firmware, now, k)| < 256
    && forall i | i in AheadOf(ops, cpe, firmware, now, k) :: ops[i].ask.path != ops[k].ask.path
  }

  /** The names below the path that the discoveries that count hold in their results. */
  ghost predicate Offers(ops: map<Id, Op>, cpe: Id, firmware: Option<string>, path: string, now: Time, n: string) {
    StartsWith(n, path) && exists k, item ::
      Counts(ops, cpe, firmware, now, k) && item in ops[k].result && item.name == n
  }

  // ----- The loop that gathers them -----

  /** The rows of the query: the latest 256 recent discoveries, in order. */
  ghost predicate LatestRows(ops: map<Id, Op>, cpe: Id, firmware: Option<string>, now: Time, rows: seq<Id>) {
    && (forall k :: k in rows <==>
          k in ops && Recent(ops[k], cpe, firmware, now) && |AheadOf(ops, cpe, firmware, now, k)| < 256)
    && forall a, b | 0 <= a < b < |rows| :: rows[a] in ops && rows[b] in ops && Ahead(ops, rows[a], rows[b])
  }

  /** The row is the first of its path. */
  predicate FirstOfPath(ops: map<Id, Op>, rows: seq<Id>, k: nat)
    requires k < |rows| && forall i | i in rows :: i in ops
  {
    forall j | 0 <= j < k :: ops[rows[j]].ask.path != ops[rows[k]].ask.path
  }

  /** The names below the path in the results of the rows that come first of their path. */
  function Below(items: seq<Item>, path: string): set<string> {
    set i | i in items && StartsWith(i.name, path) :: i.name
  }

  ghost predicate Gathered(ops: map<Id, Op>, rows: seq<Id>, n: nat, path: string, names: set<string>)
    requires n <= |rows| && forall i | i in rows :: i in ops
  {
    forall x :: x in names <==>
      exists k :: 0 <= k < n && FirstOfPath(ops, rows, k) && x in Below(ops[rows[k]].result, path)
  }

  method GatherNames(ops: map<Id, Op>, rows: seq<Id>, path: string) returns (names: set<string>)
    requires forall i | i in rows :: i in ops
    ensures Gathered(ops, rows, |rows|, path, names)
  {
    hide Below;
    var visited: set<Option<string>> := {};
    names := {};
    for k := 0 to |rows|
      invariant visited == set j | 0 <= j < k :: ops[rows[j]].ask.path
      invariant Gathered(ops, rows, k, path, names)
    {
      var op := ops[rows[k]];
      assert op.ask.path in visited <==> !FirstOfPath(ops, rows, k);
      if op.ask.path !in visited {
        visited := visited + {op.ask.path};
        names := names + Below(op.result, path);
      }
    }
  }

  /** What the loop gathers of the rows of the query is what discovery offers. */
  lemma GatheredOffers(ops: map<Id, Op>, cpe: Id, firmware: Option<string>, now: Time, rows: seq<Id>, path: string,
                       names: set<string>)
    requires LatestRows(ops, cpe, firmware, now, rows) && Gathered(ops, rows, |rows|, path, names)
    ensures forall x :: x in names <==> Offers(ops, cpe, firmware, path, now, x)
  {
    hide Recent, Ahead;
    forall k | 0 <= k < |rows| ensures FirstOfPath(ops, rows, k) <==> Counts(ops, cpe, firmware, now, rows[k]) {
      FirstCounts(ops, cpe, firmware, now, rows, k);
    }
    forall x ensures x in names <==> Offers(ops, cpe, firmware, path, now, x) {
      if Offers(ops, cpe, firmware, path, now, x) {
        var k, item :| Counts(ops, cpe, firmware, now, k) && item in ops[k].result && item.name == x;
        assert k in rows;
        var n :| 0 <= n < |rows| && rows[n] == k;
        assert FirstOfPath(ops, rows, n) && x in Below(ops[rows[n]].result, path);
      }
      if x in names {
        var n :| 0 <= n < |rows| && FirstOfPath(ops, rows, n) && x in Below(ops[rows[n]].result, path);
        assert Counts(ops, cpe, firmware, now, rows[n]);
      }
    }
  }

  lemma FirstCounts(ops: map<Id, Op>, cpe: Id, firmware: Option<string>, now: Time, rows: seq<Id>, k: nat)
    requires LatestRows(ops, cpe, firmware, now, rows) && k < |rows|
    ensures FirstOfPath(ops, rows, k) <==> Counts(ops, cpe, firmware, now, rows[k])
  {
    hide Recent;
    assert rows[k] in rows;
    var ahead := AheadOf(ops, cpe, firmware, now, rows[k]);
    forall i | i in ahead ensures exists j ::
      0 <= j < k && rows[j] == i { AheadInRows(ops, cpe, firmware, now, rows, k, i); }
    forall j | 0 <= j < k ensures rows[j] in ahead { assert rows[j] in rows; }
  }

  /** What is ahead of a row is an earlier row. */
  lemma AheadInRows(ops: map<Id, Op>, cpe: Id, firmware: Option<string>, now: Time, rows: seq<Id>, k: nat, i: Id)
    requires LatestRows(ops, cpe, firmware, now, rows) && k < |rows| && rows[k] in ops
    requires i in AheadOf(ops, cpe, firmware, now, rows[k])
    ensures exists j :: 0 <= j < k && rows[j] == i
  {
    hide Recent;
    assert rows[k] in rows;
    var more, fewer := AheadOf(ops, cpe, firmware, now, rows[k]), AheadOf(ops, cpe, firmware, now, i);
    assert fewer <= more;
    Fewer(fewer, more);
    assert i in rows;
    var j :| 0 <= j < |rows| && rows[j] == i;
    assert j != k;
    assert !(Ahead(ops, rows[j], rows[k]) && Ahead(ops, rows[k], rows[j]));
  }

  lemma Fewer(a: set<Id>, b: set<Id>)
    requires a <= b
    ensures |a| <= |b|
  {
    var c := b - a;
    assert b == a + c;
  }

  // ----- What discovery offers was reported -----

  /** The result of a succeeded read of names lists names that its reply reported. */
  predicate ResultReported(op: Op, reply: Reply) {
    op.ask.kind.GetNames? ==>
      reply.NamesReply? && forall item | item in op.result :: exists i :: i in reply.names && item == NameItem(i)
  }

  ghost predicate ResultsReported(ops: map<Id, Op>, log: Log) {
    forall i | HasSucceeded(ops, i) :: i in log && ResultReported(ops[i], log[i].reply)
  }

  lemma NamesFrom(p: Policy, ask: Ask, plan: Plan, reply: Reply, now: Time, id: Id, item: Item)
    requires DiscoveryContract(p) && ask.kind.GetNames?
    requires var v := Judge(p, ask, plan, reply, now, id); v.Some? && v.value.reason.None?
    ensures reply.NamesReply?
    ensures item in Judge(p, ask, plan, reply, now, id).value.items ==>
              exists i :: i in reply.names && item == NameItem(i)
  {
    hide ReportedUnder;
    var kept := p.discoveryNames(reply.names, plan);
    SortMembers(ItemName, MapItems(NameItem, kept));
    if item in Judge(p, ask, plan, reply, now, id).value.items {
      AnswerProofs.MapItemsMembers(NameItem, kept, item);
    }
  }

  /** The operation that a recorded reply lets succeed lists names of that reply. */
  lemma RecordedResult(p: Policy, db: Db, token: string, reply: Reply, now: Time)
    requires Contract(p) && DistinctReply(reply) && Inv(p, db) && token in db.sessions
             && Recording(p, db, token, reply, now).Some?
    ensures var t, later := Recording(p, db, token, reply, now).value, Settle(db, Answer(p, db, token, reply, now));
            HasSucceeded(later.ops, t.id) ==> ResultReported(later.ops[t.id], reply)
  {
    hide Inv, Answer, Judge, RowPlan, PlanContract, PermittedContract, ObservationContract, DiscoveryContract,
      DigestOf;
    AnswerLeaves(p, db, token, reply, now);
    var t, later := Recording(p, db, token, reply, now).value, Settle(db, Answer(p, db, token, reply, now));
    if HasSucceeded(later.ops, t.id) && later.ops[t.id].ask.kind.GetNames? {
      NamesFrom(p, db.ops[t.id].ask, t.plan, reply, now, t.id, Item("", None, None));
      forall item | item in later.ops[t.id].result ensures exists i :: i in reply.names && item == NameItem(i) {
        NamesFrom(p, db.ops[t.id].ask, t.plan, reply, now, t.id, item);
      }
    }
  }

  /** Operations that succeeded before are as they were, and those that succeeded in the step answer its reply. */
  ghost predicate Succeeds(ops: map<Id, Op>, later: map<Id, Op>, reply: Option<Reply>) {
    && (forall i | HasSucceeded(ops, i) :: i in later && later[i] == ops[i])
    && (forall i | HasSucceeded(later, i) && !HasSucceeded(ops, i) ::
        reply.Some? && ResultReported(later[i], reply.value))
  }

  lemma SucceedsLogged(log: Log, ops: map<Id, Op>, later: map<Id, Op>, catalog: map<PathKey, CatalogRow>,
                       reply: Option<Reply>, now: Time)
    requires Succeeds(ops, later, reply) && ResultsReported(ops, log)
    ensures ResultsReported(later, Logged(log, ops, later, catalog, reply, now))
  {
    hide ResultReported;
    LoggedKeeps(log, ops, later, catalog, reply, now);
  }

  lemma QuietSucceeds(ops: map<Id, Op>, later: map<Id, Op>, reply: Option<Reply>)
    requires Evolves(ops, later) && NoNewSuccess(ops, later)
    ensures Succeeds(ops, later, reply)
  {}

  lemma SucceedsLater(ops: map<Id, Op>, mid: map<Id, Op>, later: map<Id, Op>, reply: Option<Reply>)
    requires Evolves(ops, mid) && NoNewSuccess(ops, mid) && Succeeds(mid, later, reply)
    ensures Succeeds(ops, later, reply)
  {}

  lemma AnswerSucceeds(p: Policy, db: Db, token: string, reply: Reply, now: Time)
    requires Contract(p) && DistinctReply(reply) && Inv(p, db) && token in db.sessions
    ensures Succeeds(db.ops, Settle(db, Answer(p, db, token, reply, now)).ops, Some(reply))
  {
    hide Inv, Answer, Recording, PlanContract, PermittedContract, ObservationContract, DiscoveryContract,
      ResultReported, Evolves, Stored, ValuesAll, DistinctReply, Lasts;
    AnswerKeeps(p, db, token, reply, now);
    AnswerStores(p, db, token, reply, now);
    var later := Settle(db, Answer(p, db, token, reply, now));
    EvolvesSame(db.ops);
    forall i | HasSucceeded(db.ops, i) ensures i in later.ops && later.ops[i] == db.ops[i] {
      StillFinished(db.ops, later.ops, i);
    }
    if Recording(p, db, token, reply, now).Some? { RecordedResult(p, db, token, reply, now); }
  }

  lemma StepSucceeds(p: Policy, db: Db, a: Action)
    requires Contract(p) && Inv(p, db) && Possible(a)
    ensures Succeeds(db.ops, Act(p, db, a).ops, ReplyIn(a))
  {
    hide PlanContract, PermittedContract, ObservationContract, DiscoveryContract, Inv, Succeeds, Create, Get,
      CreateJob, GetJob, Accept, Complete, Validation.Bind, Validation.Approve, DistinctReply, FromInform, QuietJob,
      NewJobQuiet, NoNewSuccess, Evolves, Poll, Answer, Expire, AdvanceActive;
    if a.DoExchange? {
      EvolvesSame(db.ops);
      NoneNew(db.ops);
      QuietSucceeds(db.ops, db.ops, a.reply);
      if a.token in db.sessions && db.sessions[a.token].cpe in db.store.cpes {
        var cpe := db.sessions[a.token].cpe;
        PreparedKeeps(p, db, cpe, a.now);
        PreparedQuietStep(p, db, cpe, a.now);
        var d := Prepared(p, db, cpe, a.now);
        if a.reply.None? {
          PollQuietStep(p, d, a.token, a.rpcId, a.now);
          EvolvesSame(d.ops);
          NoneNew(d.ops);
          QuietSucceeds(d.ops, Settle(d, Poll(p, d, a.token, a.rpcId, a.now)).ops, a.reply);
          SucceedsLater(db.ops, d.ops, Settle(d, Poll(p, d, a.token, a.rpcId, a.now)).ops, a.reply);
        } else {
          AnswerSucceeds(p, d, a.token, a.reply.value, a.now);
          SucceedsLater(db.ops, d.ops, Settle(d, Answer(p, d, a.token, a.reply.value, a.now)).ops, a.reply);
        }
      }
    } else {
      OthersQuietStep(p, db, a);
      QuietSucceeds(db.ops, Act(p, db, a).ops, None);
    }
  }

  /** After any run, what a succeeded read of names lists was reported by the reply that it recorded. */
  lemma {:induction false} ResultsOfRun(p: Policy, actions: seq<Action>)
    requires Contract(p) && AllPossible(actions)
    ensures ResultsReported(Run(p, EMPTY, actions).ops, LogOf(p, actions))
  {
    hide Contract, Possible, Act, Inv, Logged, ResultReported, Succeeds;
    if actions != [] {
      var before := actions[..|actions| - 1];
      ResultsOfRun(p, before);
      EmptyInv(p);
      RunKeeps(p, EMPTY, before);
      var db := Run(p, EMPTY, before);
      StepSucceeds(p, db, actions[|actions| - 1]);
      SucceedsLogged(LogOf(p, before), db.ops, Run(p, EMPTY, actions).ops, db.catalog, ReplyIn(actions[|actions| - 1]),
                     actions[|actions| - 1].now);
    }
  }

  /** Every name that discovery offers was reported by the device itself, in the reply to a discovery of it that
      succeeded under its present firmware within the last day. */
  lemma OfferedIsReported(p: Policy, actions: seq<Action>, cpe: Id, firmware: Option<string>, path: string, now: Time,
                          n: string)
    requires Contract(p) && AllPossible(actions) && Offers(Run(p, EMPTY, actions).ops, cpe, firmware, path, now, n)
    ensures StartsWith(n, path)
    ensures var ops, log := Run(p, EMPTY, actions).ops, LogOf(p, actions);
            exists k :: k in ops && k in log && Recent(ops[k], cpe, firmware, now) && n in NamesOf(log[k].reply)
  {
    hide Contract, AllPossible, Run, LogOf, Inv, AheadOf, Evolves;
    ResultsOfRun(p, actions);
    EmptyInv(p);
    RunKeeps(p, EMPTY, actions);
    var ops, log := Run(p, EMPTY, actions).ops, LogOf(p, actions);
    var k, item :| Counts(ops, cpe, firmware, now, k) && item in ops[k].result && item.name == n;
    DiscoveryReadsNames(p, Run(p, EMPTY, actions), k);
    var i :| i in log[k].reply.names && item == NameItem(i);
  }

  lemma DiscoveryReadsNames(p: Policy, db: Db, k: Id)
    requires Inv(p, db) && k in db.ops && db.ops[k].ask.scope.Discovery?
    ensures db.ops[k].ask.kind.GetNames?
  {
    hide Inv, Core;
    CoreOfInv(p, db);
    OpRules.OpOfCore(p, db, k);
  }

  // ----- Measured reads -----

  /** So a measured read, whose names must be among those that discovery offers, asks only for names that the device
      reported below its path within the last day and under its present firmware. */
  lemma MeasuredWasReported(p: Policy, actions: seq<Action>, r: Request, discovered: seq<string>, now: Time)
    requires Contract(p) && AllPossible(actions) && Measured(r.scope)
    requires var db := Run(p, EMPTY, actions);
             && Acceptance.NewKey(db.ops, r.cpe, ClientKey(r.key)) && Create(p, db, r, discovered, now).Commit?
             && r.cpe in db.store.cpes && r.path.Some?
             && forall n :: n in discovered <==>
                  Offers(db.ops, r.cpe, db.store.cpes[r.cpe].firmware, r.path.value, now, n)
    ensures var db, log := Run(p, EMPTY, actions), LogOf(p, actions);
            var o := Create(p, db, r, discovered, now);
            && o.result in o.db.ops && o.db.ops[o.result].ask.requested != []
            && forall n | n in o.db.ops[o.result].ask.requested ::
                 StartsWith(n, r.path.value)
                 && exists k ::
                      k in db.ops && k in log && Recent(db.ops[k], r.cpe, db.store.cpes[r.cpe].firmware, now)
                      && n in NamesOf(log[k].reply)
  {
    hide PermittedContract, ObservationContract, DiscoveryContract, PlanContract, AllPossible, Run, LogOf, Create,
      Offers, Recent, ReplyLog.NamesOf, StartsWith, Expire, Ascending;
    var db := Run(p, EMPTY, actions);
    Acceptance.AcceptsRequest(p, db, r, discovered, now);
    Acceptance.AcceptedAsks(p, db, r, discovered, now);
    var o := Create(p, db, r, discovered, now);
    forall n | n in o.db.ops[o.result].ask.requested ensures n in discovered {
      if r.names != [] { assert n in SetOf(o.db.ops[o.result].ask.requested) && n in SetOf(r.names); }
    }
    if r.names != [] { assert r.names[0] in SetOf(o.db.ops[o.result].ask.requested); }
    forall n | n in discovered
      ensures StartsWith(n, r.path.value)
              && exists k ::
                   k in db.ops && k in LogOf(p, actions)
                   && Recent(db.ops[k], r.cpe, db.store.cpes[r.cpe].firmware, now)
                   && n in NamesOf(LogOf(p, actions)[k].reply)
    {
      OfferedIsReported(p, actions, r.cpe, db.store.cpes[r.cpe].firmware, r.path.value, now, n);
    }
  }
}
