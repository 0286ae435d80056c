/** What a discovery job finds: an object named in a recorded reply is dispatched exactly when no newer row overtook
    it. */
module WalkCompleteness {
  import opened Text
  import opened Domain
  import opened Policies
  import opened Jobs
  import opened JobProofs
  import opened Queue
  import opened Invariants
  import opened QueueProofs
  import opened AdvanceProofs
  import opened AnswerProofs
  import opened OperationProofs
  import opened Effects
  import opened QuietSteps
  import opened ReplyLog

  // ----- One job -----

  ghost predicate IsDispatched(ids: seq<Id>, ops: map<Id, Op>, name: string) {
    exists i :: i in ids && i in ops && Path(ops[i]) == name
  }

  ghost predicate Awaited(frontier: seq<Step>, name: string) { exists f :: f in frontier && StepPath(f) == name }

  ghost predicate Reached(ids: seq<Id>, ops: map<Id, Op>, frontier: seq<Step>, name: string) {
    IsDispatched(ids, ops, name) || Awaited(frontier, name)
  }

  /** The objects that the reply named. */
  predicate NamedObject(r: Receipt, name: string) { name in NamesOf(r.reply) && IsObjectName(name) }

  /** An object named in the reply to one of the operations `done` is dispatched or waiting exactly when it was not
      overtaken. */
  ghost predicate FoundAmong(done: set<Id>, ids: seq<Id>, ops: map<Id, Op>, frontier: seq<Step>, log: Log) {
    forall i, name | i in done :: FoundName(i, name, ids, ops, frontier, log)
  }

  ghost predicate FoundName(i: Id, name: string, ids: seq<Id>, ops: map<Id, Op>, frontier: seq<Step>, log: Log) {
    i in log && i in ops && NamedObject(log[i], name) ==>
      DirectChild(Path(ops[i]), name) && (name !in log[i].overtaken <==> Reached(ids, ops, frontier, name))
  }

  ghost predicate Found(job: Job, ops: map<Id, Op>, log: Log) {
    Clean(job) ==> FoundAmong(DoneIds(job), job.opIds, ops, job.frontier, log)
  }

  lemma EvolveReached(ids: seq<Id>, ops: map<Id, Op>, later: map<Id, Op>, frontier: seq<Step>)
    requires AllIn(ids, ops) && Evolves(ops, later)
    ensures forall name :: Reached(ids, later, frontier, name) <==> Reached(ids, ops, frontier, name)
    ensures forall i | i in ids :: Path(later[i]) == Path(ops[i])
  {
    forall name ensures IsDispatched(ids, later, name) <==> IsDispatched(ids, ops, name) {
      if i :| i in ids && i in ops && Path(ops[i]) == name { assert i in later && Path(later[i]) == name; }
    }
  }

  /** A job that is not touched keeps what it found, whatever is logged for operations of others. */
  lemma SameFound(job: Job, ops: map<Id, Op>, later: map<Id, Op>, log: Log, next: Log)
    requires Found(job, ops, log) && AllIn(job.opIds, ops) && Evolves(ops, later)
    requires forall i | i in DoneIds(job) :: (i in next <==> i in log) && (i in log ==> next[i] == log[i])
    ensures Found(job, later, next)
  {
    hide Evolves, Reached, NamedObject, DirectChild, Path;
    EvolveReached(job.opIds, ops, later, job.frontier);
    if Clean(job) {
      forall i, name | i in DoneIds(job) ensures FoundName(i, name, job.opIds, later, job.frontier, next) {
        assert i in job.opIds && FoundName(i, name, job.opIds, ops, job.frontier, log);
      }
    }
  }

  lemma QuietFound(job: Job, next: Job, ops: map<Id, Op>, later: map<Id, Op>, log: Log)
    requires QuietJob(job, next, later) && job.spec.kind.WalkJob? && Found(job, ops, log) && AllIn(job.opIds, ops)
             && Evolves(ops, later)
    ensures Found(next, later, log)
  {
    hide Evolves, DoneIds, AllIn;
    if next == job { SameFound(job, ops, later, log, log); }
  }

  // ----- Launching -----

  lemma LaunchReached(ids: seq<Id>, ops: map<Id, Op>, frontier: seq<Step>, id: Id, op: Op)
    requires AllIn(ids, ops) && id !in ops && frontier != [] && op.ask.path == frontier[0].path
    ensures forall name :: Reached(ids + [id], ops[id := op], frontier[1..], name) <==>
              Reached(ids, ops, frontier, name)
  {
    var later := ops[id := op];
    assert Path(op) == StepPath(frontier[0]);
    forall name ensures IsDispatched(ids + [id], later, name) <==>
          IsDispatched(ids, ops, name) || name == StepPath(frontier[0]) {
      if i :| i in ids && i in ops && Path(ops[i]) == name {
        assert i in ids + [id] && i in later && Path(later[i]) == name;
      }
      assert id in ids + [id] && id in later && Path(later[id]) == StepPath(frontier[0]);
    }
    forall name ensures Awaited(frontier, name) <==> Awaited(frontier[1..], name) || name == StepPath(frontier[0]) {
      assert frontier == [frontier[0]] + frontier[1..];
      if f :| f in frontier[1..] && StepPath(f) == name { assert f in frontier; }
      assert frontier[0] in frontier;
    }
  }

  /** A launch that leaves the job clean took the head of the frontier, or found it empty. */
  lemma LaunchClean(p: Policy, target: Target, job: Job, id: Id, now: Time)
    requires Clean(Launch(p, target, job, id, now).0)
    ensures var (next, op) := Launch(p, target, job, id, now);
            && Clean(job)
            && (op.None? ==> job.frontier == [] && next.frontier == [])
            && (op.Some? ==>
                  job.frontier != [] && next.frontier == job.frontier[1..]
                  && op.value.ask.path == job.frontier[0].path)
  {
    if job.failures != [] { LaunchCounts(p, target, job, id, now); }
    forall l | l in job.limits ensures false { LaunchCounts(p, target, job, id, now); }
    if !Spent(job) && p.plan(target, ScopeOf(job), job.frontier[0].path, HeadNames(job)).None? {
      LaunchCounts(p, target, Popped(job).(failures := Popped(job).failures + [PlanFailure]), id, now);
    }
  }

  // ----- Settling -----

  lemma {:induction false} StepsAwaited(depth: int, entries: seq<Entry>, n: nat, name: string)
    requires n <= |entries|
    ensures Awaited(ObjectSteps(depth, entries, n), name) <==> exists i ::
            0 <= i < n && entries[i].isObject && entries[i].path == name
  {
    if n > 0 {
      StepsAwaited(depth, entries, n - 1, name);
      var before, steps := ObjectSteps(depth, entries, n - 1), ObjectSteps(depth, entries, n);
      assert forall f | f in before :: f in steps;
      assert entries[n - 1].isObject ==> Step(depth, Some(entries[n - 1].path), []) in steps;
    }
  }

  /** Settling that leaves the job clean puts every object among the entries on the frontier. */
  lemma SettledClean(job: Job, id: Id, op: Op, entries: seq<Entry>)
    requires job.spec.kind.WalkJob? && Clean(Settled(job, id, op, entries))
             && (op.state.Succeeded? ==> EntriesUnder(Path(op), entries))
    ensures op.state.Succeeded? && Clean(job)
    ensures Settled(job, id, op, entries).frontier == job.frontier + ObjectSteps(job.depth + 1, entries, |entries|)
  {
    hide EntriesUnder, AddEntries;
    if op.state.Succeeded? { AddedClean(Counted(job, |entries|), Path(op), entries); }
  }

  lemma AddedClean(job: Job, path: string, entries: seq<Entry>)
    requires EntriesUnder(path, entries) && Clean(AddEntries(job, entries, |entries|))
    ensures Clean(job) && AddEntries(job, entries, |entries|).frontier
            == job.frontier + ObjectSteps(job.depth + 1, entries, |entries|)
  {
    hide EntriesUnder, AddEntries, ObjectSteps, SomeObject;
    AddEntriesClosed(job, path, entries, |entries|);
    if job.depth >= job.spec.maxDepth && !SomeObject(entries, |entries|) { NoSteps(job.depth + 1, entries, |entries|); }
  }

  lemma {:induction false} NoSteps(depth: int, entries: seq<Entry>, n: nat)
    requires n <= |entries| && !SomeObject(entries, n)
    ensures ObjectSteps(depth, entries, n) == []
  {
    if n > 0 {
      assert !SomeObject(entries, n - 1);
      NoSteps(depth, entries, n - 1);
    }
  }

  /** The objects among the entries of an operation are those whose catalog rows cite it. */
  lemma EntriesAwaited(catalog: map<PathKey, CatalogRow>, ops: map<Id, Op>, id: Id, depth: int, name: string)
    requires CatalogSourced(ops, catalog) && id in ops
    ensures var cpe := ops[id].ask.cpe;
            var entries := EntriesOf(catalog, cpe, id);
            Awaited(ObjectSteps(depth, entries, |entries|), name) <==>
                  IsObjectName(name) && (cpe, name) in Cited(catalog, id)
  {
    hide ObjectSteps, Awaited, IsObjectName, DirectChild, Concrete;
    var cpe := ops[id].ask.cpe;
    var entries, paths := EntriesOf(catalog, cpe, id), SortedNames(CitedPaths(catalog, id));
    StepsAwaited(depth, entries, |entries|, name);
    forall i | 0 <= i < |entries| ensures (cpe, entries[i].path) in Cited(catalog, id)
        && entries[i].isObject == IsObjectName(entries[i].path) {
      assert paths[i] in paths && paths[i] in CitedPaths(catalog, id);
      var k :| k in catalog && catalog[k].operation == id && k.1 == paths[i];
      assert k == (cpe, paths[i]);
    }
    if (cpe, name) in Cited(catalog, id) {
      assert (cpe, name).1 in CitedPaths(catalog, id) && name in paths;
      var i :| 0 <= i < |paths| && paths[i] == name;
      assert entries[i].path == name;
    }
  }

  /** Accounting for one more operation, when its steps are the objects that its reply brought and these are new to the
      walk. */
  lemma FoundGrows(done: set<Id>, ids: seq<Id>, ops: map<Id, Op>, frontier: seq<Step>, log: Log, id: Id,
                   steps: seq<Step>)
    requires FoundAmong(done, ids, ops, frontier, log) && id in ops && id in log && ReceiptOk(log[id])
    requires IsObjectName(Path(ops[id]))
    requires forall i | i in done && i in ops :: Path(ops[i]) != Path(ops[id]) && IsObjectName(Path(ops[i]))
    requires forall name :: Awaited(steps, name) <==> IsObjectName(name) && name in Written(log[id])
    requires forall name | NamedObject(log[id], name) ::
      DirectChild(Path(ops[id]), name) && !Reached(ids, ops, frontier, name)
    ensures FoundAmong(done + {id}, ids, ops, frontier + steps, log)
  {
    hide Awaited, IsDispatched, IsObjectName, DirectChild, Path, NamesOf;
    JoinAwaited(frontier, steps);
    forall i, name | i in done + {id} ensures FoundName(i, name, ids, ops, frontier + steps, log) {
      if i in done && i in log && i in ops && NamedObject(log[i], name) {
        assert FoundName(i, name, ids, ops, frontier, log);
        if Awaited(steps, name) {
          assert NamedObject(log[id], name);
          ParentUnique(Path(ops[i]), Path(ops[id]), name);
        }
      }
    }
  }

  lemma JoinAwaited(frontier: seq<Step>, steps: seq<Step>)
    ensures forall name :: Awaited(frontier + steps, name) <==> Awaited(frontier, name) || Awaited(steps, name)
  {
    forall name ensures Awaited(frontier + steps, name) <==> Awaited(frontier, name) || Awaited(steps, name) {
      if f :| f in frontier && StepPath(f) == name { assert f in frontier + steps; }
      if f :| f in steps && StepPath(f) == name { assert f in frontier + steps; }
    }
  }

  // ----- Advancing the walk that was answered -----

  lemma ReadyClean(p: Policy, db: Db, j: Id)
    requires Core(p, db) && Ready(db, j) && db.jobs[j].spec.kind.WalkJob? && db.jobs[j].current.Some?
             && Clean(ReadyJob(db, db.jobs[j]))
    ensures var job, id := db.jobs[j], db.jobs[j].current.value;
            && Clean(job) && id in db.ops && db.ops[id].state.Succeeded? && db.ops[id].ask.cpe == job.cpe
            && var entries := EntriesOf(db.catalog, job.cpe, id);
               ReadyJob(db, job).frontier == job.frontier + ObjectSteps(job.depth + 1, entries, |entries|)
  {
    hide Core, JobOk, TraceOf, AllIn, CatalogSourced, EntriesOf, Settled, OpsLinked, CitedBy, DoneIds, ObjectSteps,
      EntriesUnder;
    var job := db.jobs[j];
    JobInCore(p, db, j);
    CurrentIsLast(job, db.ops);
    ReadyIsSettleable(p, db, j);
    SettledClean(job, job.current.value, db.ops[job.current.value], EntriesOf(db.catalog, job.cpe, job.current.value));
  }

  /** Advancing that leaves the walk clean: what is reached afterwards is what was reached before and the new steps. */
  lemma AdvanceReaches(p: Policy, db: Db, j: Id, now: Time)
    requires Core(p, db) && Ready(db, j) && db.jobs[j].spec.kind.WalkJob? && db.jobs[j].current.Some?
    requires j in Advance(p, db, j, now).jobs && Clean(Advance(p, db, j, now).jobs[j])
    ensures var job, d := db.jobs[j], Advance(p, db, j, now);
            var id, next := job.current.value, d.jobs[j];
            && Clean(job) && id in db.ops && db.ops[id].state.Succeeded? && db.ops[id].ask.cpe == job.cpe
            && Evolves(db.ops, d.ops) && AllIn(job.opIds, db.ops)
            && DoneIds(next) == DoneIds(job) + {id}
            && var entries := EntriesOf(db.catalog, job.cpe, id);
               forall name :: Reached(next.opIds, d.ops, next.frontier, name)
                              <==> Reached(job.opIds, db.ops,
                                           job.frontier + ObjectSteps(job.depth + 1, entries, |entries|), name)
  {
    hide Core, Launch, ReadyJob, Evolves, OpsLinked, JobOk, TraceOf, AllIn, Reached, EntriesOf, ObjectSteps,
      CatalogSourced, CitedBy, DoneIds, Clean, ReadyPost;
    JobInCore(p, db, j);
    var job, ready, target := db.jobs[j], ReadyJob(db, db.jobs[j]), TargetOf(db.store.cpes[db.jobs[j].cpe]);
    ReadyAdvances(p, db, j);
    ReadyNotIn(job.opIds, db.ops, db.next, db.store.cpes.Keys);
    LaunchCounts(p, target, ready, db.next, now);
    LaunchClean(p, target, ready, db.next, now);
    ReadyClean(p, db, j);
    CurrentIsLast(job, db.ops);
    EvolvesSame(db.ops);
    DonePlusCurrent(job);
    var (next, op) := Launch(p, target, ready, db.next, now);
    DoneAfterLaunch(job, next, db.next, op.Some?);
    match op
    case None => FrontierEmpty(job.opIds, db.ops, next.frontier, ready.frontier);
    case Some(o) =>
      NewOpEvolves(db.next, db.ops, db.store.cpes.Keys, o);
      LaunchReached(job.opIds, db.ops, ready.frontier, db.next, o);
  }

  lemma FrontierEmpty(ids: seq<Id>, ops: map<Id, Op>, a: seq<Step>, b: seq<Step>)
    requires a == b
    ensures forall name :: Reached(ids, ops, a, name) <==> Reached(ids, ops, b, name)
  {}

  lemma DoneAfterLaunch(job: Job, next: Job, id: Id, launched: bool)
    requires next.opIds == if launched then job.opIds + [id] else job.opIds
    requires launched ==> next.current == Some(id)
    requires !launched ==> next.current.None?
    ensures DoneIds(next) == IdSet(job.opIds)
  {
    forall i | i in job.opIds ensures i in DoneIds(next) {
      var k :| 0 <= k < |job.opIds| && job.opIds[k] == i;
      assert next.opIds[k] == i;
    }
    forall i | i in DoneIds(next) ensures i in job.opIds {
      var k :| 0 <= k < |next.opIds| && (next.current.Some? ==> k < |next.opIds| - 1) && next.opIds[k] == i;
      assert job.opIds[k] == i;
    }
  }

  /** What a walk asks for: concrete objects, each path once. */
  lemma WalkPaths(job: Job, ops: map<Id, Op>)
    requires AllIn(job.opIds, ops) && JobOk(job, TraceOf(job.opIds, ops)) && job.spec.kind.WalkJob? && job.current.Some?
    ensures job.current.value in ops && Path(ops[job.current.value]) == AskedPath(ops[job.current.value].ask)
    ensures IsObjectName(Path(ops[job.current.value]))
    ensures forall i | i in DoneIds(job) && i in ops ::
      Path(ops[i]) != Path(ops[job.current.value]) && IsObjectName(Path(ops[i]))
  {
    hide Shaped, Apart, Rooted, FrontierLevelled, IsObjectName, Concrete;
    var trace, root := TraceOf(job.opIds, ops), job.spec.root.value;
    CurrentIsLast(job, ops);
    DoneApart(job, ops);
    forall i | i in job.opIds ensures Path(ops[i]) == AskedPath(ops[i].ask) && IsObjectName(Path(ops[i])) {
      var n :| 0 <= n < |job.opIds| && job.opIds[n] == i;
      assert trace[n] == ops[i] && Below(root, Path(trace[n]), DepthOf(root, trace[n]));
      ConcreteEnds(Path(trace[n]));
    }
    forall i | i in DoneIds(job) ensures i in job.opIds {}
  }

  /** A child of the object that the walk waits for is neither dispatched nor waiting. */
  lemma ChildNotReached(job: Job, ops: map<Id, Op>, child: string)
    requires AllIn(job.opIds, ops) && JobOk(job, TraceOf(job.opIds, ops)) && job.spec.kind.WalkJob? && job.current.Some?
    requires job.current.value in ops && DirectChild(Path(ops[job.current.value]), child) && IsObjectName(child)
    ensures !Reached(job.opIds, ops, job.frontier, child)
  {
    hide TraceLevelled, FrontierLevelled, Apart, Rooted, DirectChild, IsObjectName, Path, StepPath;
    var trace := TraceOf(job.opIds, ops);
    CurrentIsLast(job, ops);
    ChildIsNew(job.spec.root.value, job.depth, trace, job.frontier, Path(ops[job.current.value]), child);
    forall i | i in job.opIds ensures Path(ops[i]) != child {
      var n :| 0 <= n < |job.opIds| && job.opIds[n] == i;
      assert trace[n] == ops[i];
    }
    forall f | f in job.frontier ensures StepPath(f) != child {
      var k :| 0 <= k < |job.frontier| && job.frontier[k] == f;
    }
  }

  lemma NamedUnder(p: Policy, db: Db, token: string, id: Id, plan: Plan, reply: Reply, v: Verdict, now: Time,
                   name: string)
    requires Inv(p, db) && Answering(p, db, token, id, plan, reply, v, now) && reply.NamesReply? && v.reason.None?
    requires name in NamesOf(reply)
    ensures id in db.ops && DirectChild(AskedPath(db.ops[id].ask), name)
  {
    hide DirectChild, ReportedUnder, AskedPath, Answering, IsObjectName, Concrete;
    AnsweringFacts(p, db, token, id, plan, reply, v, now);
    CoreOfInv(p, db);
    CoreParts(p, db);
    ReportedNames(p, db, token, id, plan, reply, v, now);
    var i :| i in reply.names && i.name == name;
    ReportedIsChild(AskedPath(db.ops[id].ask), name);
  }

  lemma FoundElsewhere(done: set<Id>, ids: seq<Id>, ops: map<Id, Op>, frontier: seq<Step>, moreIds: seq<Id>,
                       later: map<Id, Op>, rest: seq<Step>, log: Log)
    requires FoundAmong(done, ids, ops, frontier, log) && (forall i | i in done :: i in ids) && AllIn(ids, ops)
             && Evolves(ops, later)
    requires forall name :: Reached(moreIds, later, rest, name) <==> Reached(ids, ops, frontier, name)
    ensures FoundAmong(done, moreIds, later, rest, log)
  {
    hide Reached, NamedObject, DirectChild, Evolves, AllIn;
    EvolveReached(ids, ops, later, frontier);
    forall i, name | i in done ensures FoundName(i, name, moreIds, later, rest, log) {
      assert i in ids && FoundName(i, name, ids, ops, frontier, log);
      AllInHas(ids, ops, i);
    }
  }

  lemma AllInHas(ids: seq<Id>, ops: map<Id, Op>, i: Id)
    requires AllIn(ids, ops) && i in ids
    ensures i in ops
  {}

  /** What the walk found, once its operation is recorded and it has been advanced. */
  lemma AdvanceFound(p: Policy, db: Db, j: Id, now: Time, log: Log, written: set<string>)
    requires Core(p, db) && Ready(db, j) && db.jobs[j].spec.kind.WalkJob? && db.jobs[j].current.Some?
             && Found(db.jobs[j], db.ops, log)
    requires var job, id := db.jobs[j], db.jobs[j].current.value;
             id in db.ops && (Clean(job) && db.ops[id].state.Succeeded? ==>
                                && id in log && ReceiptOk(log[id]) && written == Written(log[id])
                                && Cited(db.catalog, id) == Keyed(job.cpe, written)
                                && forall name | name in NamesOf(log[id].reply) ::
                                   DirectChild(AskedPath(db.ops[id].ask), name))
    requires j in Advance(p, db, j, now).jobs
    ensures Found(Advance(p, db, j, now).jobs[j], Advance(p, db, j, now).ops, log)
  {
    hide Core, Evolves, JobOk, TraceOf, AllIn, Reached, EntriesOf, ObjectSteps, CatalogSourced, CitedBy, DoneIds,
      Advance, Waits, DirectChild, IsObjectName, Written, Cited, Path, AskedPath, FoundAmong, Awaited;
    var job, d := db.jobs[j], Advance(p, db, j, now);
    if Clean(d.jobs[j]) {
      var id := job.current.value;
      AdvanceReaches(p, db, j, now);
      JobInCore(p, db, j);
      WalkPaths(job, db.ops);
      var entries := EntriesOf(db.catalog, job.cpe, id);
      var steps := ObjectSteps(job.depth + 1, entries, |entries|);
      forall name ensures Awaited(steps, name) <==> IsObjectName(name) && name in written {
        EntriesAwaited(db.catalog, db.ops, id, job.depth + 1, name);
      }
      forall name | NamedObject(log[id], name) ensures DirectChild(Path(db.ops[id]), name)
          && !Reached(job.opIds, db.ops, job.frontier, name) {
        ChildNotReached(job, db.ops, name);
      }
      FoundGrows(DoneIds(job), job.opIds, db.ops, job.frontier, log, id, steps);
      AllDoneListed(job, db.ops);
      FoundElsewhere(DoneIds(job) + {id}, job.opIds, db.ops, job.frontier + steps, d.jobs[j].opIds, d.ops,
                     d.jobs[j].frontier, log);
    }
  }

  lemma AllDoneListed(job: Job, ops: map<Id, Op>)
    requires AllIn(job.opIds, ops) && JobOk(job, TraceOf(job.opIds, ops)) && job.current.Some?
    ensures forall i | i in DoneIds(job) + {job.current.value} :: i in job.opIds
  {
    hide JobOk;
    CurrentIsLast(job, ops);
  }

  // ----- The step that answers -----

  lemma OwnerFound(p: Policy, db: Db, token: string, id: Id, plan: Plan, reply: Reply, v: Verdict,
                   evidence: Option<string>, now: Time, log: Log, next: Log, j: Id)
    requires Inv(p, db) && Answering(p, db, token, id, plan, reply, v, now) && id in db.attempts && LogOk(db.ops, log)
    requires j in db.jobs && db.jobs[j].state.JobRunning? && db.jobs[j].cpe == db.ops[id].ask.cpe
             && db.jobs[j].spec.kind.WalkJob?
    requires Found(db.jobs[j], db.ops, log)
    requires var d := AdvanceActive(p, Recorded(p, db, token, id, plan, reply, v, evidence, now),
                                    db.sessions[token].cpe, now);
             next == Logged(log, db.ops, d.ops, db.catalog, Some(reply), now)
    ensures var d := AdvanceActive(p, Recorded(p, db, token, id, plan, reply, v, evidence, now), db.sessions[token].cpe,
                                   now);
            j in d.jobs && Found(d.jobs[j], d.ops, next)
  {
    hide Inv, Core, Recorded, AdvanceActive, Answering, Logged, Written, ReceiptFor, Evolves, Advance, JobOk, TraceOf,
      AllIn, CatalogSourced, FoundAmong, DoneIds, SteadyBut, Cited, Keyed, Waits, DirectChild, AskedPath, Ready;
    AnsweringFacts(p, db, token, id, plan, reply, v, now);
    CoreOfInv(p, db);
    AnsweredLog(p, db, token, id, plan, reply, v, evidence, now, log);
    WalkIsCurrent(p, db, id, j);
    JobInCore(p, db, j);
    CurrentIsLast(db.jobs[j], db.ops);
    RecordedKeeps(p, db, token, id, plan, reply, v, evidence, now);
    RecordedWalk(p, db, token, id, plan, reply, v, evidence, now, j);
    var r := Recorded(p, db, token, id, plan, reply, v, evidence, now);
    JobsOfCore(p, r);
    RunningAdvances(p, r, j, db.sessions[token].cpe, now);
    AdvanceCounts(p, r, j, now);
    RecordedStart(p, db, r, id, j, log, next);
    if r.ops[id].state.Succeeded? && Clean(r.jobs[j]) {
      AnsweringDistinct(p, db, token, id, plan, reply, v, now);
      SuccessIsNames(p, db.ops[id].ask, plan, reply, now, id);
      SameAsk(db.ops, r.ops, id);
      forall name | name in NamesOf(reply) ensures DirectChild(AskedPath(r.ops[id].ask), name) {
        NamedUnder(p, db, token, id, plan, reply, v, now, name);
      }
    }
    AdvanceFound(p, r, j, now, next, Written(ReceiptFor(db.catalog, db.jobs[j].cpe, reply, now)));
  }

  lemma SameAsk(ops: map<Id, Op>, later: map<Id, Op>, id: Id)
    requires Evolves(ops, later) && id in ops
    ensures id in later && later[id].ask == ops[id].ask
  {}

  lemma RecordedStart(p: Policy, db: Db, r: Db, id: Id, j: Id, log: Log, next: Log)
    requires Core(p, db) && j in db.jobs && db.jobs[j].current == Some(id) && Found(db.jobs[j], db.ops, log)
             && Evolves(db.ops, r.ops)
    requires j in r.jobs && r.jobs[j] == db.jobs[j].(limits := r.jobs[j].limits)
             && (forall l | l in db.jobs[j].limits :: l in r.jobs[j].limits)
    requires forall i | i != id :: (i in next <==> i in log) && (i in log ==> next[i] == log[i])
    ensures Found(r.jobs[j], r.ops, next)
  {
    hide Core, Evolves, JobOk, TraceOf, AllIn, FoundAmong, CatalogSourced;
    JobInCore(p, db, j);
    CurrentIsLast(db.jobs[j], db.ops);
    SameFound(db.jobs[j], db.ops, r.ops, log, next);
    assert DoneIds(r.jobs[j]) == DoneIds(db.jobs[j]);
    if Clean(r.jobs[j]) { NoLimits(db.jobs[j], r.jobs[j]); }
  }

  lemma NoLimits(was: Job, job: Job)
    requires Clean(job) && was.failures == job.failures && forall l | l in was.limits :: l in job.limits
    ensures Clean(was)
  {
    NonEmpty(was.limits);
  }

  lemma NonEmpty(s: seq<Limit>)
    ensures s != [] ==> exists l :: l in s
  {
    if s != [] { assert s[0] in s; }
  }
}
