/** Advancing a collection job keeps the queue's invariants, whatever its current operation came to. */
module AdvanceProofs {
  import opened Text
  import opened Domain
  import opened Policies
  import opened Jobs
  import opened JobProofs
  import opened Queue
  import opened Invariants
  import opened QueueProofs

  // ----- Catalog rows of one operation -----

  lemma {:induction false} CitedKeys(catalog: map<PathKey, CatalogRow>, ops: map<Id, Op>, id: Id)
    requires CatalogSourced(ops, catalog) && id in ops
    ensures Cited(catalog, id) == set n | n in CitedPaths(catalog, id) :: (ops[id].ask.cpe, n)
    ensures |Cited(catalog, id)| == |CitedPaths(catalog, id)|
  {
    var cpe, keys, paths := ops[id].ask.cpe, Cited(catalog, id), CitedPaths(catalog, id);
    forall k | k in keys ensures k == (cpe, k.1) {}
    PairedSize(cpe, paths, keys);
  }

  lemma {:induction false} PairedSize(cpe: Id, paths: set<string>, keys: set<PathKey>)
    requires keys == set n | n in paths :: (cpe, n)
    ensures |keys| == |paths|
  {
    if paths != {} {
      var n :| n in paths;
      assert keys - {(cpe, n)} == set m | m in paths - {n} :: (cpe, m);
      PairedSize(cpe, paths - {n}, keys - {(cpe, n)});
    }
  }

  lemma EntriesCited(catalog: map<PathKey, CatalogRow>, ops: map<Id, Op>, id: Id)
    requires CatalogSourced(ops, catalog) && id in ops
    ensures var cpe := ops[id].ask.cpe;
            var entries := EntriesOf(catalog, cpe, id);
            && |entries| == |CitedPaths(catalog, id)|
            && (forall i | 0 <= i < |entries| ::
                  (cpe, entries[i].path) in Cited(catalog, id)
                  && entries[i].isObject == catalog[(cpe, entries[i].path)].isObject)
            && (forall i, j | 0 <= i < j < |entries| :: entries[i].path != entries[j].path)
  {
    hide IsObjectName, Concrete, DirectChild;
    var cpe := ops[id].ask.cpe;
    var entries, paths := EntriesOf(catalog, cpe, id), SortedNames(CitedPaths(catalog, id));
    AscendingDistinct(Self, paths);
    forall i | 0 <= i < |entries| ensures (cpe, entries[i].path) in Cited(catalog, id) {
      assert paths[i] in paths;
    }
    forall i, j | 0 <= i < j < |entries| ensures entries[i].path != entries[j].path {
      assert Self(paths[i]) != Self(paths[j]);
    }
  }

  /** The entries handed to a job are the catalogued children that cite its operation, each once. */
  lemma EntriesSound(catalog: map<PathKey, CatalogRow>, ops: map<Id, Op>, id: Id)
    requires CatalogSourced(ops, catalog) && id in ops
    ensures var entries := EntriesOf(catalog, ops[id].ask.cpe, id);
            EntriesUnder(AskedPath(ops[id].ask), entries) && |entries| == |Cited(catalog, id)|
  {
    hide EntriesOf, CitedPaths, IsObjectName, Concrete, DirectChild, AskedPath;
    CitedKeys(catalog, ops, id);
    EntriesCited(catalog, ops, id);
  }

  lemma NoneCited(catalog: map<PathKey, CatalogRow>, ops: map<Id, Op>, id: Id)
    requires CatalogSourced(ops, catalog) && (id !in ops || !ops[id].state.Succeeded?)
    ensures Cited(catalog, id) == {}
  {}

  lemma CitedGrows(catalog: map<PathKey, CatalogRow>, ids: set<Id>, id: Id)
    requires id !in ids
    ensures |CitedBy(catalog, ids + {id})| == |CitedBy(catalog, ids)| + |Cited(catalog, id)|
  {
    assert CitedBy(catalog, ids + {id}) == CitedBy(catalog, ids) + Cited(catalog, id);
  }

  function IdSet(ids: seq<Id>): set<Id> { set i | i in ids }

  // ----- Settling -----

  /** A running job whose current operation is over. */
  ghost predicate Ready(db: Db, j: Id) {
    j in db.jobs && db.jobs[j].state.JobRunning? && !Waits(db, db.jobs[j])
  }

  lemma CurrentIsLast(job: Job, ops: map<Id, Op>)
    requires AllIn(job.opIds, ops) && JobOk(job, TraceOf(job.opIds, ops)) && job.current.Some?
    ensures job.opIds != [] && job.current.value == job.opIds[|job.opIds| - 1] && job.current.value in ops
    ensures var trace := TraceOf(job.opIds, ops); trace[|trace| - 1] == ops[job.current.value]
    ensures ops[job.current.value].ask.cpe == job.cpe
    ensures job.spec.kind.WalkJob? <==> ops[job.current.value].ask.scope.Discovery?
    ensures ops[job.current.value].ask.kind == KindOf(job) && ops[job.current.value].ask.scope == ScopeOf(job)
    ensures job.spec.kind.WalkJob? ==> ops[job.current.value].ask.path.Some?
    ensures job.spec.kind.ValuesJob? ==> ops[job.current.value].ask.requested != []
    ensures job.current.value !in DoneIds(job)
  {
    hide FailuresTold, ValidSpec, FrontierLevelled, Apart, Rooted, Partitioned, FrontierBatched, TraceWithin;
  }

  lemma ReadyIsSettleable(p: Policy, db: Db, j: Id)
    requires Core(p, db) && Ready(db, j) && db.jobs[j].current.Some?
    ensures var job := db.jobs[j];
            && AllIn(job.opIds, db.ops) && job.current.value in db.ops
            && Settleable(job, TraceOf(job.opIds, db.ops), db.ops[job.current.value],
                          EntriesOf(db.catalog, job.cpe, job.current.value))
  {
    var job := db.jobs[j];
    assert JobOk(job, TraceOf(job.opIds, db.ops));
    assert CatalogSourced(db.ops, db.catalog) && OpsOk(db.ops, db.attempts.Keys);
    CurrentIsLast(job, db.ops);
    var id := job.current.value;
    EntriesSound(db.catalog, db.ops, id);
    assert OpOk(db.ops[id], id in db.attempts);
    assert job.spec.kind.WalkJob? ==> job.entryCount + |Cited(db.catalog, id)| <= job.spec.maxEntries by { hide JobOk; }
  }

  /** What the job ready for its launch loop satisfies. */
  ghost predicate ReadyPost(job: Job, ready: Job, trace: seq<Op>, catalog: map<PathKey, CatalogRow>) {
    && JobOk(ready, trace) && ready.state.JobRunning? && ready.current.None?
    && ready.opIds == job.opIds && ready.spec == job.spec && ready.cpe == job.cpe && ready.key == job.key
    && (job.spec.kind.WalkJob? ==> ready.entryCount == |CitedBy(catalog, IdSet(job.opIds))|)
    && ready.completed == |job.opIds|
  }

  lemma SettledFrame(job: Job, id: Id, op: Op, entries: seq<Entry>, trace: seq<Op>)
    requires Settleable(job, trace, op, entries)
    ensures var s := Settled(job, id, op, entries);
            && s.state == job.state && s.current.None? && s.opIds == job.opIds && s.spec == job.spec
            && s.cpe == job.cpe && s.key == job.key
            && s.entryCount == job.entryCount +
                 if !op.state.Succeeded? then 0 else if job.spec.kind.WalkJob? then |entries| else |op.result|
  {
    if op.state.Succeeded? && job.spec.kind.WalkJob? {
      AddEntriesClosed(Counted(job, |entries|), Path(op), entries, |entries|);
    }
  }

  lemma DonePlusCurrent(job: Job)
    requires job.opIds != [] && (job.current.Some? ==> job.current.value == job.opIds[|job.opIds| - 1])
    ensures IdSet(job.opIds) == DoneIds(job) + if job.current.Some? then {job.current.value} else {}
  {}

  lemma ReadyCounts(job: Job, ops: map<Id, Op>, catalog: map<PathKey, CatalogRow>)
    requires AllIn(job.opIds, ops) && JobOk(job, TraceOf(job.opIds, ops)) && CatalogSourced(ops, catalog)
    requires job.current.Some?
    ensures job.current.value in ops
    ensures |CitedBy(catalog, IdSet(job.opIds))| == |CitedBy(catalog, DoneIds(job))| +
              if ops[job.current.value].state.Succeeded? then |EntriesOf(catalog, job.cpe, job.current.value)| else 0
  {
    hide JobOk, TraceOf, AllIn, CatalogSourced, CitedBy, Cited, EntriesOf, DoneIds, EntriesUnder;
    CurrentIsLast(job, ops);
    var id := job.current.value;
    DonePlusCurrent(job);
    assert IdSet(job.opIds) == DoneIds(job) + {id};
    CitedGrows(catalog, DoneIds(job), id);
    if ops[id].state.Succeeded? {
      EntriesSound(catalog, ops, id);
    } else {
      NoneCited(catalog, ops, id);
      assert |Cited(catalog, id)| == 0;
    }
  }

  /** What Core says of one running job. */
  lemma JobInCore(p: Policy, db: Db, j: Id)
    requires Core(p, db) && j in db.jobs
    ensures AllIn(db.jobs[j].opIds, db.ops) && JobOk(db.jobs[j], TraceOf(db.jobs[j].opIds, db.ops))
    ensures CatalogSourced(db.ops, db.catalog) && db.jobs[j].cpe in db.store.cpes && j < db.next
    ensures OpsLinked(db.next, db.ops, db.store.cpes.Keys)
    ensures db.jobs[j].state.JobRunning? && db.jobs[j].spec.kind.WalkJob? ==>
              db.jobs[j].entryCount == |CitedBy(db.catalog, DoneIds(db.jobs[j]))|
  {
    hide JobOk, AllIn, CatalogSourced, OneActive, JobsDrive, StoreOk, Coupled;
  }

  lemma SettledReady(job: Job, id: Id, op: Op, entries: seq<Entry>, trace: seq<Op>, catalog: map<PathKey, CatalogRow>)
    requires JobOk(job, trace) && Settleable(job, trace, op, entries) && job.current == Some(id)
    requires job.spec.kind.WalkJob? ==>
               |CitedBy(catalog, IdSet(job.opIds))| == job.entryCount + if op.state.Succeeded? then |entries| else 0
    ensures ReadyPost(job, Settled(job, id, op, entries), trace, catalog)
  {
    SettleKeeps(job, trace, id, op, entries);
    SettledFrame(job, id, op, entries, trace);
    CompletedAll(Settled(job, id, op, entries), trace);
    hide JobOk, Settleable, Settled, CitedBy;
  }

  lemma ReadyKeeps(p: Policy, db: Db, j: Id)
    requires Core(p, db) && Ready(db, j)
    ensures AllIn(db.jobs[j].opIds, db.ops)
    ensures ReadyPost(db.jobs[j], ReadyJob(db, db.jobs[j]), TraceOf(db.jobs[j].opIds, db.ops), db.catalog)
  {
    var job := db.jobs[j];
    JobInCore(p, db, j);
    hide TraceOf, Core, CatalogSourced, AllIn, JobOk, CitedBy, EntriesOf, DoneIds, Settleable, Settled, ReadyPost;
    var trace := TraceOf(job.opIds, db.ops);
    if job.current.Some? {
      var id := job.current.value;
      ReadyIsSettleable(p, db, j);
      ReadyCounts(job, db.ops, db.catalog);
      SettledReady(job, id, db.ops[id], EntriesOf(db.catalog, job.cpe, id), trace, db.catalog);
    } else {
      FreshReady(job, trace, db.catalog);
    }
  }

  lemma FreshReady(job: Job, trace: seq<Op>, catalog: map<PathKey, CatalogRow>)
    requires JobOk(job, trace) && job.state.JobRunning? && job.current.None?
    requires job.spec.kind.WalkJob? ==> job.entryCount == |CitedBy(catalog, DoneIds(job))|
    ensures ReadyPost(job, job, trace, catalog)
  {
    hide CitedBy;
    CompletedAll(job, trace);
    AllDone(job);
  }

  lemma AllDone(job: Job)
    requires job.current.None?
    ensures IdSet(job.opIds) == DoneIds(job)
  {}

  lemma CompletedAll(job: Job, trace: seq<Op>)
    requires JobOk(job, trace) && job.current.None?
    ensures job.completed == |job.opIds| == |trace|
  {}

  // ----- The job record after its launch loop -----

  /** A job record replaced by its next version. */
  ghost predicate Replaces(job: Job, next: Job) {
    job.state.JobRunning? && next.cpe == job.cpe && next.key == job.key && next.spec == job.spec
  }

  lemma ReplaceKeepsTables(db: Db, j: Id, next: Job)
    requires j in db.jobs && Replaces(db.jobs[j], next)
    requires OneRunning(db.jobs) && JobKeys(db.jobs) && JobsLinked(db.next, db.jobs, db.store.cpes.Keys)
    ensures var jobs := db.jobs[j := next];
            OneRunning(jobs) && JobKeys(jobs) && JobsLinked(db.next, jobs, db.store.cpes.Keys)
  {}

  lemma ReplaceKeepsJobs(jobs: map<Id, Job>, ops: map<Id, Op>, j: Id, next: Job)
    requires JobsOk(jobs, ops) && AllIn(next.opIds, ops) && JobOk(next, TraceOf(next.opIds, ops))
    ensures JobsOk(jobs[j := next], ops)
  {}

  lemma ReplaceKeepsAccounted(jobs: map<Id, Job>, catalog: map<PathKey, CatalogRow>, j: Id, next: Job)
    requires Accounted(jobs, catalog)
    requires next.state.JobRunning? && next.spec.kind.WalkJob? ==>
               && next.entryCount == |CitedBy(catalog, DoneIds(next))|
               && (next.current.Some? ==>
                     next.entryCount + |Cited(catalog, next.current.value)| <= next.spec.maxEntries)
    ensures Accounted(jobs[j := next], catalog)
  {}

  /** Every running job but those of one CPE is steady. */
  ghost predicate SteadyBut(jobs: map<Id, Job>, ops: map<Id, Op>, cpe: Id) {
    forall j | j in jobs && jobs[j].state.JobRunning? && jobs[j].cpe != cpe ::
      jobs[j].current.Some? && jobs[j].current.value in ops && !ops[jobs[j].current.value].state.Succeeded?
  }

  /** The loop closed the job. */
  lemma CloseKeepsCore(p: Policy, db: Db, j: Id, next: Job)
    requires Core(p, db) && j in db.jobs && Replaces(db.jobs[j], next) && !next.state.JobRunning?
    requires AllIn(next.opIds, db.ops) && JobOk(next, TraceOf(next.opIds, db.ops))
    requires SteadyBut(db.jobs, db.ops, next.cpe)
    ensures Core(p, db.(jobs := db.jobs[j := next])) && Steady(db.jobs[j := next], db.ops)
  {
    var jobs := db.jobs[j := next];
    assert JobsDrive(jobs, db.ops) && Steady(jobs, db.ops) by {
      hide JobsOk, Accounted, CatalogSourced, ValuesSourced, StoreOk, Coupled, OneActive, OpKeys, JobKeys, JobOk,
        AllIn;
    }
    hide OneActive, OneRunning, JobsDrive, OpKeys, JobKeys, JobsOk, Accounted, CatalogSourced, ValuesSourced, StoreOk,
      Coupled, SessionsLinked, OpsLinked, JobsLinked, CpesLinked, Steady, JobOk, AllIn, TraceOf, SteadyBut;
    ReplaceKeepsTables(db, j, next);
    ReplaceKeepsJobs(db.jobs, db.ops, j, next);
    ReplaceKeepsAccounted(db.jobs, db.catalog, j, next);
  }

  /** The loop launched one operation. */
  ghost predicate Launches(db: Db, j: Id, next: Job, op: Op) {
    && Ready(db, j) && Replaces(db.jobs[j], next) && next.state.JobRunning? && next.current == Some(db.next)
    && next.opIds == db.jobs[j].opIds + [db.next]
    && op == NewOp(op.ask) && op.ask.cpe == next.cpe && op.ask.key == ServerKey(db.next) && OpOk(op, false)
  }

  lemma LaunchedAdmissible(p: Policy, db: Db, j: Id, next: Job, op: Op)
    requires Core(p, db) && Launches(db, j, next, op)
    ensures Admissible(db, op)
  {
    hide JobsOk, Accounted, CatalogSourced, ValuesSourced, StoreOk, Coupled, OneActive, JobKeys, OpOk, OneRunning;
    assert forall i | i in db.ops && db.ops[i].ask.cpe == op.ask.cpe :: !Active(db.ops[i]);
    assert forall i | i in db.ops :: db.ops[i].ask.key != op.ask.key;
  }

  lemma LaunchDrives(db: Db, j: Id, next: Job, op: Op)
    requires OneRunning(db.jobs) && JobsDrive(db.jobs, db.ops) && Launches(db, j, next, op) && Admissible(db, op)
    requires OpsLinked(db.next, db.ops, db.store.cpes.Keys) && SteadyBut(db.jobs, db.ops, next.cpe)
    ensures JobsDrive(db.jobs[j := next], db.ops[db.next := op])
    ensures Steady(db.jobs[j := next], db.ops[db.next := op])
  {}

  lemma LaunchedDone(db: Db, j: Id, next: Job, op: Op)
    requires Launches(db, j, next, op)
    ensures DoneIds(next) == IdSet(db.jobs[j].opIds) && next.current == Some(db.next) && Replaces(db.jobs[j], next)
            && j in db.jobs
  {
    assert forall i | 0 <= i < |db.jobs[j].opIds| :: next.opIds[i] == db.jobs[j].opIds[i];
  }

  lemma LaunchAccounts(p: Policy, db: Db, j: Id, next: Job, op: Op)
    requires Core(p, db) && Launches(db, j, next, op)
    requires 0 <= next.entryCount <= next.spec.maxEntries
    requires next.spec.kind.WalkJob? ==> next.entryCount == |CitedBy(db.catalog, IdSet(db.jobs[j].opIds))|
    ensures Accounted(db.jobs[j := next], db.catalog)
  {
    hide JobsOk, ValuesSourced, StoreOk, Coupled, OneActive, OneRunning, JobKeys, OpKeys, JobsDrive, CitedBy, Cited,
      CatalogSourced, Accounted, Launches, DoneIds, IdSet;
    LaunchedDone(db, j, next, op);
    NoneCited(db.catalog, db.ops, db.next);
    assert |Cited(db.catalog, db.next)| == 0;
    ReplaceKeepsAccounted(db.jobs, db.catalog, j, next);
  }

  lemma LaunchKeepsCore(p: Policy, db: Db, j: Id, next: Job, op: Op)
    requires Core(p, db) && Launches(db, j, next, op) && SteadyBut(db.jobs, db.ops, next.cpe)
    requires 0 <= next.entryCount <= next.spec.maxEntries
    requires next.spec.kind.WalkJob? ==> next.entryCount == |CitedBy(db.catalog, IdSet(db.jobs[j].opIds))|
    requires AllIn(next.opIds, db.ops[db.next := op]) && JobOk(next, TraceOf(next.opIds, db.ops[db.next := op]))
    ensures var d := db.(jobs := db.jobs[j := next], ops := db.ops[db.next := op], next := db.next + 1);
            Core(p, d) && Evolves(db.ops, d.ops) && Steady(d.jobs, d.ops)
  {
    var d := db.(jobs := db.jobs[j := next], ops := db.ops[db.next := op], next := db.next + 1);
    LaunchedAdmissible(p, db, j, next, op);
    LaunchAccounts(p, db, j, next, op);
    hide OneActive, OneRunning, JobsDrive, OpKeys, JobKeys, JobsOk, Accounted, CatalogSourced, ValuesSourced, StoreOk,
      Coupled, JobsLinked, Steady, JobOk, AllIn, TraceOf, SteadyBut, Evolves, CitedBy, OpOk, SessionsLinked, DoneIds;
    assert Replaces(db.jobs[j], next) && j in db.jobs && OpOk(op, false);
    assert OpsLinked(d.next, d.ops, d.store.cpes.Keys) && CpesLinked(d.next, d.store.cpes.Keys);
    LaunchDrives(db, j, next, op);
    NewOpEvolves(db.next, db.ops, db.store.cpes.Keys, op);
    NewOpKeepsCoupled(db.next, db.ops, db.attempts, db.sessions, db.store.cpes.Keys, op);
    NewOpKeepsActive(db, op);
    hide Launches, Admissible, OpsLinked, CpesLinked;
    ReplaceKeepsTables(db, j, next);
    LinkedLater(db.next, d.jobs, db.store.cpes.Keys);
    EvolveKeepsJobs(db.jobs, db.ops, d.ops);
    ReplaceKeepsJobs(db.jobs, d.ops, j, next);
    EvolveKeepsSources(p.defaults, db.ops, d.ops, db.catalog, db.values, db.store);
  }

  lemma LinkedLater(next: Id, jobs: map<Id, Job>, cpes: set<Id>)
    requires JobsLinked(next, jobs, cpes)
    ensures JobsLinked(next + 1, jobs, cpes)
  {}

  // ----- Advance -----

  lemma LaunchedOpOk(next: Job, trace: seq<Op>, op: Op)
    requires JobOk(next, trace + [op]) && op == NewOp(op.ask)
    ensures OpOk(op, false)
  {
    var t, n := trace + [op], |trace|;
    assert t[n] == op && t[..n] == trace;
    assert Shaped(next, t);
    if next.spec.kind.WalkJob? {
      assert Walking(next, t) && Below(next.spec.root.value, Path(t[n]), DepthOf(next.spec.root.value, t[n]));
    } else {
      assert Reading(next, t) && Asked(t) == Asked(trace) + op.ask.requested;
      SuffixAscends(Asked(trace), op.ask.requested);
    }
  }

  lemma SuffixAscends(a: seq<string>, b: seq<string>)
    requires Ascending(Self, a + b)
    ensures Ascending(Self, b)
  {
    assert forall i | 0 <= i < |b| :: b[i] == (a + b)[|a| + i];
  }

  lemma TraceAppend(ids: seq<Id>, ops: map<Id, Op>, next: Id, op: Op)
    requires AllIn(ids, ops) && next !in ops
    ensures AllIn(ids + [next], ops[next := op])
    ensures TraceOf(ids + [next], ops[next := op]) == TraceOf(ids, ops) + [op]
  {}

  lemma EntriesBounded(job: Job, trace: seq<Op>)
    requires JobOk(job, trace)
    ensures 0 <= job.entryCount <= job.spec.maxEntries
  {}

  lemma ReadyNotIn(ids: seq<Id>, ops: map<Id, Op>, next: Id, cpes: set<Id>)
    requires AllIn(ids, ops) && OpsLinked(next, ops, cpes)
    ensures next !in ids && next !in ops
  {}

  function Assembled(db: Db, j: Id, next: Job, op: Option<Op>): Db {
    match op
    case None => db.(jobs := db.jobs[j := next])
    case Some(o) => db.(jobs := db.jobs[j := next], ops := db.ops[db.next := o], next := db.next + 1)
  }

  lemma TraceLaunches(p: Policy, db: Db, j: Id, trace: seq<Op>, next: Job, o: Op)
    requires OpsLinked(db.next, db.ops, db.store.cpes.Keys) && Ready(db, j)
    requires AllIn(db.jobs[j].opIds, db.ops) && trace == TraceOf(db.jobs[j].opIds, db.ops)
    requires JobOk(next, trace + [o]) && next.state.JobRunning? && next.current == Some(db.next)
    requires next.opIds == db.jobs[j].opIds + [db.next] && Replaces(db.jobs[j], next)
    requires o == NewOp(o.ask) && o.ask.cpe == next.cpe && o.ask.key == ServerKey(db.next)
    ensures Launches(db, j, next, o) && 0 <= next.entryCount <= next.spec.maxEntries
    ensures AllIn(next.opIds, db.ops[db.next := o]) && JobOk(next, TraceOf(next.opIds, db.ops[db.next := o]))
  {
    hide JobOk, OpsLinked, AllIn, TraceOf, OpOk, Replaces, NewOp, Waits;
    LaunchedOpOk(next, trace, o);
    EntriesBounded(next, trace + [o]);
    ReadyNotIn(db.jobs[j].opIds, db.ops, db.next, db.store.cpes.Keys);
    TraceAppend(db.jobs[j].opIds, db.ops, db.next, o);
  }

  lemma AssembledLaunch(p: Policy, db: Db, j: Id, trace: seq<Op>, next: Job, o: Op)
    requires Core(p, db) && Ready(db, j) && SteadyBut(db.jobs, db.ops, next.cpe)
    requires AllIn(db.jobs[j].opIds, db.ops) && trace == TraceOf(db.jobs[j].opIds, db.ops)
    requires JobOk(next, trace + [o]) && next.state.JobRunning? && next.current == Some(db.next)
    requires next.opIds == db.jobs[j].opIds + [db.next] && Replaces(db.jobs[j], next)
    requires o == NewOp(o.ask) && o.ask.cpe == next.cpe && o.ask.key == ServerKey(db.next)
    requires next.spec.kind.WalkJob? ==> next.entryCount == |CitedBy(db.catalog, IdSet(db.jobs[j].opIds))|
    ensures var d := Assembled(db, j, next, Some(o)); Core(p, d) && Evolves(db.ops, d.ops) && Steady(d.jobs, d.ops)
  {
    hide Core, JobOk, OpsLinked, Steady, SteadyBut, Evolves, AllIn, TraceOf, CitedBy, Replaces, NewOp, IdSet,
      Launches;
    JobInCore(p, db, j);
    TraceLaunches(p, db, j, trace, next, o);
    LaunchKeepsCore(p, db, j, next, o);
  }

  lemma AssembledClose(p: Policy, db: Db, j: Id, trace: seq<Op>, next: Job)
    requires Core(p, db) && Ready(db, j) && SteadyBut(db.jobs, db.ops, next.cpe)
    requires AllIn(db.jobs[j].opIds, db.ops) && trace == TraceOf(db.jobs[j].opIds, db.ops)
    requires JobOk(next, trace) && !next.state.JobRunning? && next.opIds == db.jobs[j].opIds
             && Replaces(db.jobs[j], next)
    ensures var d := Assembled(db, j, next, None); Core(p, d) && Evolves(db.ops, d.ops) && Steady(d.jobs, d.ops)
  {
    hide Core, JobOk, Steady, SteadyBut, Evolves, AllIn, TraceOf, Replaces;
    CloseKeepsCore(p, db, j, next);
    EvolvesSame(db.ops);
  }

  lemma AssembledCore(p: Policy, db: Db, j: Id, ready: Job, now: Time, next: Job, op: Option<Op>)
    requires Core(p, db) && Ready(db, j) && SteadyBut(db.jobs, db.ops, db.jobs[j].cpe)
    requires AllIn(db.jobs[j].opIds, db.ops)
             && ReadyPost(db.jobs[j], ready, TraceOf(db.jobs[j].opIds, db.ops), db.catalog)
    requires LaunchPost(FixedOf(ready), TraceOf(db.jobs[j].opIds, db.ops), db.next, now, next, op)
    ensures var d := Assembled(db, j, next, op);
            Core(p, d) && Evolves(db.ops, d.ops) && Steady(d.jobs, d.ops) && next.completed == |db.jobs[j].opIds|
            && next.spec == db.jobs[j].spec && next.cpe == db.jobs[j].cpe
  {
    hide Core, JobOk, Steady, SteadyBut, Evolves, AllIn, TraceOf, CitedBy, Waits, IdSet, NewOp, Assembled;
    if op.None? {
      AssembledClose(p, db, j, TraceOf(db.jobs[j].opIds, db.ops), next);
    } else {
      AssembledLaunch(p, db, j, TraceOf(db.jobs[j].opIds, db.ops), next, op.value);
    }
  }

  /** Advancing a ready job: it either closes or waits for a new operation. */
  lemma AdvanceReady(p: Policy, db: Db, j: Id, now: Time)
    requires PlanContract(p) && Core(p, db) && Ready(db, j) && SteadyBut(db.jobs, db.ops, db.jobs[j].cpe)
    ensures var d := Advance(p, db, j, now);
            && Core(p, d) && Evolves(db.ops, d.ops) && Steady(d.jobs, d.ops)
            && j in d.jobs && d.jobs[j].completed == |db.jobs[j].opIds|
            && d.jobs[j].spec == db.jobs[j].spec && d.jobs[j].cpe == db.jobs[j].cpe
            && d == db.(jobs := d.jobs, ops := d.ops, next := d.next)
  {
    hide Core, JobOk, OpsLinked, Steady, SteadyBut, Evolves, AllIn, TraceOf, CitedBy, CatalogSourced, ReadyJob,
      PlanContract, DoneIds, Launch, LaunchPost;
    var job, ready := db.jobs[j], ReadyJob(db, db.jobs[j]);
    JobInCore(p, db, j);
    ReadyKeeps(p, db, j);
    ReadyNotIn(job.opIds, db.ops, db.next, db.store.cpes.Keys);
    var target := TargetOf(db.store.cpes[job.cpe]);
    LaunchKeeps(p, target, ready, TraceOf(job.opIds, db.ops), db.next, now);
    var (next, op) := Launch(p, target, ready, db.next, now);
    AssembledCore(p, db, j, ready, now, next, op);
    assert Advance(p, db, j, now) == Assembled(db, j, next, op);
  }

  /** A CPE whose jobs all wait is left alone. */
  lemma Unadvanced(p: Policy, db: Db, cpe: Id, now: Time)
    requires forall j | j in db.jobs && db.jobs[j].cpe == cpe :: Waits(db, db.jobs[j])
    ensures AdvanceActive(p, db, cpe, now) == db
  {
    hide Launch, ReadyJob;
  }

  lemma EvolvesSame(ops: map<Id, Op>)
    ensures Evolves(ops, ops)
  {}
}
