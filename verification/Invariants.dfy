/** What every reachable state of the queue satisfies. Each part speaks of the tables it needs and no
    others, so that a step that leaves those tables alone keeps it at once. */
module Invariants {
  import opened Text
  import opened Domain
  import opened Policies
  import opened Jobs
  import opened Registers
  import opened Queue

  // ----- Rows refer to rows that exist; identities are fresh -----

  ghost predicate SessionsLinked(sessions: map<string, Session>, cpes: set<Id>) {
    forall t | t in sessions :: sessions[t].cpe in cpes
  }

  ghost predicate OpsLinked(next: Id, ops: map<Id, Op>, cpes: set<Id>) {
    forall i | i in ops :: i < next && ops[i].ask.cpe in cpes
  }

  ghost predicate JobsLinked(next: Id, jobs: map<Id, Job>, cpes: set<Id>) {
    forall j | j in jobs :: j < next && jobs[j].cpe in cpes
  }

  ghost predicate CpesLinked(next: Id, cpes: set<Id>) {
    forall c | c in cpes :: c < next
  }

  // ----- Operation, attempt and session move together -----

  /** One operation on its own. */
  ghost predicate OpOk(op: Op, attempted: bool) {
    && (op.state.Dispatched? || op.state.Succeeded? ==> attempted)
    && (op.state.Pending? ==> !attempted)
    && (!attempted ==> op.expiresAt == op.ask.createdAt + QUEUE_SECONDS)
    && (Active(op) <==> op.finishedAt.None?)
    && (match op.ask.scope
        case DeviceInfo => op.ask.path.None?
        case Discovery => op.ask.kind.GetNames? && op.ask.path.Some? && Concrete(op.ask.path.value)
        case _ => op.ask.kind.GetValues? && op.ask.path.Some? && 1 <= |op.ask.requested| <= 16)
    && Ascending(Self, op.ask.requested)
    && (op.state.Succeeded? && op.ask.kind.GetValues? && op.ask.scope.DeviceInfo? && op.ask.requested != [] ==>
          ItemNames(op.result) == op.ask.requested)
  }

  ghost predicate OpsOk(ops: map<Id, Op>, attempted: set<Id>) {
    forall i | i in ops :: OpOk(ops[i], i in attempted)
  }

  /** One attempt with its operation and its session: dispatched exactly while the session awaits the
      response, one deadline for the three, a digest exactly when a reply was recorded. */
  ghost predicate AttemptOk(op: Op, a: Attempt, s: Session) {
    && s.cpe == op.ask.cpe
    && !op.state.Pending? && !s.state.AwaitingEmpty?
    && (op.state.Dispatched? <==> s.state.AwaitingResponse?)
    && a.expiresAt == Earlier(op.ask.createdAt + QUEUE_SECONDS, a.dispatchedAt + DISPATCH_SECONDS)
    && op.expiresAt == a.expiresAt == s.expiresAt
    && (a.digest.Some? <==> op.state.Succeeded? || (op.state.Failed? && op.reason != Some(ProfileChanged)))
  }

  ghost predicate AttemptsOk(ops: map<Id, Op>, attempts: map<Id, Attempt>, sessions: map<string, Session>) {
    forall i | i in attempts ::
      i in ops && attempts[i].session in sessions && AttemptOk(ops[i], attempts[i], sessions[attempts[i].session])
  }

  /** No session was used for two operations. */
  ghost predicate OneAttemptEach(attempts: map<Id, Attempt>) {
    forall i, k | i in attempts && k in attempts && attempts[i].session == attempts[k].session :: i == k
  }

  ghost predicate WaitersAttempted(attempts: map<Id, Attempt>, sessions: map<string, Session>) {
    forall t | t in sessions && sessions[t].state.AwaitingResponse? ::
        exists i :: i in attempts && attempts[i].session == t
  }

  ghost predicate Coupled(ops: map<Id, Op>, attempts: map<Id, Attempt>, sessions: map<string, Session>) {
    && OpsOk(ops, attempts.Keys) && AttemptsOk(ops, attempts, sessions)
    && OneAttemptEach(attempts) && WaitersAttempted(attempts, sessions)
  }

  // ----- Mutual exclusion -----

  /** The partial unique index on active operations. */
  ghost predicate OneActive(ops: map<Id, Op>) {
    forall i, k | i in ops && k in ops && Active(ops[i]) && Active(ops[k]) && ops[i].ask.cpe == ops[k].ask.cpe :: i == k
  }

  /** The partial unique index on running jobs. */
  ghost predicate OneRunning(jobs: map<Id, Job>) {
    forall i, k | i in jobs && k in jobs && jobs[i].state.JobRunning? && jobs[k].state.JobRunning?
        && jobs[i].cpe == jobs[k].cpe :: i == k
  }

  /** While a job runs, only its current operation may be active for its CPE. */
  ghost predicate JobsDrive(jobs: map<Id, Job>, ops: map<Id, Op>) {
    forall j, i | j in jobs && i in ops && jobs[j].state.JobRunning? && Active(ops[i])
        && ops[i].ask.cpe == jobs[j].cpe ::
      jobs[j].current == Some(i)
  }

  /** Idempotency keys are unique per CPE. */
  ghost predicate OpKeys(ops: map<Id, Op>) {
    && (forall i, k | i in ops && k in ops && ops[i].ask.cpe == ops[k].ask.cpe && ops[i].ask.key == ops[k].ask.key ::
        i == k)
    && (forall i | i in ops && ops[i].ask.key.ServerKey? :: ops[i].ask.key == ServerKey(i))
  }

  ghost predicate JobKeys(jobs: map<Id, Job>) {
    forall i, k | i in jobs && k in jobs && jobs[i].cpe == jobs[k].cpe && jobs[i].key == jobs[k].key :: i == k
  }

  // ----- Jobs -----

  ghost predicate AllIn(ids: seq<Id>, ops: map<Id, Op>) { forall i | i in ids :: i in ops }

  /** The operations a job launched, in order. */
  ghost function TraceOf(ids: seq<Id>, ops: map<Id, Op>): (r: seq<Op>)
    requires AllIn(ids, ops)
    ensures |r| == |ids| && forall i | 0 <= i < |ids| :: r[i] == ops[ids[i]]
  {
    if ids == [] then [] else TraceOf(ids[..|ids| - 1], ops) + [ops[ids[|ids| - 1]]]
  }

  ghost predicate JobsOk(jobs: map<Id, Job>, ops: map<Id, Op>) {
    forall j | j in jobs :: AllIn(jobs[j].opIds, ops) && JobOk(jobs[j], TraceOf(jobs[j].opIds, ops))
  }

  function DoneIds(job: Job): set<Id> {
    set i | 0 <= i < |job.opIds| && (job.current.Some? ==> i < |job.opIds| - 1) :: job.opIds[i]
  }

  function CitedBy(catalog: map<PathKey, CatalogRow>, ids: set<Id>): set<PathKey> {
    set k | k in catalog && catalog[k].operation in ids
  }

  /** While a walk runs, its entry count is the number of catalog rows that cite what it has accounted for,
      and the rows of its current operation still fit the budget. */
  ghost predicate Accounted(jobs: map<Id, Job>, catalog: map<PathKey, CatalogRow>) {
    forall j | j in jobs && jobs[j].state.JobRunning? && jobs[j].spec.kind.WalkJob? ::
      && jobs[j].entryCount == |CitedBy(catalog, DoneIds(jobs[j]))|
      && (jobs[j].current.Some? ==>
          jobs[j].entryCount + |Cited(catalog, jobs[j].current.value)| <= jobs[j].spec.maxEntries)
  }

  /** Between steps a running job waits for an operation that has not succeeded yet. */
  ghost predicate Steady(jobs: map<Id, Job>, ops: map<Id, Op>) {
    forall j | j in jobs && jobs[j].state.JobRunning? ::
      jobs[j].current.Some? && jobs[j].current.value in ops && !ops[jobs[j].current.value].state.Succeeded?
  }

  // ----- Provenance -----

  function AskedPath(ask: Ask): string { if ask.path.Some? then ask.path.value else DEVICE_INFO }

  function AskedNames(defaults: seq<string>, ask: Ask): seq<string> {
    if ask.requested != [] then ask.requested else defaults
  }

  /** A catalog row cites a successful names read of the same CPE, at the time it finished, and names a direct
      child of the path that was asked. */
  ghost predicate CatalogSourced(ops: map<Id, Op>, catalog: map<PathKey, CatalogRow>) {
    forall k | k in catalog ::
      && catalog[k].operation in ops
      && var op := ops[catalog[k].operation];
      && op.state.Succeeded? && op.ask.kind.GetNames? && op.ask.cpe == k.0
      && op.finishedAt == Some(catalog[k].observedAt)
      && DirectChild(AskedPath(op.ask), k.1)
      && catalog[k].isObject == IsObjectName(k.1) && (IsObjectName(k.1) ==> Concrete(k.1))
  }

  /** A value row cites a successful values read of the same CPE that asked for that name. */
  ghost predicate ValuesSourced(defaults: seq<string>, ops: map<Id, Op>, values: map<PathKey, ValueRow>) {
    forall k | k in values ::
      && values[k].operation in ops
      && var op := ops[values[k].operation];
      && op.state.Succeeded? && op.ask.kind.GetValues? && op.ask.scope.DeviceInfo? && op.ask.cpe == k.0
      && op.finishedAt == Some(values[k].observedAt) && k.1 in AskedNames(defaults, op.ask)
  }

  /** A terminal values read of the CPE that finished at `at`. */
  ghost predicate ReadAt(ops: map<Id, Op>, id: Id, cpe: Id, at: Time) {
    && id in ops && ops[id].ask.cpe == cpe && ops[id].ask.kind.GetValues?
    && (ops[id].state.Succeeded? || ops[id].state.Failed?) && ops[id].finishedAt == Some(at)
  }

  ghost predicate RowSourced(ops: map<Id, Op>, cpe: Id, row: FieldRow) {
    && (row.operation.Some? ==> ReadAt(ops, row.operation.value, cpe, row.observedAt))
    && (row.valueOperation.Some? ==>
          row.valueReceivedAt.Some? && ReadAt(ops, row.valueOperation.value, cpe, row.valueReceivedAt.value))
  }

  ghost predicate FieldsSourced(ops: map<Id, Op>, rows: map<(Id, Field), FieldRow>) {
    forall k | k in rows :: RowSourced(ops, k.0, rows[k])
  }

  ghost predicate TelemetrySourced(ops: map<Id, Op>, rows: map<TelemetryKey, TelemetryRow>) {
    forall k | k in rows ::
      && ReadAt(ops, rows[k].operation, k.0, rows[k].observedAt)
      && (rows[k].valueOperation.Some? ==>
            rows[k].valueReceivedAt.Some?
              && ReadAt(ops, rows[k].valueOperation.value, k.0, rows[k].valueReceivedAt.value))
  }

  ghost predicate StoreOk(ops: map<Id, Op>, s: Store) {
    && ApprovalSafe(s) && FieldsChecked(s.fields) && TelemetryChecked(s.telemetry)
    && FieldsSourced(ops, s.fields) && TelemetrySourced(ops, s.telemetry)
  }

  // ----- Together -----

  /** Holds at every point of a step, also between recording a reply and advancing the job. */
  ghost predicate Core(p: Policy, db: Db) {
    && SessionsLinked(db.sessions, db.store.cpes.Keys) && OpsLinked(db.next, db.ops, db.store.cpes.Keys)
    && JobsLinked(db.next, db.jobs, db.store.cpes.Keys) && CpesLinked(db.next, db.store.cpes.Keys)
    && Coupled(db.ops, db.attempts, db.sessions)
    && OneActive(db.ops) && OneRunning(db.jobs) && JobsDrive(db.jobs, db.ops) && OpKeys(db.ops) && JobKeys(db.jobs)
    && JobsOk(db.jobs, db.ops) && Accounted(db.jobs, db.catalog)
    && CatalogSourced(db.ops, db.catalog) && ValuesSourced(p.defaults, db.ops, db.values)
    && StoreOk(db.ops, db.store)
  }

  /** Holds between steps. */
  ghost predicate Inv(p: Policy, db: Db) { Core(p, db) && Steady(db.jobs, db.ops) }

  // ----- What a step may do to the operations -----

  /** No operation disappears, no request changes, and a terminal operation never changes at all. */
  ghost predicate Evolves(ops: map<Id, Op>, later: map<Id, Op>) {
    forall i | i in ops :: i in later && later[i].ask == ops[i].ask && (!Active(ops[i]) ==> later[i] == ops[i])
  }

  /** Nothing becomes active. */
  ghost predicate Calmer(ops: map<Id, Op>, later: map<Id, Op>) {
    forall i | i in later && Active(later[i]) :: i in ops && Active(ops[i])
  }

  lemma EvolvesTransitive(a: map<Id, Op>, b: map<Id, Op>, c: map<Id, Op>)
    requires Evolves(a, b) && Evolves(b, c)
    ensures Evolves(a, c)
  {}

  lemma CalmKeepsActive(jobs: map<Id, Job>, ops: map<Id, Op>, later: map<Id, Op>)
    requires OneActive(ops) && JobsDrive(jobs, ops) && Evolves(ops, later) && Calmer(ops, later)
    ensures OneActive(later) && JobsDrive(jobs, later)
  {}

  lemma EvolveKeepsKeys(ops: map<Id, Op>, later: map<Id, Op>)
    requires OpKeys(ops) && Evolves(ops, later) && later.Keys == ops.Keys
    ensures OpKeys(later)
  {}

  // ----- Jobs do not notice what happens to operations they have not accounted for -----

  /** Two versions of a job's operations that agree on requests and on everything accounted for. */
  ghost predicate Agree(a: seq<Op>, b: seq<Op>, done: int) {
    && |a| == |b|
    && (forall i | 0 <= i < |a| :: a[i].ask == b[i].ask)
    && (forall i | 0 <= i < done && i < |a| :: a[i] == b[i])
  }

  lemma {:induction false} AgreeAsked(a: seq<Op>, b: seq<Op>)
    requires |a| == |b| && forall i | 0 <= i < |a| :: a[i].ask == b[i].ask
    ensures Asked(a) == Asked(b)
  {
    if a != [] {
      var n := |a| - 1;
      AgreeAsked(a[..n], b[..n]);
    }
  }

  lemma AgreeLevelled(root: string, depth: int, a: seq<Op>, b: seq<Op>, done: int, frontier: seq<Step>)
    requires Agree(a, b, done)
    ensures TraceLevelled(root, depth, a) ==> TraceLevelled(root, depth, b)
    ensures Apart(a, frontier) ==> Apart(b, frontier)
  {}

  lemma AgreeRooted(root: string, a: seq<Op>, b: seq<Op>, done: int, frontier: seq<Step>)
    requires Agree(a, b, done) && Rooted(root, done, a, frontier)
    ensures Rooted(root, done, b, frontier)
  {}

  lemma AgreeWalking(job: Job, a: seq<Op>, b: seq<Op>)
    requires Agree(a, b, Done(job)) && Walking(job, a)
    ensures Walking(job, b)
  {
    hide TraceLevelled, Apart, Rooted, FrontierLevelled;
    AgreeLevelled(job.spec.root.value, job.depth, a, b, Done(job), job.frontier);
    AgreeRooted(job.spec.root.value, a, b, Done(job), job.frontier);
  }

  lemma AgreeWithin(maxEntries: int, a: seq<Op>, b: seq<Op>, done: int)
    requires Agree(a, b, done) && |a| - 1 <= done && TraceWithin(maxEntries, a)
    ensures TraceWithin(maxEntries, b)
  {
    forall i | 0 <= i < |b| ensures a[..i] == b[..i] {}
  }

  lemma AgreeBatched(batch: int, a: seq<Op>, b: seq<Op>, done: int)
    requires Agree(a, b, done) && TraceBatched(batch, done, a)
    ensures TraceBatched(batch, done, b)
  {}

  lemma AgreeReading(job: Job, a: seq<Op>, b: seq<Op>)
    requires Agree(a, b, Done(job)) && |a| - 1 <= Done(job) && Reading(job, a)
    ensures Reading(job, b)
  {
    hide Asked, Waiting, Returned, Partitioned, FrontierBatched, TraceWithin, TraceBatched;
    AgreeAsked(a, b);
    AgreeWithin(job.spec.maxEntries, a, b, Done(job));
    AgreeBatched(job.spec.batch, a, b, Done(job));
    assert a[..Done(job)] == b[..Done(job)];
  }

  lemma AgreeShaped(job: Job, a: seq<Op>, b: seq<Op>)
    requires Agree(a, b, Done(job)) && Shaped(job, a)
    ensures Shaped(job, b)
  {}

  lemma LastOpen(job: Job, trace: seq<Op>)
    requires Shaped(job, trace)
    ensures |trace| - 1 <= Done(job)
  {}

  lemma AgreeKeepsJob(job: Job, a: seq<Op>, b: seq<Op>)
    requires Agree(a, b, Done(job)) && JobOk(job, a)
    ensures JobOk(job, b)
  {
    hide Agree, Shaped, Walking, Reading;
    AgreeShaped(job, a, b);
    LastOpen(job, a);
    if job.spec.kind.WalkJob? { AgreeWalking(job, a, b); } else { AgreeReading(job, a, b); }
  }

  lemma TracesAgree(ids: seq<Id>, ops: map<Id, Op>, later: map<Id, Op>, done: int)
    requires AllIn(ids, ops) && Evolves(ops, later) && Over(done, TraceOf(ids, ops))
    ensures AllIn(ids, later) && Agree(TraceOf(ids, ops), TraceOf(ids, later), done)
  {}

  lemma EvolveKeepsTrace(job: Job, ops: map<Id, Op>, later: map<Id, Op>)
    requires AllIn(job.opIds, ops) && JobOk(job, TraceOf(job.opIds, ops)) && Evolves(ops, later)
    ensures AllIn(job.opIds, later) && JobOk(job, TraceOf(job.opIds, later))
  {
    hide Evolves, AllIn, TraceOf, Over, Agree, Walking, Reading;
    assert Over(Done(job), TraceOf(job.opIds, ops));
    TracesAgree(job.opIds, ops, later, Done(job));
    hide JobOk;
    AgreeKeepsJob(job, TraceOf(job.opIds, ops), TraceOf(job.opIds, later));
  }

  /** Every job outlives whatever happens to other operations and to its own current one. */
  lemma EvolveKeepsJobs(jobs: map<Id, Job>, ops: map<Id, Op>, later: map<Id, Op>)
    requires JobsOk(jobs, ops) && Evolves(ops, later)
    ensures JobsOk(jobs, later)
  {
    hide JobOk, Evolves;
    forall j | j in jobs ensures AllIn(jobs[j].opIds, later) && JobOk(jobs[j], TraceOf(jobs[j].opIds, later)) {
      EvolveKeepsTrace(jobs[j], ops, later);
    }
  }

  lemma EvolveKeepsRows(defaults: seq<string>, ops: map<Id, Op>, later: map<Id, Op>, catalog: map<PathKey, CatalogRow>,
                        values: map<PathKey, ValueRow>)
    requires Evolves(ops, later)
    ensures CatalogSourced(ops, catalog) ==> CatalogSourced(later, catalog)
    ensures ValuesSourced(defaults, ops, values) ==> ValuesSourced(defaults, later, values)
  {
    hide DirectChild, IsObjectName, Concrete;
  }

  lemma EvolveKeepsReads(ops: map<Id, Op>, later: map<Id, Op>, id: Id, cpe: Id, at: Time)
    requires Evolves(ops, later) && ReadAt(ops, id, cpe, at)
    ensures ReadAt(later, id, cpe, at)
  {}

  lemma EvolveKeepsStore(ops: map<Id, Op>, later: map<Id, Op>, s: Store)
    requires Evolves(ops, later) && StoreOk(ops, s)
    ensures StoreOk(later, s)
  {
    hide Evolves, ReadAt, FieldsChecked, TelemetryChecked, ApprovalSafe;
    forall id, cpe, at | ReadAt(ops, id, cpe, at) ensures ReadAt(later, id, cpe, at) {
      EvolveKeepsReads(ops, later, id, cpe, at);
    }
  }

  lemma EvolveKeepsSources(defaults: seq<string>, ops: map<Id, Op>, later: map<Id, Op>,
                           catalog: map<PathKey, CatalogRow>, values: map<PathKey, ValueRow>, store: Store)
    requires Evolves(ops, later)
    requires CatalogSourced(ops, catalog) && ValuesSourced(defaults, ops, values) && StoreOk(ops, store)
    ensures CatalogSourced(later, catalog) && ValuesSourced(defaults, later, values) && StoreOk(later, store)
  {
    hide Evolves, CatalogSourced, ValuesSourced, StoreOk;
    EvolveKeepsRows(defaults, ops, later, catalog, values);
    EvolveKeepsStore(ops, later, store);
  }
}
