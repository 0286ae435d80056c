/** The query queue: sessions, operations, attempts, jobs and what replies leave behind, as one value,
    and every repository operation as a function from state to state. A raised error commits nothing. */
module Queue {
  import opened Text
  import opened Domain
  import opened Policies
  import opened Jobs
  import opened Registers

  datatype SessionState = AwaitingEmpty | AwaitingResponse | Completed

  datatype Session = Session(cpe: Id, state: SessionState, expiresAt: Time, completedAt: Option<Time>)

  datatype ReplyKind = FaultKind | NamesKind | ValuesKind

  /** What the digest of a reply covers; SHA-256 of it is taken to be injective. */
  datatype Digest = Digest(kind: ReplyKind, fault: Option<int>, reason: Option<Reason>, items: seq<Item>)

  datatype Attempt = Attempt(session: string, rpcId: string, dispatchedAt: Time, expiresAt: Time,
                             digest: Option<Digest>)

  datatype CatalogRow = CatalogRow(isObject: bool, writable: bool, observedAt: Time, operation: Id)

  datatype ValueRow = ValueRow(xsdType: string, value: string, observedAt: Time, operation: Id)

  type PathKey = (Id, string)

  /** Sessions are keyed by their unique token; identities are drawn from `next`. */
  datatype Db = Db(next: Id, sessions: map<string, Session>, ops: map<Id, Op>, attempts: map<Id, Attempt>,
                   jobs: map<Id, Job>, catalog: map<PathKey, CatalogRow>, values: map<PathKey, ValueRow>, store: Store)

  datatype Error =
    | InvalidSession | NotFound | StorageUnavailable | InvalidEvidence | Conflict(code: string) | AssertionError

  datatype Result<+T> = Ok(value: T) | Err(error: Error)

  /** A committed transaction with its result, or a raised error and no change. */
  datatype Outcome<+R> = Commit(db: Db, result: R) | Raised(error: Error)

  // ----- Deadlines -----

  predicate Due(op: Op, cpe: Id, now: Time) { op.ask.cpe == cpe && Active(op) && op.expiresAt <= now }

  function ExpiredOp(op: Op, now: Time): Op {
    op.(state := Expired, reason := Some(DeadlineExceeded), finishedAt := Some(now))
  }

  function ExpireOps(ops: map<Id, Op>, cpe: Id, now: Time): map<Id, Op> {
    map id | id in ops :: if Due(ops[id], cpe, now) then ExpiredOp(ops[id], now) else ops[id]
  }

  ghost predicate ExpiresWith(ops: map<Id, Op>, attempts: map<Id, Attempt>, cpe: Id, now: Time, token: string) {
    exists id :: id in ops && Due(ops[id], cpe, now) && id in attempts && attempts[id].session == token
  }

  function Ended(s: Session, now: Time): Session {
    if s.state.Completed? then s else s.(state := Completed, completedAt := Some(now))
  }

  ghost function ExpireSessions(sessions: map<string, Session>, ops: map<Id, Op>, attempts: map<Id, Attempt>, cpe: Id,
                                now: Time): map<string, Session> {
    map t | t in sessions :: if ExpiresWith(ops, attempts, cpe, now, t) then Ended(sessions[t], now) else sessions[t]
  }

  ghost function Expire(db: Db, cpe: Id, now: Time): Db {
    db.(ops := ExpireOps(db.ops, cpe, now),
        sessions := ExpireSessions(db.sessions, db.ops, db.attempts, cpe, now))
  }

  // ----- Lookups -----

  ghost function ActiveJob(jobs: map<Id, Job>, cpe: Id): (r: Option<Id>)
    ensures r.Some? ==> r.value in jobs && jobs[r.value].cpe == cpe && jobs[r.value].state.JobRunning?
    ensures r.None? ==> forall j | j in jobs && jobs[j].cpe == cpe :: !jobs[j].state.JobRunning?
  {
    if j :| j in jobs && jobs[j].cpe == cpe && jobs[j].state.JobRunning? then Some(j) else None
  }

  ghost function ActiveOp(ops: map<Id, Op>, cpe: Id): (r: Option<Id>)
    ensures r.Some? ==> r.value in ops && ops[r.value].ask.cpe == cpe && Active(ops[r.value])
    ensures r.None? ==> forall i | i in ops && ops[i].ask.cpe == cpe :: !Active(ops[i])
  {
    if i :| i in ops && ops[i].ask.cpe == cpe && Active(ops[i]) then Some(i) else None
  }

  ghost function PendingOp(ops: map<Id, Op>, cpe: Id): (r: Option<Id>)
    ensures r.Some? ==> r.value in ops && ops[r.value].ask.cpe == cpe && ops[r.value].state.Pending?
    ensures r.None? ==> forall i | i in ops && ops[i].ask.cpe == cpe :: !ops[i].state.Pending?
  {
    if i :| i in ops && ops[i].ask.cpe == cpe && ops[i].state.Pending? then Some(i) else None
  }

  ghost function OpByKey(ops: map<Id, Op>, cpe: Id, key: Key): (r: Option<Id>)
    ensures r.Some? ==> r.value in ops && ops[r.value].ask.cpe == cpe && ops[r.value].ask.key == key
    ensures r.None? ==> forall i | i in ops && ops[i].ask.cpe == cpe :: ops[i].ask.key != key
  {
    if i :| i in ops && ops[i].ask.cpe == cpe && ops[i].ask.key == key then Some(i) else None
  }

  ghost function JobByKey(jobs: map<Id, Job>, cpe: Id, key: Key): (r: Option<Id>)
    ensures r.Some? ==> r.value in jobs && jobs[r.value].cpe == cpe && jobs[r.value].key == key
    ensures r.None? ==> forall j | j in jobs && jobs[j].cpe == cpe :: jobs[j].key != key
  {
    if j :| j in jobs && jobs[j].cpe == cpe && jobs[j].key == key then Some(j) else None
  }

  ghost function AttemptOf(attempts: map<Id, Attempt>, token: string): (r: Option<Id>)
    ensures r.Some? ==> r.value in attempts && attempts[r.value].session == token
    ensures r.None? ==> forall i | i in attempts :: attempts[i].session != token
  {
    if i :| i in attempts && attempts[i].session == token then Some(i) else None
  }

  ghost function AttemptFor(attempts: map<Id, Attempt>, token: string, rpcId: string): (r: Option<Id>)
    ensures r.Some? ==> r.value in attempts && attempts[r.value].session == token && attempts[r.value].rpcId == rpcId
    ensures r.None? ==> forall i | i in attempts :: attempts[i].session != token || attempts[i].rpcId != rpcId
  {
    if i :| i in attempts && attempts[i].session == token && attempts[i].rpcId == rpcId then Some(i) else None
  }

  function TargetOf(c: Cpe): Target { Target(c.manufacturer, c.oui, c.productClass, c.firmware, c.model) }

  /** The plan for a stored operation, provided that its profile and firmware are still the ones it was made for. */
  function RowPlan(p: Policy, target: Target, ask: Ask): Option<Plan> {
    match p.plan(target, ask.scope, ask.path, ask.requested)
    case None => None
    case Some(plan) =>
      if plan.profileId == ask.profileId && plan.profileVersion == ask.profileVersion
          && plan.target.firmware == ask.firmware
      then Some(plan) else None
  }

  // ----- Advancing a job -----

  function Cited(catalog: map<PathKey, CatalogRow>, id: Id): set<PathKey> {
    set k | k in catalog && catalog[k].operation == id
  }

  function CitedPaths(catalog: map<PathKey, CatalogRow>, id: Id): set<string> {
    set k | k in catalog && catalog[k].operation == id :: k.1
  }

  /** The catalogued entries that cite an operation, in path order. */
  ghost function EntriesOf(catalog: map<PathKey, CatalogRow>, cpe: Id, id: Id): seq<Entry> {
    var paths := SortedNames(CitedPaths(catalog, id));
    seq(|paths|, i requires 0 <= i < |paths| =>
      Entry(paths[i], (cpe, paths[i]) in catalog && catalog[(cpe, paths[i])].isObject))
  }

  /** The job ready for its launch loop. */
  ghost function ReadyJob(db: Db, job: Job): Job {
    if job.current.Some? && job.current.value in db.ops then
      Settled(job, job.current.value, db.ops[job.current.value], EntriesOf(db.catalog, job.cpe, job.current.value))
    else job
  }

  predicate Waits(db: Db, job: Job) {
    || !job.state.JobRunning?
    || (job.current.Some? && job.current.value in db.ops && Active(db.ops[job.current.value]))
  }

  ghost function Advance(p: Policy, db: Db, j: Id, now: Time): Db
    requires j in db.jobs
  {
    var job := db.jobs[j];
    if Waits(db, job) || job.cpe !in db.store.cpes then db
    else
      var (next, op) := Launch(p, TargetOf(db.store.cpes[job.cpe]), ReadyJob(db, job), db.next, now);
      match op
      case None => db.(jobs := db.jobs[j := next])
      case Some(o) => db.(jobs := db.jobs[j := next], ops := db.ops[db.next := o], next := db.next + 1)
  }

  ghost function AdvanceActive(p: Policy, db: Db, cpe: Id, now: Time): Db {
    match ActiveJob(db.jobs, cpe)
    case None => db
    case Some(j) => Advance(p, db, j, now)
  }

  // ----- Creating operations -----

  predicate BadSelection(kind: Kind, scope: Scope, names: seq<string>) {
    names != [] && (!kind.GetValues? || scope.Discovery? || |names| > 16
                    || exists i, j :: 0 <= i < j < |names| && names[i] == names[j])
  }

  predicate SameRequest(op: Op, kind: Kind, scope: Scope, path: Option<string>, capture: bool, names: seq<string>) {
    && op.ask.kind == kind && op.ask.scope == scope && op.ask.path == path && op.ask.capture == capture
    && (scope.DeviceInfo? ==> op.ask.requested == names)
    && (Measured(scope) && names != [] ==> op.ask.requested == names)
  }

  datatype Request = Request(cpe: Id, kind: Kind, key: nat, scope: Scope, path: Option<string>,
                             capture: bool, names: seq<string>)

  /** The plan a new operation gets. `discovered` stands for the names that recent discovery results
      offer under the path. */
  function CreatePlan(p: Policy, target: Target, r: Request, discovered: seq<string>): Result<Plan> {
    var names := SortBy(Self, r.names);
    if r.scope.Discovery? && !r.kind.GetNames? then Err(Conflict("discovery_is_names_only"))
    else if Measured(r.scope) && (!r.kind.GetValues? || r.path.None?) then Err(Conflict("collection_is_values_only"))
    else if Measured(r.scope) && names != [] && exists n :: n in names && n !in discovered
        then Err(Conflict("discovery_required"))
    else
      match p.plan(target, r.scope, r.path, if names != [] then names else if Measured(r.scope) then discovered else [])
      case None => Err(Conflict("unsupported_plan"))
      case Some(plan) =>
        if Measured(r.scope) && names != [] && SetOf(plan.names) != SetOf(names)
        then Err(Conflict("unsupported_parameters"))
        else Ok(plan)
  }

  function RequestAsk(r: Request, plan: Plan, now: Time): Ask {
    Ask(r.cpe, ClientKey(r.key), r.kind, r.scope, r.path, r.capture,
        if Measured(r.scope) || r.names != [] then plan.names else [],
        plan.profileId, plan.profileVersion, plan.target.firmware, now)
  }

  function WithOp(db: Db, op: Op): Db { db.(ops := db.ops[db.next := op], next := db.next + 1) }

  ghost function Create(p: Policy, db: Db, r: Request, discovered: seq<string>, now: Time): Outcome<Id> {
    if BadSelection(r.kind, r.scope, r.names) then Raised(Conflict("unsupported_parameters"))
    else if r.cpe !in db.store.cpes then Raised(NotFound)
    else
      var d := Expire(db, r.cpe, now);
      match OpByKey(d.ops, r.cpe, ClientKey(r.key))
      case Some(id) =>
        if SameRequest(d.ops[id], r.kind, r.scope, r.path, r.capture, SortBy(Self, r.names)) then Commit(d, id)
        else Raised(Conflict("idempotency_conflict"))
      case None =>
        if ActiveJob(d.jobs, r.cpe).Some? then Raised(Conflict("collection_in_progress"))
        else if ActiveOp(d.ops, r.cpe).Some? then Raised(Conflict("operation_in_progress"))
        else
          match CreatePlan(p, TargetOf(d.store.cpes[r.cpe]), r, discovered)
          case Err(e) => Raised(e)
          case Ok(plan) => Commit(WithOp(d, NewOp(RequestAsk(r, plan, now))), d.next)
  }

  ghost function Get(db: Db, cpe: Id, id: Id, now: Time): Outcome<Op> {
    if cpe !in db.store.cpes then Raised(NotFound)
    else
      var d := Expire(db, cpe, now);
      if id !in d.ops || d.ops[id].ask.cpe != cpe then Raised(NotFound) else Commit(d, d.ops[id])
  }

  // ----- Creating and polling jobs -----

  function Batches(names: seq<string>, batch: int): seq<Step>
    requires 1 <= batch
    decreases |names|
  {
    if names == [] then []
    else if |names| <= batch then [Step(0, None, names)]
    else [Step(0, None, names[..batch])] + Batches(names[batch..], batch)
  }

  function NewJob(cpe: Id, key: Key, spec: Spec, frontier: seq<Step>, now: Time): Job {
    Job(cpe, key, spec, JobRunning, frontier, None, 0, 0, 0, 0, [], [], [], now, None)
  }

  /** Every selected name is a catalogued leaf. */
  predicate Leaves(catalog: map<PathKey, CatalogRow>, cpe: Id, names: seq<string>) {
    forall n | n in names :: (cpe, n) in catalog && !catalog[(cpe, n)].isObject
  }

  function FirstFrontier(p: Policy, db: Db, cpe: Id, spec: Spec): Result<seq<Step>>
    requires cpe in db.store.cpes && ValidSpec(spec)
  {
    var target := TargetOf(db.store.cpes[cpe]);
    if spec.kind.WalkJob? then
      if p.plan(target, Discovery, spec.root, []).None? then Err(Conflict("unsupported_plan"))
      else Ok([Step(0, spec.root, [])])
    else if !Leaves(db.catalog, cpe, spec.names) then Err(Conflict("selection_requires_catalog_leaves"))
    else if p.plan(target, DeviceInfo, None, spec.names).None? then Err(Conflict("unsupported_plan"))
    else Ok(Batches(spec.names, spec.batch))
  }

  function WithJob(db: Db, job: Job): Db { db.(jobs := db.jobs[db.next := job], next := db.next + 1) }

  ghost function CreateJob(p: Policy, db: Db, cpe: Id, spec: Spec, key: nat, now: Time): Outcome<Id> {
    if cpe !in db.store.cpes then Raised(NotFound)
    else
      var d := Expire(db, cpe, now);
      if !ValidSpec(spec) then Raised(Conflict(SpecConflict(spec)))
      else
        var data := spec.(names := SortBy(Self, spec.names));
        match JobByKey(d.jobs, cpe, ClientKey(key))
        case Some(j) => if d.jobs[j].spec == data then Commit(d, j) else Raised(Conflict("idempotency_conflict"))
        case None =>
          if ActiveJob(d.jobs, cpe).Some? || ActiveOp(d.ops, cpe).Some? then Raised(Conflict("operation_in_progress"))
          else
            SortedSpecValid(spec);
            match FirstFrontier(p, d, cpe, data)
            case Err(e) => Raised(e)
            case Ok(frontier) =>
              Commit(Advance(p, WithJob(d, NewJob(cpe, ClientKey(key), data, frontier, now)), d.next, now), d.next)
  }

  lemma SortedSpecValid(spec: Spec)
    requires ValidSpec(spec)
    ensures ValidSpec(spec.(names := SortBy(Self, spec.names)))
    ensures Ascending(Self, SortBy(Self, spec.names))
  {
    assert DistinctBy(Self, spec.names);
    SortAscends(Self, spec.names);
    AscendingDistinct(Self, SortBy(Self, spec.names));
    var s := SortBy(Self, spec.names);
    assert forall i, j | 0 <= i < j < |s| :: Self(s[i]) != Self(s[j]);
  }

  ghost function GetJob(p: Policy, db: Db, cpe: Id, j: Id, now: Time): Outcome<Job> {
    if cpe !in db.store.cpes || j !in db.jobs || db.jobs[j].cpe != cpe then Raised(NotFound)
    else
      var d := Advance(p, Expire(db, cpe, now), j, now);
      Commit(d, d.jobs[j])
  }

  // ----- Exchanges with a device -----

  datatype Command = Command(operation: Id, rpcId: string, kind: Kind, plan: Plan)

  function Finish(sessions: map<string, Session>, token: string, now: Time): map<string, Session>
    requires token in sessions
  {
    var s := sessions[token];
    sessions[token := s.(state := Completed, completedAt := if s.completedAt.Some? then s.completedAt else Some(now))]
  }

  function ProfileFailed(op: Op, now: Time): Op {
    op.(state := Failed, reason := Some(ProfileChanged), finishedAt := Some(now))
  }

  /** Fails the operation because its profile no longer applies, and ends the session. */
  function FailedProfile(db: Db, token: string, id: Id, now: Time): Db
    requires token in db.sessions && id in db.ops
  {
    db.(ops := db.ops[id := ProfileFailed(db.ops[id], now)], sessions := Finish(db.sessions, token, now))
  }

  function Earlier(a: Time, b: Time): Time { if a <= b then a else b }

  function Dispatch(db: Db, token: string, id: Id, rpcId: string, now: Time): Db
    requires token in db.sessions && id in db.ops
  {
    var deadline := Earlier(db.ops[id].expiresAt, now + DISPATCH_SECONDS);
    db.(ops := db.ops[id := db.ops[id].(state := Dispatched, expiresAt := deadline)],
        attempts := db.attempts[id := Attempt(token, rpcId, now, deadline, None)],
        sessions := db.sessions[token := db.sessions[token].(state := AwaitingResponse, expiresAt := deadline)])
  }

  /** An exchange without a reply: the next command for the device, or the end of the session. */
  ghost function Poll(p: Policy, db: Db, token: string, rpcId: string, now: Time): Outcome<Option<Command>>
    requires token in db.sessions
  {
    var s := db.sessions[token];
    if s.state.Completed? then Commit(db, None)
    else if s.expiresAt <= now then Raised(InvalidSession)
    else
      var resumed := s.state.AwaitingResponse?;
      var found := if resumed then AttemptOf(db.attempts, token) else PendingOp(db.ops, s.cpe);
      if found.None? then
        if resumed then Raised(InvalidSession) else Commit(db.(sessions := Finish(db.sessions, token, now)), None)
      else if found.value !in db.ops || s.cpe !in db.store.cpes then Raised(AssertionError)
      else
        var id := found.value;
        var op := db.ops[id];
        match RowPlan(p, TargetOf(db.store.cpes[s.cpe]), op.ask)
        case None => Commit(FailedProfile(db, token, id, now), None)
        case Some(plan) =>
          if resumed then Commit(db, Some(Command(id, db.attempts[id].rpcId, op.ask.kind, plan)))
          else Commit(Dispatch(db, token, id, rpcId, now), Some(Command(id, rpcId, op.ask.kind, plan)))
  }

  // ----- Judging a reply -----

  datatype Verdict = Verdict(reason: Option<Reason>, items: seq<Item>, inventory: Option<Inventory>,
                             telemetry: Option<Collection>)

  function Rejected(reason: Reason): Verdict { Verdict(Some(reason), [], None, None) }

  function ValueItem(p: Parameter): Item { Item(p.name, Some(p.value), None) }

  function NameItem(i: Info): Item { Item(i.name, None, Some(i.writable)) }

  function MapItems<T>(f: T -> Item, xs: seq<T>): seq<Item> {
    if xs == [] then [] else [f(xs[0])] + MapItems(f, xs[1..])
  }

  function ObservationValue(o: TextObservation): Option<string> { if o.ValidText? then Some(o.value) else None }

  function JudgeTelemetry(p: Policy, plan: Plan, ps: seq<Parameter>, now: Time, id: Id): Verdict {
    match p.collect(ps, plan, now, id)
    case None => Rejected(NotInternetPppoe)
    case Some(c) =>
      Verdict(if SomeField(c, Invalid) then Some(InvalidValues)
              else if SomeField(c, Unverified) then Some(UnverifiedUnits)
              else None,
              SortBy(ItemName, p.collectionResults(ps, plan, c)), None, Some(c))
  }

  function JudgeInventory(p: Policy, plan: Plan, ps: seq<Parameter>, now: Time, id: Id): Option<Verdict> {
    if exists q :: q in ps && q.xsdType != "xsd:string" then Some(Rejected(InvalidValues))
    else if |plan.names| != 3 then None
    else
      var inv := p.normalize(ps, plan, now, id);
      var seen := [inv.model, inv.firmware, inv.hardware];
      var items := seq(3, i requires 0 <= i < 3 => Item(plan.names[i], ObservationValue(seen[i]), None));
      Some(Verdict(if inv.model.ValidText? && inv.firmware.ValidText? && inv.hardware.ValidText? then None
                   else Some(InvalidValues),
                   SortBy(ItemName, items), Some(inv), None))
  }

  function JudgeValues(p: Policy, ask: Ask, plan: Plan, ps: seq<Parameter>, now: Time, id: Id): Option<Verdict> {
    if NameSet(ps) != SetOf(plan.names) then Some(Rejected(UnexpectedParameters))
    else if Measured(plan.scope) then Some(JudgeTelemetry(p, plan, ps, now, id))
    else if ask.requested != [] then
      if |p.permitted(ps, plan)| != |ps| then Some(Rejected(InvalidValues))
      else Some(Verdict(None, SortBy(ItemName, MapItems(ValueItem, p.permitted(ps, plan))), None, None))
    else JudgeInventory(p, plan, ps, now, id)
  }

  function JudgeNames(p: Policy, plan: Plan, names: seq<Info>): Verdict {
    if exists i :: i in names && !ReportedUnder(plan.path, i.name) then Rejected(UnexpectedParameters)
    else Verdict(None, SortBy(ItemName, MapItems(NameItem, p.discoveryNames(names, plan))), None, None)
  }

  /** What a reply is worth; None when it answers another kind of request. */
  function Judge(p: Policy, ask: Ask, plan: Plan, reply: Reply, now: Time, id: Id): Option<Verdict> {
    match reply
    case FaultReply(_, _) => Some(Rejected(CpeFault))
    case ValuesReply(_, ps) => if ask.kind.GetValues? then JudgeValues(p, ask, plan, ps, now, id) else None
    case NamesReply(_, names) => if ask.kind.GetNames? then Some(JudgeNames(p, plan, names)) else None
  }

  function FaultOf(reply: Reply): Option<int> { if reply.FaultReply? then Some(reply.code) else None }

  function KindOfReply(reply: Reply): ReplyKind {
    match reply
    case FaultReply(_, _) => FaultKind
    case NamesReply(_, _) => NamesKind
    case ValuesReply(_, _) => ValuesKind
  }

  function DigestOf(reply: Reply, v: Verdict): Digest { Digest(KindOfReply(reply), FaultOf(reply), v.reason, v.items) }

  // ----- Recording a reply -----

  function CatalogOne(catalog: map<PathKey, CatalogRow>, cpe: Id, i: Info, id: Id,
                      now: Time): map<PathKey, CatalogRow> {
    if (cpe, i.name) in catalog && catalog[(cpe, i.name)].observedAt > now then catalog
    else catalog[(cpe, i.name) := CatalogRow(IsObjectName(i.name), i.writable, now, id)]
  }

  /** The first `n` names, upserted in order. */
  function CatalogAll(catalog: map<PathKey, CatalogRow>, cpe: Id, names: seq<Info>, n: nat, id: Id,
                      now: Time): map<PathKey, CatalogRow>
    requires n <= |names|
  {
    if n == 0 then catalog else CatalogOne(CatalogAll(catalog, cpe, names, n - 1, id, now), cpe, names[n - 1], id, now)
  }

  function ValueOne(values: map<PathKey, ValueRow>, cpe: Id, q: Parameter, id: Id, now: Time): map<PathKey, ValueRow> {
    if (cpe, q.name) in values && values[(cpe, q.name)].observedAt > now then values
    else values[(cpe, q.name) := ValueRow(q.xsdType, q.value, now, id)]
  }

  function ValuesAll(values: map<PathKey, ValueRow>, cpe: Id, ps: seq<Parameter>, n: nat, id: Id,
                     now: Time): map<PathKey, ValueRow>
    requires n <= |ps|
  {
    if n == 0 then values else ValueOne(ValuesAll(values, cpe, ps, n - 1, id, now), cpe, ps[n - 1], id, now)
  }

  /** The names to catalogue and the job record, both cut to the running job's entry budget. */
  ghost function Truncate(jobs: map<Id, Job>, cpe: Id, id: Id, names: seq<Info>): (seq<Info>, map<Id, Job>) {
    match ActiveJob(jobs, cpe)
    case None => (names, jobs)
    case Some(j) =>
      var remaining := jobs[j].spec.maxEntries - jobs[j].entryCount;
      if jobs[j].current == Some(id) && |names| > remaining && 0 <= remaining then
        (SortBy(InfoName, names)[..Earlier(remaining, |SortBy(InfoName, names)|)],
         jobs[j := Limited(jobs[j], MaxEntries)])
      else (names, jobs)
  }

  function Stored(s: Store, cpe: Id, v: Verdict): Store
    requires cpe in s.cpes
  {
    var s1 := if v.inventory.Some? then UpdateInventory(s, cpe, v.inventory.value) else s;
    if v.telemetry.Some? then UpdateTelemetry(s1, cpe, v.telemetry.value) else s1
  }

  function AnsweredOp(op: Op, v: Verdict, reply: Reply, evidence: Option<string>, now: Time): Op {
    op.(state := if v.reason.None? then Succeeded else Failed, reason := v.reason, finishedAt := Some(now),
        fault := FaultOf(reply), result := v.items, evidence := evidence)
  }

  /** The writes that one accepted reply causes, all in one step. */
  ghost function Recorded(p: Policy, db: Db, token: string, id: Id, plan: Plan, reply: Reply, v: Verdict,
                          evidence: Option<string>, now: Time): Db
    requires token in db.sessions && id in db.ops && id in db.attempts && db.sessions[token].cpe in db.store.cpes
  {
    var cpe := db.sessions[token].cpe;
    var (names, jobs) :=
      if reply.NamesReply? && v.reason.None? then Truncate(db.jobs, cpe, id, reply.names) else ([], db.jobs);
    var ps := if reply.ValuesReply? && v.reason.None? then p.permitted(reply.parameters, plan) else [];
    db.(ops := db.ops[id := AnsweredOp(db.ops[id], v, reply, evidence, now)],
        attempts := db.attempts[id := db.attempts[id].(digest := Some(DigestOf(reply, v)))],
        sessions := Finish(db.sessions, token, now),
        jobs := jobs,
        catalog := CatalogAll(db.catalog, cpe, names, |names|, id, now),
        values := ValuesAll(db.values, cpe, ps, |ps|, id, now),
        store := Stored(db.store, cpe, v))
  }

  predicate Captures(op: Op, v: Verdict) { op.ask.capture && v.reason != Some(UnexpectedParameters) }

  /** An exchange that carries a reply. */
  ghost function Answer(p: Policy, db: Db, token: string, reply: Reply, now: Time): Outcome<Option<Command>>
    requires token in db.sessions
  {
    var s := db.sessions[token];
    match AttemptFor(db.attempts, token, reply.rpcId)
    case None => Raised(InvalidSession)
    case Some(id) =>
      if id !in db.ops || s.cpe !in db.store.cpes then Raised(AssertionError)
      else if db.ops[id].state.Expired? then Commit(db.(sessions := Finish(db.sessions, token, now)), None)
      else
        var op := db.ops[id];
        var current := RowPlan(p, TargetOf(db.store.cpes[s.cpe]), op.ask);
        if current.None? && op.state.Dispatched? then Commit(FailedProfile(db, token, id, now), None)
        else
          var plan := if current.Some? then current
                      else p.restore(op.ask.profileId, op.ask.profileVersion, op.ask.scope, op.ask.path,
                                     op.ask.requested);
          if plan.None? then Raised(InvalidSession)
          else
            match Judge(p, op.ask, plan.value, reply, now, id)
            case None => Raised(InvalidSession)
            case Some(v) => AnswerJudged(p, db, token, id, plan.value, reply, v, now)
  }

  ghost function AnswerJudged(p: Policy, db: Db, token: string, id: Id, plan: Plan, reply: Reply, v: Verdict, now: Time)
    : Outcome<Option<Command>>
    requires token in db.sessions && id in db.ops && id in db.attempts && db.sessions[token].cpe in db.store.cpes
  {
    var op := db.ops[id];
    if op.state.Succeeded? || op.state.Failed? then
      if db.attempts[id].digest == Some(DigestOf(reply, v)) then Commit(db, None) else Raised(InvalidSession)
    else if !op.state.Dispatched? || !db.sessions[token].state.AwaitingResponse? then Raised(InvalidSession)
    else
      var evidence := if Captures(op, v) then p.evidence(reply, plan, op.ask.kind, now) else None;
      if Captures(op, v) && evidence.None? then Raised(InvalidEvidence)
      else
        Commit(AdvanceActive(p, Recorded(p, db, token, id, plan, reply, v, evidence, now), db.sessions[token].cpe, now),
               None)
  }

  ghost function Exchange(p: Policy, db: Db, token: string, reply: Option<Reply>, rpcId: string,
                          now: Time): Outcome<Option<Command>> {
    if token !in db.sessions then Raised(InvalidSession)
    else if db.sessions[token].cpe !in db.store.cpes then Raised(NotFound)
    else
      var cpe := db.sessions[token].cpe;
      var d := AdvanceActive(p, Expire(db, cpe, now), cpe, now);
      match reply
      case None => Poll(p, d, token, rpcId, now)
      case Some(r) => Answer(p, d, token, r, now)
  }

  // ----- Inform -----

  ghost function CpeByIdentity(cpes: map<Id, Cpe>, oui: string, productClass: string, serial: string): (r: Option<Id>)
    ensures r.Some? ==>
      r.value in cpes && cpes[r.value].oui == oui && cpes[r.value].productClass == productClass
      && cpes[r.value].serial == serial
    ensures r.None? ==> forall c | c in cpes ::
      cpes[c].oui != oui || cpes[c].productClass != productClass || cpes[c].serial != serial
  {
    if c :| c in cpes && cpes[c].oui == oui && cpes[c].productClass == productClass && cpes[c].serial == serial
    then Some(c) else None
  }

  datatype Device = Device(manufacturer: string, oui: string, productClass: string, serial: string)

  /** A first Inform: the CPE row is upserted, its inventory recorded and a session opened. */
  ghost function Accept(db: Db, token: string, d: Device, inv: Inventory, now: Time, expiresAt: Time): Outcome<Id> {
    if token in db.sessions then Raised(StorageUnavailable)
    else
      var found := CpeByIdentity(db.store.cpes, d.oui, d.productClass, d.serial);
      var cpe := if found.Some? then found.value else db.next;
      var row := if found.Some? then db.store.cpes[cpe].(manufacturer := d.manufacturer)
                 else Cpe(d.manufacturer, d.oui, d.productClass, d.serial, None, None, None);
      var store := UpdateInventory(db.store.(cpes := db.store.cpes[cpe := row]), cpe, inv);
      Commit(db.(next := if found.Some? then db.next else db.next + 1, store := store,
               sessions := db.sessions[token := Session(cpe, AwaitingEmpty, expiresAt, None)]), cpe)
  }

  /** Ends a session that never got a command. */
  ghost function Complete(db: Db, token: string, now: Time): Outcome<()> {
    if token !in db.sessions || !db.sessions[token].state.AwaitingEmpty? || db.sessions[token].expiresAt <= now
    then Raised(InvalidSession)
    else
      Commit(db.(sessions := db.sessions[token := db.sessions[token].(state := Completed, completedAt := Some(now))]),
             ())
  }
}
