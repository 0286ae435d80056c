/** Collection jobs as values: a bounded breadth-first walk of the parameter tree, or a batched
    read of selected names. What one job record and the operations it launched keep true of each
    other, whatever the policy refuses and whatever the device answers. */
module Jobs {
  import opened Text
  import opened Domain
  import opened Policies

  const QUEUE_SECONDS := 600
  const DISPATCH_SECONDS := 60

  // ----- Operations -----

  /** Idempotency keys: a caller's own, or the fresh one a job gives each of its operations. */
  datatype Key = ClientKey(client: nat) | ServerKey(server: Id)

  datatype OpState = Pending | Dispatched | Succeeded | Failed | Expired

  datatype Reason =
    | DeadlineExceeded | ProfileChanged | CpeFault | UnexpectedParameters
    | InvalidValues | UnverifiedUnits | NotInternetPppoe

  /** What was asked; no step ever changes it. */
  datatype Ask = Ask(cpe: Id, key: Key, kind: Kind, scope: Scope, path: Option<string>, capture: bool,
                     requested: seq<string>, profileId: string, profileVersion: string,
                     firmware: Option<string>, createdAt: Time)

  datatype Op = Op(ask: Ask, state: OpState, expiresAt: Time, finishedAt: Option<Time>,
                   reason: Option<Reason>, fault: Option<int>, result: seq<Item>, evidence: Option<string>)

  predicate Active(op: Op) { op.state.Pending? || op.state.Dispatched? }

  function NewOp(ask: Ask): Op {
    Op(ask, Pending, ask.createdAt + QUEUE_SECONDS, None, None, None, [], None)
  }

  // ----- Jobs -----

  datatype JobKind = WalkJob | ValuesJob

  datatype Spec = Spec(kind: JobKind, root: Option<string>, names: seq<string>,
                       maxDepth: int, maxRpcs: int, maxEntries: int, batch: int)

  predicate ValidSpec(s: Spec) {
    && 0 <= s.maxDepth <= 16 && 1 <= s.maxRpcs <= 128 && 1 <= s.maxEntries <= 4096 && 1 <= s.batch <= 16
    && match s.kind
       case WalkJob => s.names == [] && s.root.Some? && |s.root.value| <= 256 && Concrete(s.root.value)
       case ValuesJob => s.root.None? && s.names != [] && |s.names| <= 4096
                         && forall i, j | 0 <= i < j < |s.names| :: s.names[i] != s.names[j]
  }

  /** The conflict that an invalid specification raises. */
  function SpecConflict(s: Spec): string {
    if !(0 <= s.maxDepth <= 16 && 1 <= s.maxRpcs <= 128 && 1 <= s.maxEntries <= 4096 && 1 <= s.batch <= 16)
    then "invalid_collection_limits"
    else if s.kind.WalkJob? then "invalid_discovery_root"
    else "invalid_selection"
  }

  datatype Step = Step(depth: int, path: Option<string>, names: seq<string>)

  datatype Failure = OpFailure(operation: Id, reason: Option<Reason>) | PlanFailure

  datatype Limit = MaxRpcs | MaxEntries | MaxDepth | UnsupportedBranch

  datatype JobState = JobRunning | JobSucceeded | JobPartial

  datatype Job = Job(cpe: Id, key: Key, spec: Spec, state: JobState, frontier: seq<Step>, current: Option<Id>,
                     depth: int, rpcCount: int, completed: int, entryCount: int,
                     failures: seq<Failure>, limits: seq<Limit>, opIds: seq<Id>,
                     createdAt: Time, finishedAt: Option<Time>)

  function Limited(job: Job, l: Limit): Job {
    if l in job.limits then job else job.(limits := job.limits + [l])
  }

  function Closed(job: Job, now: Time): Job {
    job.(state := if job.failures != [] || job.limits != [] then JobPartial else JobSucceeded, finishedAt := Some(now))
  }

  function ScopeOf(job: Job): Scope { if job.spec.kind.WalkJob? then Discovery else DeviceInfo }

  function KindOf(job: Job): Kind { if job.spec.kind.WalkJob? then GetNames else GetValues }

  /** The operation a job creates for one frontier step. */
  function StepAsk(job: Job, step: Step, names: seq<string>, plan: Plan, id: Id, now: Time): Ask {
    Ask(job.cpe, ServerKey(id), KindOf(job), ScopeOf(job), step.path, false,
        if names != [] then plan.names else [], plan.profileId, plan.profileVersion, plan.target.firmware, now)
  }

  /** The head of the frontier, its names cut to what the entry budget still allows. */
  function HeadNames(job: Job): seq<string>
    requires job.frontier != [] && job.entryCount < job.spec.maxEntries
  {
    var names, remaining := job.frontier[0].names, job.spec.maxEntries - job.entryCount;
    if |names| > remaining then names[..remaining] else names
  }

  function Popped(job: Job): Job
    requires job.frontier != [] && job.entryCount < job.spec.maxEntries
  {
    var rest := job.(frontier := job.frontier[1..]);
    if |job.frontier[0].names| > job.spec.maxEntries - job.entryCount then Limited(rest, MaxEntries) else rest
  }

  /** Pops frontier steps until one becomes an operation, a budget is spent or none is left. */
  function Launch(p: Policy, target: Target, job: Job, id: Id, now: Time): (Job, Option<Op>)
    decreases |job.frontier|
  {
    if job.frontier == [] then (Closed(job, now), None)
    else if job.rpcCount >= job.spec.maxRpcs then (Closed(Limited(job, MaxRpcs), now), None)
    else if job.entryCount >= job.spec.maxEntries then (Closed(Limited(job, MaxEntries), now), None)
    else
      var step, names, popped := job.frontier[0], HeadNames(job), Popped(job);
      match p.plan(target, ScopeOf(job), step.path, names)
      case None => Launch(p, target, popped.(failures := popped.failures + [PlanFailure]), id, now)
      case Some(plan) =>
        (popped.(current := Some(id), depth := step.depth, rpcCount := popped.rpcCount + 1,
                 opIds := popped.opIds + [id]),
         Some(NewOp(StepAsk(job, step, names, plan, id, now))))
  }

  /** A catalogued name that cites the finished operation. */
  datatype Entry = Entry(path: string, isObject: bool)

  function AddEntry(job: Job, e: Entry): Job {
    if !e.isObject then job
    else if job.depth >= job.spec.maxDepth then Limited(job, MaxDepth)
    else if Concrete(e.path) then job.(frontier := job.frontier + [Step(job.depth + 1, Some(e.path), [])])
    else Limited(job, UnsupportedBranch)
  }

  function AddEntries(job: Job, entries: seq<Entry>, n: nat): Job
    requires n <= |entries|
  {
    if n == 0 then job else AddEntry(AddEntries(job, entries, n - 1), entries[n - 1])
  }

  function Counted(job: Job, n: nat): Job {
    job.(completed := job.completed + 1, current := None, entryCount := job.entryCount + n)
  }

  /** Accounts for the finished current operation. */
  function Settled(job: Job, id: Id, op: Op, entries: seq<Entry>): Job {
    if !op.state.Succeeded? then
      job.(completed := job.completed + 1, current := None, failures := job.failures + [OpFailure(id, op.reason)])
    else if job.spec.kind.ValuesJob? then Counted(job, |op.result|)
    else AddEntries(Counted(job, |entries|), entries, |entries|)
  }

  // ----- What a job keeps -----

  /** How many of the launched operations the job has accounted for. */
  function Done(job: Job): int { |job.opIds| - if job.current.Some? then 1 else 0 }

  ghost predicate DistinctIds(ids: seq<Id>) {
    forall i, j | 0 <= i < j < |ids| :: ids[i] != ids[j]
  }

  ghost predicate Owned(cpe: Id, kind: Kind, scope: Scope, trace: seq<Op>) {
    forall i | 0 <= i < |trace| :: trace[i].ask.cpe == cpe && trace[i].ask.kind == kind && trace[i].ask.scope == scope
  }

  ghost predicate Over(done: int, trace: seq<Op>) {
    forall i | 0 <= i < done && i < |trace| :: !Active(trace[i])
  }

  ghost predicate AllSucceeded(done: int, trace: seq<Op>) {
    forall i | 0 <= i < done && i < |trace| :: trace[i].state.Succeeded?
  }

  /** The failures that name an operation are those of the operations accounted for that did not succeed, each with its
      reason. */
  ghost predicate FailuresTold(failures: seq<Failure>, ids: seq<Id>, done: int, trace: seq<Op>) {
    && (forall i | 0 <= i < done && i < |ids| && i < |trace| && !trace[i].state.Succeeded? ::
          OpFailure(ids[i], trace[i].reason) in failures)
    && (forall f | f in failures && f.OpFailure? ::
          exists i ::
            0 <= i < done && i < |ids| && i < |trace| && !trace[i].state.Succeeded?
            && f == OpFailure(ids[i], trace[i].reason))
  }

  /** A job and the operations `trace` it launched, in order. */
  ghost predicate Shaped(job: Job, trace: seq<Op>) {
    && ValidSpec(job.spec)
    && |trace| == |job.opIds| == job.rpcCount <= job.spec.maxRpcs
    && job.completed == Done(job) && 0 <= Done(job)
    && 0 <= job.entryCount <= job.spec.maxEntries
    && (job.current.Some? ==> job.current.value == job.opIds[|job.opIds| - 1])
    && DistinctIds(job.opIds)
    && Owned(job.cpe, KindOf(job), ScopeOf(job), trace)
    && Over(Done(job), trace)
    && (job.failures == [] ==> AllSucceeded(Done(job), trace))
    && FailuresTold(job.failures, job.opIds, Done(job), trace)
    && (job.state.JobRunning? <==> job.finishedAt.None?)
    && (MaxRpcs in job.limits ==> job.rpcCount == job.spec.maxRpcs)
    && UnsupportedBranch !in job.limits
    && (!job.state.JobRunning? ==> job.current.None?)
    && (job.state.JobSucceeded? ==> job.frontier == [] && Clean(job))
    && (job.state.JobPartial? ==> !Clean(job))
  }

  ghost predicate Clean(job: Job) { job.failures == [] && job.limits == [] }

  /** `path` lies `depth` segments below the root. */
  ghost predicate Below(root: string, path: string, depth: int) {
    Concrete(path) && StartsWith(path, root) && Dots(path) == Dots(root) + depth
  }

  function Path(op: Op): string { if op.ask.path.Some? then op.ask.path.value else "" }

  function StepPath(s: Step): string { if s.path.Some? then s.path.value else "" }

  /** `path` is the root or a direct child of one of the first `done` operations. */
  ghost predicate ParentDone(trace: seq<Op>, done: int, root: string, path: string) {
    path == root || exists p :: 0 <= p < done && p < |trace| && DirectChild(Path(trace[p]), path)
  }

  function DepthOf(root: string, op: Op): int { Dots(Path(op)) - Dots(root) }

  /** Every operation lies exactly `DepthOf` segments below the root and not below `depth`. */
  ghost predicate TraceLevelled(root: string, depth: int, trace: seq<Op>) {
    forall i | 0 <= i < |trace| ::
      && trace[i].ask.path.Some? && trace[i].ask.requested == []
      && Below(root, Path(trace[i]), DepthOf(root, trace[i])) && 0 <= DepthOf(root, trace[i]) <= depth
  }

  /** Waiting paths carry their exact depth, never decreasing, over at most two levels. */
  ghost predicate FrontierLevelled(root: string, maxDepth: int, depth: int, frontier: seq<Step>) {
    && (forall k | 0 <= k < |frontier| ::
          && frontier[k].path.Some? && frontier[k].names == []
          && Below(root, StepPath(frontier[k]), frontier[k].depth)
          && depth <= frontier[k].depth <= depth + 1 && frontier[k].depth <= maxDepth)
    && (forall k, l | 0 <= k < l < |frontier| :: frontier[k].depth <= frontier[l].depth)
  }

  /** No path twice, among the dispatched and the waiting. */
  ghost predicate Apart(trace: seq<Op>, frontier: seq<Step>) {
    && (forall i, j | 0 <= i < j < |trace| :: Path(trace[i]) != Path(trace[j]))
    && (forall k, l | 0 <= k < l < |frontier| :: StepPath(frontier[k]) != StepPath(frontier[l]))
    && (forall i, k | 0 <= i < |trace| && 0 <= k < |frontier| :: Path(trace[i]) != StepPath(frontier[k]))
  }

  /** Every path but the root was found under an operation already accounted for. */
  ghost predicate Rooted(root: string, done: int, trace: seq<Op>, frontier: seq<Step>) {
    && (forall i | 0 <= i < |trace| :: ParentDone(trace, done, root, Path(trace[i])))
    && (forall k | 0 <= k < |frontier| :: ParentDone(trace, done, root, StepPath(frontier[k])))
  }

  ghost predicate Walking(job: Job, trace: seq<Op>) {
    && job.spec.root.Some? && 0 <= job.depth <= job.spec.maxDepth
    && (MaxDepth in job.limits ==> job.depth == job.spec.maxDepth)
    && TraceLevelled(job.spec.root.value, job.depth, trace)
    && FrontierLevelled(job.spec.root.value, job.spec.maxDepth, job.depth, job.frontier)
    && (job.current.Some? && trace != [] ==> DepthOf(job.spec.root.value, trace[|trace| - 1]) == job.depth)
    && Apart(trace, job.frontier)
    && Rooted(job.spec.root.value, Done(job), trace, job.frontier)
  }

  function Waiting(frontier: seq<Step>): seq<string> {
    if frontier == [] then [] else frontier[0].names + Waiting(frontier[1..])
  }

  function Asked(trace: seq<Op>): seq<string> {
    if trace == [] then [] else Asked(trace[..|trace| - 1]) + trace[|trace| - 1].ask.requested
  }

  /** Entries that accounted operations returned. */
  function Returned(trace: seq<Op>): nat {
    if trace == [] then 0
    else Returned(trace[..|trace| - 1]) + if trace[|trace| - 1].state.Succeeded? then |trace[|trace| - 1].result| else 0
  }

  /** The selection in order: what was asked comes before what waits, ascending, nothing twice;
      while nothing failed and no limit was met, nothing is missing either. */
  ghost predicate Partitioned(sel: seq<string>, waiting: seq<string>, asked: seq<string>, clean: bool) {
    && Ascending(Self, sel) && |waiting| <= |sel|
    && waiting == sel[|sel| - |waiting|..]
    && Ascending(Self, asked) && (forall n | n in asked :: n in sel[..|sel| - |waiting|])
    && (clean ==> asked == sel[..|sel| - |waiting|])
  }

  ghost predicate TraceBatched(batch: int, done: int, trace: seq<Op>) {
    forall i | 0 <= i < |trace| ::
      && trace[i].ask.path.None? && 1 <= |trace[i].ask.requested| <= batch
      && (i < done && trace[i].state.Succeeded? ==> ItemNames(trace[i].result) == trace[i].ask.requested)
  }

  /** No request exceeds what the entry budget had left when it was made. */
  ghost predicate TraceWithin(maxEntries: int, trace: seq<Op>) {
    forall i | 0 <= i < |trace| :: Returned(trace[..i]) + |trace[i].ask.requested| <= maxEntries
  }

  ghost predicate FrontierBatched(batch: int, frontier: seq<Step>) {
    forall k | 0 <= k < |frontier| ::
      frontier[k].depth == 0 && frontier[k].path.None? && 1 <= |frontier[k].names| <= batch
  }

  ghost predicate Reading(job: Job, trace: seq<Op>) {
    && Partitioned(job.spec.names, Waiting(job.frontier), Asked(trace), Clean(job))
    && TraceBatched(job.spec.batch, Done(job), trace)
    && FrontierBatched(job.spec.batch, job.frontier) && job.depth == 0 && MaxDepth !in job.limits
    && TraceWithin(job.spec.maxEntries, trace)
    && 0 <= Done(job) <= |trace| && job.entryCount == Returned(trace[..Done(job)])
  }

  /** Everything a job and its operations keep true of each other. */
  ghost predicate JobOk(job: Job, trace: seq<Op>) {
    && Shaped(job, trace)
    && (job.spec.kind.WalkJob? ==> Walking(job, trace))
    && (job.spec.kind.ValuesJob? ==> Reading(job, trace))
  }
}
