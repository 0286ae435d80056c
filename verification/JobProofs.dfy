/** Every step of a job keeps JobOk: dropping a refused step, launching one, settling a finished
    operation and closing. */
module JobProofs {
  import opened Text
  import opened Domain
  import opened Policies
  import opened Jobs

  // ----- Dropping the head of the frontier -----

  lemma TailKeepsWalk(root: string, maxDepth: int, depth: int, done: int, trace: seq<Op>, frontier: seq<Step>)
    requires frontier != []
    requires FrontierLevelled(root, maxDepth, depth, frontier) && Apart(trace, frontier)
             && Rooted(root, done, trace, frontier)
    ensures FrontierLevelled(root, maxDepth, depth, frontier[1..])
    ensures Apart(trace, frontier[1..]) && Rooted(root, done, trace, frontier[1..])
  {}

  lemma DropKeepsPartitioned(sel: seq<string>, frontier: seq<Step>, asked: seq<string>, clean: bool)
    requires frontier != [] && Partitioned(sel, Waiting(frontier), asked, clean)
    ensures Partitioned(sel, Waiting(frontier[1..]), asked, false)
  {}

  lemma PartitionedUnclean(sel: seq<string>, waiting: seq<string>, asked: seq<string>, clean: bool)
    ensures Partitioned(sel, waiting, asked, clean) ==> Partitioned(sel, waiting, asked, false)
  {}

  lemma TailKeepsBatched(batch: int, frontier: seq<Step>)
    requires frontier != [] && FrontierBatched(batch, frontier)
    ensures FrontierBatched(batch, frontier[1..])
  {}

  /** A refused step leaves the frontier and is counted as a failure. */
  lemma DropKeeps(job: Job, trace: seq<Op>)
    requires JobOk(job, trace) && job.state.JobRunning? && job.current.None?
    requires job.frontier != [] && job.entryCount < job.spec.maxEntries
    ensures JobOk(Popped(job).(failures := job.failures + [PlanFailure]), trace)
  {
    hide TraceLevelled, FrontierLevelled, Apart, Rooted, Partitioned, TraceBatched, TraceWithin, FrontierBatched,
      Waiting, Asked, Returned, Owned, Over, AllSucceeded, DistinctIds, ValidSpec;
    var next := Popped(job).(failures := job.failures + [PlanFailure]);
    assert Done(next) == Done(job) && !Clean(next) && next.frontier == job.frontier[1..];
    if job.spec.kind.WalkJob? {
      TailKeepsWalk(job.spec.root.value, job.spec.maxDepth, job.depth, Done(job), trace, job.frontier);
    } else {
      DropKeepsPartitioned(job.spec.names, job.frontier, Asked(trace), Clean(job));
      TailKeepsBatched(job.spec.batch, job.frontier);
    }
  }

  // ----- Launching the head of the frontier -----

  /** The head became the pending operation `op` with identity `id`. */
  ghost predicate Launched(job: Job, next: Job, id: Id, op: Op) {
    && job.frontier != [] && job.current.None? && job.state.JobRunning?
    && job.rpcCount < job.spec.maxRpcs && job.entryCount < job.spec.maxEntries
    && next == Popped(job).(current := Some(id), depth := job.frontier[0].depth,
                            rpcCount := job.rpcCount + 1, opIds := job.opIds + [id])
    && op.ask.cpe == job.cpe && op.ask.kind == KindOf(job) && op.ask.scope == ScopeOf(job)
    && op.ask.path == job.frontier[0].path
    && op.ask.requested == HeadNames(job)
    && Active(op)
  }

  lemma LaunchKeepsShaped(job: Job, next: Job, id: Id, op: Op, trace: seq<Op>)
    requires Shaped(job, trace) && Launched(job, next, id, op) && id !in job.opIds
    ensures Shaped(next, trace + [op])
  {
    hide FailuresTold;
    ToldLonger(job.failures, job.opIds, Done(job), trace, id, op);
  }

  lemma ToldLonger(failures: seq<Failure>, ids: seq<Id>, done: int, trace: seq<Op>, id: Id, op: Op)
    requires FailuresTold(failures, ids, done, trace) && done <= |ids| == |trace|
    ensures FailuresTold(failures, ids + [id], done, trace + [op])
  {
    forall f | f in failures && f.OpFailure?
      ensures exists i ::
        0 <= i < done && !(trace + [op])[i].state.Succeeded?
        && f == OpFailure((ids + [id])[i], (trace + [op])[i].reason)
    {
      var i :| 0 <= i < done && i < |ids| && i < |trace| && !trace[i].state.Succeeded?
               && f == OpFailure(ids[i], trace[i].reason);
      assert (trace + [op])[i] == trace[i] && (ids + [id])[i] == ids[i];
    }
  }

  /** The operation accounted for next is told if it did not succeed. */
  lemma ToldSettled(failures: seq<Failure>, ids: seq<Id>, trace: seq<Op>)
    requires ids != [] && |ids| == |trace| && FailuresTold(failures, ids, |ids| - 1, trace)
    ensures var n := |ids| - 1;
            FailuresTold(if trace[n].state.Succeeded? then failures
                         else failures + [OpFailure(ids[n], trace[n].reason)],
                         ids, n + 1, trace)
  {}

  lemma LaunchKeepsLevelled(root: string, maxDepth: int, depth: int, trace: seq<Op>, frontier: seq<Step>, op: Op)
    requires TraceLevelled(root, depth, trace) && FrontierLevelled(root, maxDepth, depth, frontier)
    requires frontier != [] && op.ask.path == frontier[0].path && op.ask.requested == [] && 0 <= depth
    ensures TraceLevelled(root, frontier[0].depth, trace + [op])
    ensures FrontierLevelled(root, maxDepth, frontier[0].depth, frontier[1..])
    ensures DepthOf(root, op) == frontier[0].depth
  {}

  lemma LaunchKeepsApart(trace: seq<Op>, frontier: seq<Step>, op: Op)
    requires frontier != [] && op.ask.path == frontier[0].path && Apart(trace, frontier)
    ensures Apart(trace + [op], frontier[1..])
  {}

  lemma ParentStays(trace: seq<Op>, t: seq<Op>, done: int, later: int, root: string, path: string)
    requires ParentDone(trace, done, root, path) && done <= later && done <= |trace| <= |t|
    requires forall i | 0 <= i < done :: t[i] == trace[i]
    ensures ParentDone(t, later, root, path)
  {}

  lemma LaunchKeepsRooted(root: string, trace: seq<Op>, frontier: seq<Step>, op: Op)
    requires frontier != [] && op.ask.path == frontier[0].path && Rooted(root, |trace|, trace, frontier)
    ensures Rooted(root, |trace|, trace + [op], frontier[1..])
  {
    var t, tail, done := trace + [op], frontier[1..], |trace|;
    forall i | 0 <= i < |t| ensures ParentDone(t, done, root, Path(t[i])) {
      var path := if i < |trace| then Path(trace[i]) else StepPath(frontier[0]);
      assert Path(t[i]) == path && ParentDone(trace, done, root, path);
      ParentStays(trace, t, done, done, root, path);
    }
    forall k | 0 <= k < |tail| ensures ParentDone(t, done, root, StepPath(tail[k])) {
      assert tail[k] == frontier[k + 1];
      ParentStays(trace, t, done, done, root, StepPath(frontier[k + 1]));
    }
  }

  lemma AscendingJoin(a: seq<string>, b: seq<string>, sel: seq<string>, k: nat)
    requires Ascending(Self, a) && Ascending(Self, sel) && k + |b| <= |sel| && b == sel[k..k + |b|]
    requires forall n | n in a :: n in sel[..k]
    ensures Ascending(Self, a + b)
    ensures forall n | n in a + b :: n in sel[..k + |b|]
  {
    var s := a + b;
    forall i, j | 0 <= i < j < |s| ensures Less(Self(s[i]), Self(s[j])) {
      if i < |a| <= j {
        assert s[i] in a && s[j] == sel[k + (j - |a|)];
        var m :| 0 <= m < k && sel[..k][m] == s[i];
      } else if |a| <= i {
        assert s[i] == sel[k + (i - |a|)] && s[j] == sel[k + (j - |a|)];
      }
    }
    forall n | n in s ensures n in sel[..k + |b|] {
      if n in a {
        var m :| 0 <= m < k && sel[..k][m] == n;
        assert sel[..k + |b|][m] == n;
      } else {
        var m :| 0 <= m < |b| && b[m] == n;
        assert sel[..k + |b|][k + m] == n;
      }
    }
  }

  /** Where the head and the tail of what waits lie in the selection. */
  lemma WaitingParts(sel: seq<string>, head: seq<string>, left: seq<string>, names: seq<string>, k: nat)
    requires k + |head + left| == |sel| && head + left == sel[k..] && names <= head
    ensures left == sel[k + |head|..] && head == sel[k..k + |head|] && names == sel[k..k + |names|]
    ensures sel[..k] + head == sel[..k + |head|]
  {
    var waiting := head + left;
    assert head == waiting[..|head|] && left == waiting[|head|..];
    assert sel[k..][..|head|] == sel[k..k + |head|] && sel[k..][|head|..] == sel[k + |head|..];
    assert names == head[..|names|] && sel[k..k + |head|][..|names|] == sel[k..k + |names|];
  }

  lemma PrefixMembers(sel: seq<string>, a: nat, b: nat)
    requires a <= b <= |sel|
    ensures forall n | n in sel[..a] :: n in sel[..b]
  {
    forall n | n in sel[..a] ensures n in sel[..b] {
      var m :| 0 <= m < a && sel[..a][m] == n;
      assert sel[..b][m] == n;
    }
  }

  /** The head's names, whole or cut short, extend what was asked. */
  lemma LaunchKeepsPartitioned(sel: seq<string>, frontier: seq<Step>, asked: seq<string>, clean: bool,
                               names: seq<string>)
    requires frontier != [] && Partitioned(sel, Waiting(frontier), asked, clean)
    requires names <= frontier[0].names
    ensures Partitioned(sel, Waiting(frontier[1..]), asked + names, clean && names == frontier[0].names)
  {
    hide Ascending;
    var left, head := Waiting(frontier[1..]), frontier[0].names;
    var k := |sel| - |Waiting(frontier)|;
    assert Waiting(frontier) == head + left;
    WaitingParts(sel, head, left, names, k);
    AscendingJoin(asked, names, sel, k);
    PrefixMembers(sel, k + |names|, k + |head|);
  }

  lemma AskedAppend(trace: seq<Op>, op: Op)
    ensures Asked(trace + [op]) == Asked(trace) + op.ask.requested
  {}

  lemma LaunchKeepsWithin(maxEntries: int, trace: seq<Op>, op: Op)
    requires TraceWithin(maxEntries, trace) && Returned(trace) + |op.ask.requested| <= maxEntries
    ensures TraceWithin(maxEntries, trace + [op])
  {
    forall i | 0 <= i < |trace| ensures (trace + [op])[..i] == trace[..i] {}
    assert (trace + [op])[..|trace|] == trace;
  }

  lemma LaunchKeepsReading(job: Job, next: Job, id: Id, op: Op, trace: seq<Op>)
    requires Shaped(job, trace) && Reading(job, trace) && Launched(job, next, id, op)
    ensures Reading(next, trace + [op])
  {
    hide Owned, Over, AllSucceeded, DistinctIds, ValidSpec, TraceWithin, Partitioned, Asked, Returned, Waiting;
    assert Done(next) == Done(job) == |trace| && next.frontier == job.frontier[1..];
    assert trace[..|trace|] == trace;
    LaunchKeepsWithin(job.spec.maxEntries, trace, op);
    LaunchKeepsPartitioned(job.spec.names, job.frontier, Asked(trace), Clean(job), HeadNames(job));
    AskedAppend(trace, op);
    TailKeepsBatched(job.spec.batch, job.frontier);
    assert 1 <= |job.frontier[0].names| <= job.spec.batch;
    assert TraceBatched(job.spec.batch, |trace|, trace + [op]);
    assert (trace + [op])[..|trace|] == trace == trace[..|trace|];
    assert Clean(next) ==> Clean(job) && HeadNames(job) == job.frontier[0].names;
  }

  lemma LaunchedKeeps(job: Job, next: Job, id: Id, op: Op, trace: seq<Op>)
    requires JobOk(job, trace) && Launched(job, next, id, op) && id !in job.opIds
    ensures JobOk(next, trace + [op])
  {
    LaunchKeepsShaped(job, next, id, op, trace);
    if job.spec.kind.WalkJob? {
      var root := job.spec.root.value;
      assert job.frontier[0].names == [];
      assert Done(next) == Done(job) == |trace| && next.frontier == job.frontier[1..];
      LaunchKeepsLevelled(root, job.spec.maxDepth, job.depth, trace, job.frontier, op);
      LaunchKeepsApart(trace, job.frontier, op);
      LaunchKeepsRooted(root, trace, job.frontier, op);
    } else {
      LaunchKeepsReading(job, next, id, op, trace);
    }
  }

  // ----- Closing -----

  lemma CloseKeeps(job: Job, l: Option<Limit>, trace: seq<Op>, now: Time)
    requires JobOk(job, trace) && job.state.JobRunning? && job.current.None?
    requires if l.None? then job.frontier == [] else l.value.MaxEntries?
                                                     || (l.value.MaxRpcs? && job.rpcCount >= job.spec.maxRpcs)
    ensures JobOk(Closed(if l.Some? then Limited(job, l.value) else job, now), trace)
  {
    hide TraceLevelled, FrontierLevelled, Apart, Rooted, Partitioned, TraceBatched, TraceWithin, FrontierBatched,
      Waiting, Asked, Returned, Owned, Over, AllSucceeded, DistinctIds, ValidSpec;
    var next := Closed(if l.Some? then Limited(job, l.value) else job, now);
    PartitionedUnclean(job.spec.names, Waiting(job.frontier), Asked(trace), Clean(job));
    assert Done(next) == Done(job);
    assert l.Some? ==> !Clean(next);
    assert l.None? ==> Clean(next) == Clean(job);
  }

  // ----- The whole loop -----

  /** The fields of a job that the launch loop does not touch before it takes a step. */
  datatype Fixed = Fixed(cpe: Id, key: Key, spec: Spec, entryCount: int, completed: int, opIds: seq<Id>)

  function FixedOf(job: Job): Fixed { Fixed(job.cpe, job.key, job.spec, job.entryCount, job.completed, job.opIds) }

  /** What the launch loop establishes: a pending operation for the head it took, or a closed job. */
  ghost predicate LaunchPost(was: Fixed, trace: seq<Op>, id: Id, now: Time, next: Job, op: Option<Op>) {
    match op
    case None => JobOk(next, trace) && !next.state.JobRunning? && FixedOf(next) == was
    case Some(o) =>
      && JobOk(next, trace + [o]) && next.state.JobRunning? && next.current == Some(id)
      && FixedOf(next) == was.(opIds := was.opIds + [id])
      && o == NewOp(o.ask) && o.ask.cpe == was.cpe && o.ask.key == ServerKey(id) && o.ask.createdAt == now
  }

  lemma StepLaunches(p: Policy, target: Target, job: Job, trace: seq<Op>, id: Id, now: Time)
    requires PlanContract(p)
    requires JobOk(job, trace) && job.state.JobRunning? && job.current.None? && id !in job.opIds
    requires job.frontier != [] && job.rpcCount < job.spec.maxRpcs && job.entryCount < job.spec.maxEntries
    requires p.plan(target, ScopeOf(job), job.frontier[0].path, HeadNames(job)).Some?
    ensures var (next, op) := Launch(p, target, job, id, now); LaunchPost(FixedOf(job), trace, id, now, next, op)
  {
    hide TraceLevelled, Apart, Rooted, Partitioned, TraceBatched, TraceWithin, Returned, Asked, Owned, Over,
      AllSucceeded, DistinctIds;
    var plan := p.plan(target, ScopeOf(job), job.frontier[0].path, HeadNames(job)).value;
    var op := NewOp(StepAsk(job, job.frontier[0], HeadNames(job), plan, id, now));
    var next := Launch(p, target, job, id, now).0;
    assert job.spec.kind.WalkJob? ==> job.frontier[0].names == [];
    assert op.ask.requested == HeadNames(job);
    LaunchedKeeps(job, next, id, op, trace);
  }

  /** The loop ends at once when the frontier is empty or a budget is spent. */
  predicate Spent(job: Job) {
    job.frontier == [] || job.rpcCount >= job.spec.maxRpcs || job.entryCount >= job.spec.maxEntries
  }

  lemma SpentCloses(p: Policy, target: Target, job: Job, trace: seq<Op>, id: Id, now: Time)
    requires JobOk(job, trace) && job.state.JobRunning? && job.current.None? && Spent(job)
    ensures var (next, op) := Launch(p, target, job, id, now); LaunchPost(FixedOf(job), trace, id, now, next, op)
  {
    hide JobOk;
    CloseKeeps(job, if job.frontier == [] then None else if job.rpcCount >= job.spec.maxRpcs then Some(MaxRpcs)
               else Some(MaxEntries),
               trace, now);
  }

  lemma {:induction false} LaunchKeeps(p: Policy, target: Target, job: Job, trace: seq<Op>, id: Id, now: Time)
    requires PlanContract(p)
    requires JobOk(job, trace) && job.state.JobRunning? && job.current.None? && id !in job.opIds
    ensures var (next, op) := Launch(p, target, job, id, now); LaunchPost(FixedOf(job), trace, id, now, next, op)
    decreases |job.frontier|
  {
    hide JobOk;
    if Spent(job) {
      SpentCloses(p, target, job, trace, id, now);
    } else if p.plan(target, ScopeOf(job), job.frontier[0].path, HeadNames(job)).None? {
      DropKeeps(job, trace);
      var next := Popped(job).(failures := job.failures + [PlanFailure]);
      LaunchKeeps(p, target, next, trace, id, now);
      assert Launch(p, target, job, id, now) == Launch(p, target, next, id, now);
    } else {
      StepLaunches(p, target, job, trace, id, now);
    }
  }

  // ----- Settling -----

  /** Entries as the catalog holds them: each path once, a direct child of the operation's own. */
  ghost predicate EntriesUnder(path: string, entries: seq<Entry>) {
    && (forall i, j | 0 <= i < j < |entries| :: entries[i].path != entries[j].path)
    && (forall i | 0 <= i < |entries| ::
          && DirectChild(path, entries[i].path)
          && entries[i].isObject == IsObjectName(entries[i].path)
          && (entries[i].isObject ==> Concrete(entries[i].path)))
  }

  function ObjectSteps(depth: int, entries: seq<Entry>, n: nat): seq<Step>
    requires n <= |entries|
  {
    if n == 0 then []
    else ObjectSteps(depth, entries, n - 1) + if entries[n - 1].isObject
        then [Step(depth, Some(entries[n - 1].path), [])] else []
  }

  ghost predicate SomeObject(entries: seq<Entry>, n: nat)
    requires n <= |entries|
  {
    exists i :: 0 <= i < n && entries[i].isObject
  }

  lemma ObjectStepsOne(job: Job, entries: seq<Entry>, n: nat)
    requires 0 < n <= |entries|
    ensures ObjectSteps(job.depth + 1, entries, n) == ObjectSteps(job.depth + 1, entries, n - 1)
              + if entries[n - 1].isObject then [Step(job.depth + 1, Some(entries[n - 1].path), [])] else []
    ensures SomeObject(entries, n) <==> SomeObject(entries, n - 1) || entries[n - 1].isObject
  {
    if entries[n - 1].isObject { assert SomeObject(entries, n); }
  }

  /** The loop over entries in closed form: all objects wait one level deeper, or, at the last level,
      the depth limit is recorded. The branch for unsupported objects is never taken. */
  lemma {:induction false} AddEntriesClosed(job: Job, path: string, entries: seq<Entry>, n: nat)
    requires n <= |entries| && EntriesUnder(path, entries)
    ensures AddEntries(job, entries, n) ==
              if job.depth < job.spec.maxDepth then
                job.(frontier := job.frontier + ObjectSteps(job.depth + 1, entries, n))
              else if SomeObject(entries, n) then Limited(job, MaxDepth)
              else job
  {
    hide ObjectSteps, SomeObject, Concrete, IsObjectName, DirectChild;
    if n > 0 {
      AddEntriesClosed(job, path, entries, n - 1);
      ObjectStepsOne(job, entries, n);
      var steps := ObjectSteps(job.depth + 1, entries, n - 1);
      var s := Step(job.depth + 1, Some(entries[n - 1].path), []);
      assert job.frontier + steps + [s] == job.frontier + (steps + [s]);
      assert steps + [] == steps;
    } else {
      NoObjects(job.depth + 1, entries);
      assert job.frontier + [] == job.frontier;
    }
  }

  lemma NoObjects(depth: int, entries: seq<Entry>)
    ensures ObjectSteps(depth, entries, 0) == [] && !SomeObject(entries, 0)
  {}

  /** Steps one level below `path`, all different. */
  ghost predicate Children(path: string, depth: int, steps: seq<Step>) {
    && (forall s | s in steps ::
          s.depth == depth && s.path.Some? && s.names == []
          && Concrete(StepPath(s)) && DirectChild(path, StepPath(s)))
    && PathsDiffer(steps)
  }

  /** Each new step is one of the objects, a direct child of `path` one level down. */
  lemma {:induction false} ObjectStepsShape(depth: int, path: string, entries: seq<Entry>, n: nat)
    requires n <= |entries| && EntriesUnder(path, entries)
    ensures forall s | s in ObjectSteps(depth, entries, n) ::
              && s.depth == depth && s.path.Some? && s.names == []
              && Concrete(StepPath(s)) && DirectChild(path, StepPath(s))
              && exists i :: 0 <= i < n && entries[i].path == StepPath(s)
  {
    if n > 0 { ObjectStepsShape(depth, path, entries, n - 1); }
  }

  lemma {:induction false} ObjectStepsDistinct(depth: int, path: string, entries: seq<Entry>, n: nat)
    requires n <= |entries| && EntriesUnder(path, entries)
    ensures Children(path, depth, ObjectSteps(depth, entries, n))
  {
    hide DirectChild, Concrete, IsObjectName;
    ObjectStepsShape(depth, path, entries, n);
    if n > 0 {
      ObjectStepsDistinct(depth, path, entries, n - 1);
      NextStepDiffers(depth, path, entries, n);
    }
  }

  ghost predicate PathsDiffer(steps: seq<Step>) {
    forall k, l | 0 <= k < l < |steps| :: StepPath(steps[k]) != StepPath(steps[l])
  }

  lemma NextStepDiffers(depth: int, path: string, entries: seq<Entry>, n: nat)
    requires 0 < n <= |entries| && EntriesUnder(path, entries) && PathsDiffer(ObjectSteps(depth, entries, n - 1))
    ensures PathsDiffer(ObjectSteps(depth, entries, n))
  {
    hide DirectChild, Concrete, IsObjectName, PathsDiffer;
    ObjectStepsShape(depth, path, entries, n - 1);
    var before, last := ObjectSteps(depth, entries, n - 1), Step(depth, Some(entries[n - 1].path), []);
    forall k | 0 <= k < |before| ensures StepPath(before[k]) != entries[n - 1].path {
      assert before[k] in before;
      var i :| 0 <= i < n - 1 && entries[i].path == StepPath(before[k]);
      assert entries[i].path != entries[n - 1].path;
    }
    assert ObjectSteps(depth, entries, n) == if entries[n - 1].isObject then before + [last] else before;
    OneMoreDiffers(before, last);
  }

  lemma OneMoreDiffers(steps: seq<Step>, last: Step)
    requires PathsDiffer(steps) && forall k | 0 <= k < |steps| :: StepPath(steps[k]) != StepPath(last)
    ensures PathsDiffer(steps + [last])
  {
    forall k, l | 0 <= k < l < |steps + [last]| ensures StepPath((steps + [last])[k]) != StepPath((steps + [last])[l]) {
      assert (steps + [last])[k] == steps[k];
      if l < |steps| { assert (steps + [last])[l] == steps[l]; }
    }
  }

  lemma {:induction false} ObjectStepsComplete(depth: int, entries: seq<Entry>, n: nat, i: nat)
    requires i < n <= |entries| && entries[i].isObject
    ensures Step(depth, Some(entries[i].path), []) in ObjectSteps(depth, entries, n)
  {
    if i < n - 1 { ObjectStepsComplete(depth, entries, n - 1, i); }
  }

  /** A child of the operation settled last is new: nothing dispatched or waiting has its path. */
  lemma ChildIsNew(root: string, depth: int, trace: seq<Op>, frontier: seq<Step>, path: string, child: string)
    requires trace != [] && path == Path(trace[|trace| - 1]) && DirectChild(path, child) && IsObjectName(child)
    requires TraceLevelled(root, depth, trace) && Apart(trace, frontier) && Rooted(root, |trace| - 1, trace, frontier)
    ensures forall i | 0 <= i < |trace| :: Path(trace[i]) != child
    ensures forall k | 0 <= k < |frontier| :: StepPath(frontier[k]) != child
  {
    var last := |trace| - 1;
    ChildDepth(path, child);
    assert Below(root, path, DepthOf(root, trace[last]));
    forall other | ParentDone(trace, last, root, other) ensures other != child {
      if other != root {
        var p :| 0 <= p < last && p < |trace| && DirectChild(Path(trace[p]), other);
        ConcreteEnds(Path(trace[p]));
        ConcreteEnds(path);
        assert Path(trace[p]) != Path(trace[last]);
        if other == child { ParentUnique(Path(trace[p]), path, child); }
      }
    }
  }

  lemma SettleKeepsWalk(root: string, maxDepth: int, depth: int, trace: seq<Op>, frontier: seq<Step>, steps: seq<Step>)
    requires trace != [] && depth < maxDepth && DepthOf(root, trace[|trace| - 1]) == depth
    requires TraceLevelled(root, depth, trace) && FrontierLevelled(root, maxDepth, depth, frontier)
    requires Apart(trace, frontier) && Rooted(root, |trace| - 1, trace, frontier)
    requires Children(Path(trace[|trace| - 1]), depth + 1, steps)
    ensures FrontierLevelled(root, maxDepth, depth, frontier + steps)
    ensures Apart(trace, frontier + steps)
    ensures Rooted(root, |trace|, trace, frontier + steps)
  {
    var path := Path(trace[|trace| - 1]);
    forall s | s in steps
      ensures Below(root, StepPath(s), depth + 1)
      ensures forall i | 0 <= i < |trace| :: Path(trace[i]) != StepPath(s)
      ensures forall l | 0 <= l < |frontier| :: StepPath(frontier[l]) != StepPath(s)
      ensures ParentDone(trace, |trace|, root, StepPath(s))
    {
      var child := StepPath(s);
      ConcreteEnds(child);
      ChildDepth(path, child);
      ChildIsNew(root, depth, trace, frontier, path, child);
      assert Below(root, path, depth);
      assert child[..|root|] == child[..|path|][..|root|] == root;
    }
    GrowKeepsLevelled(root, maxDepth, depth, frontier, steps);
    GrowKeepsApart(trace, frontier, steps);
    GrowKeepsRooted(root, trace, frontier, steps);
  }

  lemma GrowKeepsLevelled(root: string, maxDepth: int, depth: int, frontier: seq<Step>, steps: seq<Step>)
    requires FrontierLevelled(root, maxDepth, depth, frontier) && depth < maxDepth
    requires forall s | s in steps ::
      s.depth == depth + 1 && s.path.Some? && s.names == [] && Below(root, StepPath(s), depth + 1)
    ensures FrontierLevelled(root, maxDepth, depth, frontier + steps)
  {}

  lemma GrowKeepsApart(trace: seq<Op>, frontier: seq<Step>, steps: seq<Step>)
    requires Apart(trace, frontier)
    requires forall k, l | 0 <= k < l < |steps| :: StepPath(steps[k]) != StepPath(steps[l])
    requires forall s, i | s in steps && 0 <= i < |trace| :: Path(trace[i]) != StepPath(s)
    requires forall s, l | s in steps && 0 <= l < |frontier| :: StepPath(frontier[l]) != StepPath(s)
    ensures Apart(trace, frontier + steps)
  {}

  lemma GrowKeepsRooted(root: string, trace: seq<Op>, frontier: seq<Step>, steps: seq<Step>)
    requires trace != [] && Rooted(root, |trace| - 1, trace, frontier)
    requires forall s | s in steps :: ParentDone(trace, |trace|, root, StepPath(s))
    ensures Rooted(root, |trace|, trace, frontier + steps)
  {}

  /** What settling needs to know of the finished operation and its catalogued entries. */
  ghost predicate Settleable(job: Job, trace: seq<Op>, op: Op, entries: seq<Entry>) {
    && job.state.JobRunning? && job.current.Some? && trace != [] && op == trace[|trace| - 1] && !Active(op)
    && (op.state.Succeeded? && job.spec.kind.WalkJob? ==>
          EntriesUnder(Path(op), entries) && job.entryCount + |entries| <= job.spec.maxEntries)
    && (op.state.Succeeded? && job.spec.kind.ValuesJob? ==> ItemNames(op.result) == op.ask.requested)
  }

  lemma ReturnedGrows(trace: seq<Op>)
    requires trace != []
    ensures Returned(trace[..|trace|]) ==
              Returned(trace[..|trace| - 1]) + if trace[|trace| - 1].state.Succeeded? then |trace[|trace| - 1].result|
                  else 0
  {
    assert trace[..|trace|] == trace;
  }

  lemma SettleKeepsShaped(job: Job, trace: seq<Op>, id: Id, op: Op, entries: seq<Entry>)
    requires JobOk(job, trace) && Settleable(job, trace, op, entries) && job.current == Some(id)
    ensures Shaped(Settled(job, id, op, entries), trace)
  {
    hide Walking, Partitioned, TraceBatched, FrontierBatched, Asked, Waiting, Returned, AddEntries, ObjectSteps,
      SomeObject, EntriesUnder, Owned, FailuresTold;
    ToldSettled(job.failures, job.opIds, trace);
    if op.state.Succeeded? && job.spec.kind.WalkJob? {
      AddEntriesClosed(Counted(job, |entries|), Path(op), entries, |entries|);
    }
    var next := Settled(job, id, op, entries);
    assert Done(next) == Done(job) + 1 == |trace|;
  }

  lemma SettleKeepsWalking(job: Job, trace: seq<Op>, id: Id, op: Op, entries: seq<Entry>)
    requires JobOk(job, trace) && Settleable(job, trace, op, entries) && job.spec.kind.WalkJob?
    ensures Walking(Settled(job, id, op, entries), trace)
  {
    hide TraceLevelled, FrontierLevelled, Apart, Rooted;
    var root := job.spec.root.value;
    assert Done(job) == |trace| - 1;
    RootedLater(root, trace, job.frontier);
    if op.state.Succeeded? {
      AddEntriesClosed(Counted(job, |entries|), Path(op), entries, |entries|);
      if job.depth < job.spec.maxDepth {
        GrowKeepsWalking(job, trace, op, entries);
      }
    }
  }

  lemma GrowKeepsWalking(job: Job, trace: seq<Op>, op: Op, entries: seq<Entry>)
    requires Walking(job, trace) && job.depth < job.spec.maxDepth && job.current.Some? && Done(job) == |trace| - 1
    requires trace != [] && op == trace[|trace| - 1] && EntriesUnder(Path(op), entries)
    requires Rooted(job.spec.root.value, |trace|, trace, job.frontier)
    ensures var done := Counted(job, |entries|);
            Walking(done.(frontier := job.frontier + ObjectSteps(job.depth + 1, entries, |entries|)), trace)
  {
    hide TraceLevelled, FrontierLevelled, Apart, Rooted, EntriesUnder, Children;
    ObjectStepsDistinct(job.depth + 1, Path(op), entries, |entries|);
    SettleKeepsWalk(job.spec.root.value, job.spec.maxDepth, job.depth, trace, job.frontier,
                    ObjectSteps(job.depth + 1, entries, |entries|));
  }

  lemma RootedLater(root: string, trace: seq<Op>, frontier: seq<Step>)
    requires trace != [] && Rooted(root, |trace| - 1, trace, frontier)
    ensures Rooted(root, |trace|, trace, frontier)
  {}

  lemma SettleKeepsReading(job: Job, trace: seq<Op>, id: Id, op: Op, entries: seq<Entry>)
    requires JobOk(job, trace) && Settleable(job, trace, op, entries) && job.spec.kind.ValuesJob?
    ensures Reading(Settled(job, id, op, entries), trace)
  {
    hide Owned, Over, AllSucceeded, DistinctIds, ValidSpec, TraceWithin, Asked, Returned, Waiting, FrontierBatched,
      EntriesUnder, AddEntries;
    var next := Settled(job, id, op, entries);
    assert Done(job) == |trace| - 1 && Done(next) == |trace|;
    ReturnedGrows(trace);
    assert TraceBatched(job.spec.batch, |trace|, trace);
    assert Clean(next) ==> Clean(job);
  }

  /** Accounting for a finished operation keeps everything. */
  lemma SettleKeeps(job: Job, trace: seq<Op>, id: Id, op: Op, entries: seq<Entry>)
    requires JobOk(job, trace) && Settleable(job, trace, op, entries) && job.current == Some(id)
    ensures JobOk(Settled(job, id, op, entries), trace)
    ensures Settled(job, id, op, entries).spec == job.spec
  {
    if op.state.Succeeded? && job.spec.kind.WalkJob? {
      AddEntriesClosed(Counted(job, |entries|), Path(op), entries, |entries|);
    }
    SettleKeepsShaped(job, trace, id, op, entries);
    if job.spec.kind.WalkJob? {
      SettleKeepsWalking(job, trace, id, op, entries);
    } else {
      SettleKeepsReading(job, trace, id, op, entries);
    }
  }
}
