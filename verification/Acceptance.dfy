/** When a new request or a new job is accepted, what it then asks for, and which conflict each refusal names. */
module Acceptance {
  import opened Text
  import opened Domain
  import opened Policies
  import opened Jobs
  import opened Registers
  import opened Queue
  import opened Invariants
  import opened QueueProofs
  import opened Commands
  import opened Telemetry
  import Huawei

  // ----- Requests -----

  ghost predicate NewKey(ops: map<Id, Op>, cpe: Id, key: Key) {
    forall i | i in ops && ops[i].ask.cpe == cpe :: ops[i].ask.key != key
  }

  /** A selection of names comes with a read of values, outside discovery, of at most sixteen names, none twice. */
  predicate WellFormed(r: Request) {
    r.names == [] || (r.kind.GetValues? && !r.scope.Discovery? && |r.names| <= 16
                      && forall i, j | 0 <= i < j < |r.names| :: r.names[i] != r.names[j])
  }

  ghost predicate JobRuns(jobs: map<Id, Job>, cpe: Id) {
    exists j :: j in jobs && jobs[j].cpe == cpe && jobs[j].state.JobRunning?
  }

  /** Some operation of the CPE is active and still has time. */
  ghost predicate StillActive(ops: map<Id, Op>, cpe: Id, now: Time) {
    exists i :: i in ops && ops[i].ask.cpe == cpe && Active(ops[i]) && now < ops[i].expiresAt
  }

  /** The names for the plan: those selected, ascending; for a measured scope without a selection those discovered. */
  function Wanted(r: Request, discovered: seq<string>): seq<string> {
    if r.names != [] then SortBy(Self, r.names) else if Measured(r.scope) then discovered else []
  }

  /** The kind of read agrees with the scope: discovery reads names, the measured scopes read values under a path. */
  predicate Agrees(r: Request) {
    (r.scope.Discovery? ==> r.kind.GetNames?) && (r.scope.Wan? || r.scope.Optical? ==>
                                                    r.kind.GetValues? && r.path.Some?)
  }

  /** Where a scope is measured, every name selected was discovered. */
  predicate WasDiscovered(r: Request, discovered: seq<string>) {
    r.scope.Wan? || r.scope.Optical? ==> forall n | n in r.names :: n in discovered
  }

  /** The plan asks for exactly the names selected, where a scope is measured. */
  predicate AsksFor(plan: Plan, r: Request) {
    (r.scope.Wan? || r.scope.Optical?) && r.names != [] ==> SetOf(plan.names) == SetOf(r.names)
  }

  /** Nothing of the CPE is under way, and the request can be answered from what was discovered. */
  ghost predicate Admitted(db: Db, r: Request, discovered: seq<string>, now: Time) {
    WellFormed(r) && r.cpe in db.store.cpes && !JobRuns(db.jobs, r.cpe) && !StillActive(db.ops, r.cpe, now) && Agrees(r)
    && WasDiscovered(r, discovered)
  }

  ghost predicate Planned(p: Policy, db: Db, r: Request, discovered: seq<string>)
    requires r.cpe in db.store.cpes
  {
    var plan := p.plan(TargetOf(db.store.cpes[r.cpe]), r.scope, r.path, Wanted(r, discovered));
    plan.Some? && AsksFor(plan.value, r)
  }

  lemma SortedDistinct(names: seq<string>)
    ensures forall n :: n in SortBy(Self, names) <==> n in names
    ensures SetOf(SortBy(Self, names)) == SetOf(names) && (SortBy(Self, names) == [] <==> names == [])
    ensures (forall i, j | 0 <= i < j < |names| :: names[i] != names[j]) ==> Ascending(Self, SortBy(Self, names))
  {
    SortMembers(Self, names);
    if forall i, j | 0 <= i < j < |names| :: names[i] != names[j] { SortAscends(Self, names); }
  }

  lemma ExpiredActive(db: Db, cpe: Id, key: Key, now: Time)
    ensures var d := Expire(db, cpe, now);
            && d.jobs == db.jobs && d.store == db.store && d.next == db.next
            && (ActiveJob(d.jobs, cpe).Some? <==> JobRuns(db.jobs, cpe))
            && (ActiveOp(d.ops, cpe).Some? <==> StillActive(db.ops, cpe, now))
            && (OpByKey(d.ops, cpe, key).None? <==> NewKey(db.ops, cpe, key))
  {
    hide ExpireSessions;
    var d := Expire(db, cpe, now);
    assert forall i :: i in d.ops <==> i in db.ops;
    assert forall i | i in db.ops :: d.ops[i].ask == db.ops[i].ask;
    assert forall i | i in db.ops && db.ops[i].ask.cpe == cpe ::
        Active(d.ops[i]) <==> Active(db.ops[i]) && now < db.ops[i].expiresAt;
  }

  lemma PlannedExactly(p: Policy, target: Target, r: Request, discovered: seq<string>)
    requires WellFormed(r)
    ensures var plan, c := p.plan(target, r.scope, r.path, Wanted(r, discovered)), CreatePlan(p, target, r, discovered);
            && (c.Ok? <==> Agrees(r) && WasDiscovered(r, discovered) && plan.Some? && AsksFor(plan.value, r))
            && (c.Ok? ==> c.value == plan.value)
            && (c.Err? ==> c.error == Conflict(
                  if r.scope.Discovery? && r.kind.GetValues? then "discovery_is_names_only"
                  else if !Agrees(r) then "collection_is_values_only"
                  else if !WasDiscovered(r, discovered) then "discovery_required"
                  else if plan.None? then "unsupported_plan"
                  else "unsupported_parameters"))
  {
    SortedDistinct(r.names);
  }

  /** A request under a new key is accepted exactly when the selection is well formed, the CPE is known, no job of it
      runs and no operation is active past expiry, the kind agrees with the scope, every name of a measured selection
      was discovered and the policy has a plan that asks for those names; otherwise the first of these that fails names
      the conflict. */
  lemma AcceptsRequest(p: Policy, db: Db, r: Request, discovered: seq<string>, now: Time)
    requires NewKey(db.ops, r.cpe, ClientKey(r.key))
    ensures var o := Create(p, db, r, discovered, now);
            && (o.Commit? <==> Admitted(db, r, discovered, now) && Planned(p, db, r, discovered))
            && (o.Raised? ==>
                  o.error ==
                    if !WellFormed(r) then Conflict("unsupported_parameters")
                    else if r.cpe !in db.store.cpes then NotFound
                    else if JobRuns(db.jobs, r.cpe) then Conflict("collection_in_progress")
                    else if StillActive(db.ops, r.cpe, now) then Conflict("operation_in_progress")
                    else if r.scope.Discovery? && r.kind.GetValues? then Conflict("discovery_is_names_only")
                    else if !Agrees(r) then Conflict("collection_is_values_only")
                    else if !WasDiscovered(r, discovered) then Conflict("discovery_required")
                    else if p.plan(TargetOf(db.store.cpes[r.cpe]), r.scope, r.path, Wanted(r, discovered)).None?
                        then Conflict("unsupported_plan")
                    else Conflict("unsupported_parameters"))
  {
    hide Expire, CreatePlan, Agrees, WasDiscovered, AsksFor, Wanted, RequestAsk, NewOp, SameRequest;
    ExpiredActive(db, r.cpe, ClientKey(r.key), now);
    if WellFormed(r) && r.cpe in db.store.cpes {
      PlannedExactly(p, TargetOf(db.store.cpes[r.cpe]), r, discovered);
    }
  }

  /** The operation is new, waits to be dispatched for ten minutes, and asks what was requested under the plan's
      profile. */
  ghost predicate AsksNow(p: Policy, op: Op, target: Target, r: Request, discovered: seq<string>, now: Time) {
    var plan := p.plan(target, r.scope, r.path, Wanted(r, discovered));
    && plan.Some? && op.ask.profileId == plan.value.profileId && op.ask.profileVersion == plan.value.profileVersion
    && op.state.Pending? && op.expiresAt == now + 600 && op.finishedAt.None? && op.reason.None? && op.fault.None?
    && op.result == [] && op.evidence.None?
    && op.ask.cpe == r.cpe && op.ask.key == ClientKey(r.key) && op.ask.kind == r.kind && op.ask.scope == r.scope
    && op.ask.path == r.path && op.ask.capture == r.capture && op.ask.createdAt == now
    && op.ask.firmware == target.firmware
    && Ascending(Self, op.ask.requested)
    && (r.names != [] ==> SetOf(op.ask.requested) == SetOf(r.names))
    && (r.names == [] && !Measured(r.scope) ==> op.ask.requested == [])
    && (r.names == [] && Measured(r.scope) ==>
          1 <= |op.ask.requested| <= 16 && forall n | n in op.ask.requested :: n in discovered)
  }

  /** An accepted request adds one operation that asks what was requested; apart from the expiry nothing else
      changes. */
  lemma AcceptedAsks(p: Policy, db: Db, r: Request, discovered: seq<string>, now: Time)
    requires PlanContract(p) && NewKey(db.ops, r.cpe, ClientKey(r.key)) && Create(p, db, r, discovered, now).Commit?
    ensures r.cpe in db.store.cpes
    ensures var o, d := Create(p, db, r, discovered, now), Expire(db, r.cpe, now);
            && o.result == db.next && o.result in o.db.ops
            && o.db == d.(ops := d.ops[o.result := o.db.ops[o.result]], next := db.next + 1)
            && AsksNow(p, o.db.ops[o.result], TargetOf(db.store.cpes[r.cpe]), r, discovered, now)
  {
    hide Expire, CreatePlan, Agrees, WasDiscovered, SameRequest, Ascending, Concrete;
    ExpiredActive(db, r.cpe, ClientKey(r.key), now);
    AcceptsRequest(p, db, r, discovered, now);
    var target := TargetOf(db.store.cpes[r.cpe]);
    PlannedExactly(p, target, r, discovered);
    SortedDistinct(r.names);
    NoneAscends();
  }

  lemma NoneAscends()
    ensures Ascending(Self, [])
  {}

  // ----- Requests to the reviewed devices -----

  predicate Reviewed(t: Target) {
    || t == Huawei.X6_TARGET || t == Huawei.V5_TARGET || t == Huawei.V5_TARGET.(model := None)
  }

  /** What the shipped policy has a plan for. */
  predicate Plannable(t: Target, r: Request, discovered: seq<string>) {
    var wanted := if r.names != [] then SetOf(r.names) else SetOf(discovered);
    && Reviewed(t)
    && match r.scope
       case DeviceInfo =>
         r.path.None? && forall n | n in r.names ::
           n in {"InternetGatewayDevice.DeviceInfo.ModelName", "InternetGatewayDevice.DeviceInfo.SoftwareVersion",
                 "InternetGatewayDevice.DeviceInfo.HardwareVersion"}
       case Discovery => r.path.Some? && |r.path.value| <= 256 && Concrete(r.path.value)
       case _ =>
         && r.path.Some? && (if r.scope.Wan? then WanPath(r.path.value) else OpticalPath(r.path.value))
         && 1 <= |set n | n in wanted && FieldName(r.path.value, n, r.scope).Some?| <= 16
         && (r.scope.Wan? ==>
               r.path.value + "X_HW_SERVICELIST" in wanted && r.path.value + "TransportType" in wanted)
         && (r.names != [] ==> forall n | n in r.names :: FieldName(r.path.value, n, r.scope).Some?)
  }

  lemma DeviceNames()
    ensures SetOf(Huawei.NAMES) ==
      {"InternetGatewayDevice.DeviceInfo.ModelName", "InternetGatewayDevice.DeviceInfo.SoftwareVersion",
       "InternetGatewayDevice.DeviceInfo.HardwareVersion"}
  {
    assert Huawei.NAMES[0] == "InternetGatewayDevice.DeviceInfo.ModelName";
    assert Huawei.NAMES[1] == "InternetGatewayDevice.DeviceInfo.SoftwareVersion";
    assert Huawei.NAMES[2] == "InternetGatewayDevice.DeviceInfo.HardwareVersion";
  }

  lemma ReviewedExactly(t: Target)
    ensures Huawei.ProfileOf(t).Some? <==> Reviewed(t)
  {}

  lemma FieldSet(path: string, scope: Scope, names: seq<string>)
    ensures SetOf(Fields(path, scope, names)) == set n | n in SetOf(names) && FieldName(path, n, scope).Some?
  {
    hide FieldName;
    Huawei.FieldsAre(path, scope, names);
  }

  lemma NoRepeats(names: seq<string>)
    requires Ascending(Self, names)
    ensures !Huawei.Repeats(names)
  {
    AscendingDistinct(Self, names);
    assert forall i, j | 0 <= i < j < |names| :: Self(names[i]) != Self(names[j]);
  }

  lemma FieldsChosen(r: Request, chosen: seq<string>)
    requires r.path.Some?
    requires forall n :: n in chosen <==> n in r.names && FieldName(r.path.value, n, r.scope).Some?
    ensures SetOf(chosen) == SetOf(r.names) <==> forall n | n in r.names :: FieldName(r.path.value, n, r.scope).Some?
  {
    hide FieldName;
    if SetOf(chosen) == SetOf(r.names) {
      forall n | n in r.names ensures FieldName(r.path.value, n, r.scope).Some? { assert n in SetOf(r.names); }
    }
  }

  predicate Made(t: Target, r: Request, wanted: seq<string>) {
    var plan := Huawei.MakePlan(t, r.scope, r.path, wanted); plan.Some? && AsksFor(plan.value, r)
  }

  lemma MeasuredPlans(t: Target, r: Request, discovered: seq<string>)
    requires Measured(r.scope) && Agrees(r)
    ensures Made(t, r, Wanted(r, discovered)) <==> Plannable(t, r, discovered)
  {
    hide Huawei.ProfileOf, Reviewed, FieldName, WanPath, OpticalPath, SelectNames;
    var wanted := Wanted(r, discovered);
    ReviewedExactly(t);
    SortedDistinct(r.names);
    Huawei.SelectionExact(r.path.value, r.scope, wanted);
    FieldSet(r.path.value, r.scope, wanted);
    assert SetOf(wanted) == if r.names != [] then SetOf(r.names) else SetOf(discovered);
    assert forall n :: n in wanted <==> n in SetOf(wanted);
    var chosen := SelectNames(r.path.value, r.scope, wanted);
    if chosen.Some? && r.names != [] { FieldsChosen(r, chosen.value); }
  }

  lemma DevicePlans(t: Target, r: Request, discovered: seq<string>)
    requires r.scope.DeviceInfo? && WellFormed(r)
    ensures Made(t, r, Wanted(r, discovered)) <==> Plannable(t, r, discovered)
  {
    hide Huawei.ProfileOf, Reviewed, Huawei.Repeats;
    ReviewedExactly(t);
    SortedDistinct(r.names);
    DeviceNames();
    NoneAscends();
    NoRepeats(Wanted(r, discovered));
    assert forall n :: n in Huawei.NAMES <==> n in SetOf(Huawei.NAMES);
  }

  /** The shipped policy has a plan for a request, asking for the names selected, exactly when the device is a reviewed
      one and the scope allows the path and the names. */
  lemma HuaweiPlans(lib: Lib, rule: (Reply, Plan, Kind, Time) -> Option<string>, db: Db, r: Request,
                    discovered: seq<string>)
    requires r.cpe in db.store.cpes && WellFormed(r) && Agrees(r)
    ensures Planned(Huawei.HuaweiPolicy(lib, rule), db, r, discovered) <==>
      Plannable(TargetOf(db.store.cpes[r.cpe]), r, discovered)
  {
    hide Huawei.MakePlan, AsksFor, WellFormed, Wanted, Plannable;
    var t := TargetOf(db.store.cpes[r.cpe]);
    assert Planned(Huawei.HuaweiPolicy(lib, rule), db, r, discovered) <==> Made(t, r, Wanted(r, discovered));
    match r.scope
    case DeviceInfo => DevicePlans(t, r, discovered);
    case Discovery => DiscoveryPlans(t, r, discovered);
    case _ => MeasuredPlans(t, r, discovered);
  }

  lemma DiscoveryPlans(t: Target, r: Request, discovered: seq<string>)
    requires r.scope.Discovery?
    ensures Made(t, r, Wanted(r, discovered)) <==> Plannable(t, r, discovered)
  {
    hide Huawei.ProfileOf, Reviewed, Concrete;
    ReviewedExactly(t);
  }

  // ----- Jobs -----

  ghost predicate NewJobKey(jobs: map<Id, Job>, cpe: Id, key: Key) {
    forall j | j in jobs && jobs[j].cpe == cpe :: jobs[j].key != key
  }

  predicate WithinLimits(s: Spec) {
    0 <= s.maxDepth <= 16 && 1 <= s.maxRpcs <= 128 && 1 <= s.maxEntries <= 4096 && 1 <= s.batch <= 16
  }

  /** The declared limits, and either one concrete root or up to 4096 names, none twice. */
  predicate Allowed(s: Spec) {
    && WithinLimits(s)
    && if s.kind.WalkJob? then s.names == [] && s.root.Some? && |s.root.value| <= 256 && Concrete(s.root.value)
       else s.root.None? && 1 <= |s.names| <= 4096 && forall i, j | 0 <= i < j < |s.names| :: s.names[i] != s.names[j]
  }

  /** Every name is one that the catalog holds for this CPE as a leaf. */
  predicate AllLeaves(db: Db, cpe: Id, names: seq<string>) {
    forall n | n in names :: (cpe, n) in db.catalog && !db.catalog[(cpe, n)].isObject
  }

  ghost predicate JobPlanned(p: Policy, db: Db, cpe: Id, spec: Spec)
    requires cpe in db.store.cpes
  {
    var target := TargetOf(db.store.cpes[cpe]);
    if spec.kind.WalkJob? then p.plan(target, Discovery, spec.root, []).Some?
    else p.plan(target, DeviceInfo, None, SortBy(Self, spec.names)).Some?
  }

  lemma ExpiredJobs(db: Db, cpe: Id, now: Time)
    ensures var d := Expire(db, cpe, now); d.catalog == db.catalog && d.jobs == db.jobs
  {}

  /** A job under a new key is accepted exactly when the CPE is known, the specification is allowed, nothing of the CPE
      is under way, the names of a selection are all catalogued leaves of this CPE and the policy plans for the root or
      the names; otherwise the first of these that fails names the conflict. */
  lemma AcceptsJob(p: Policy, db: Db, cpe: Id, spec: Spec, key: nat, now: Time)
    requires NewJobKey(db.jobs, cpe, ClientKey(key))
    ensures var o := CreateJob(p, db, cpe, spec, key, now);
            && (o.Commit? <==>
                  && cpe in db.store.cpes && Allowed(spec) && !JobRuns(db.jobs, cpe) && !StillActive(db.ops, cpe, now)
                  && AllLeaves(db, cpe, spec.names) && JobPlanned(p, db, cpe, spec))
            && (o.Raised? ==>
                  o.error ==
                    if cpe !in db.store.cpes then NotFound
                    else if !WithinLimits(spec) then Conflict("invalid_collection_limits")
                    else if !Allowed(spec)
                        then Conflict(if spec.kind.WalkJob? then "invalid_discovery_root" else "invalid_selection")
                    else if JobRuns(db.jobs, cpe) || StillActive(db.ops, cpe, now)
                        then Conflict("operation_in_progress")
                    else if !AllLeaves(db, cpe, spec.names) then Conflict("selection_requires_catalog_leaves")
                    else Conflict("unsupported_plan"))
  {
    hide Expire, Advance, Concrete;
    ExpiredActive(db, cpe, ClientKey(key), now);
    ExpiredJobs(db, cpe, now);
    SortedDistinct(spec.names);
    var d := Expire(db, cpe, now);
    assert JobByKey(d.jobs, cpe, ClientKey(key)).None?;
  }

  /** The first operation of a discovery job: it reads the names below the root. */
  predicate ReadsRoot(op: Op, cpe: Id, root: Option<string>, id: Id, now: Time) {
    && op.state.Pending? && op.ask.cpe == cpe && op.ask.key == ServerKey(id) && op.ask.kind.GetNames?
    && op.ask.scope.Discovery? && op.ask.path == root && !op.ask.capture && op.ask.requested == []
    && op.ask.createdAt == now && op.expiresAt == now + 600
  }

  lemma {:induction false} NewlyLaunched(p: Policy, target: Target, job: Job, id: Id, now: Time)
    ensures var (next, op) := Launch(p, target, job, id, now);
            && next.cpe == job.cpe && next.key == job.key && next.spec == job.spec && next.createdAt == job.createdAt
    decreases |job.frontier|
  {
    if job.frontier != [] && job.rpcCount < job.spec.maxRpcs && job.entryCount < job.spec.maxEntries {
      NewlyLaunched(p, target, Popped(job).(failures := Popped(job).failures + [PlanFailure]), id, now);
    }
  }

  lemma RootLaunched(p: Policy, target: Target, job: Job, id: Id, now: Time)
    requires job.frontier == [Step(0, job.spec.root, [])] && job.spec.kind.WalkJob? && job.state.JobRunning?
             && job.rpcCount < job.spec.maxRpcs && job.entryCount < job.spec.maxEntries
             && p.plan(target, Discovery, job.spec.root, []).Some?
    ensures var (next, op) := Launch(p, target, job, id, now);
            && next.state.JobRunning? && next.current == Some(id) && next.frontier == []
            && next.opIds == job.opIds + [id]
            && op.Some? && ReadsRoot(op.value, job.cpe, job.spec.root, id, now)
  {}

  /** What creating a job commits: the expiry, the new job and the operation it launches, if any. */
  lemma CreatedJob(p: Policy, db: Db, cpe: Id, spec: Spec, key: nat, now: Time)
    requires NewJobKey(db.jobs, cpe, ClientKey(key)) && CreateJob(p, db, cpe, spec, key, now).Commit?
    ensures cpe in db.store.cpes && ValidSpec(spec)
    ensures var data := spec.(names := SortBy(Self, spec.names));
            ValidSpec(data) && FirstFrontier(p, Expire(db, cpe, now), cpe, data).Ok?
    ensures var o, data, d := CreateJob(p, db, cpe, spec, key, now), spec.(names := SortBy(Self, spec.names)),
            Expire(db, cpe, now);
            var job := NewJob(cpe, ClientKey(key), data, FirstFrontier(p, d, cpe, data).value, now);
            var (next, op) := Launch(p, TargetOf(db.store.cpes[cpe]), job, db.next + 1, now);
            && o.result == db.next && o.db.jobs == db.jobs[db.next := next]
            && (op.Some? ==> db.next + 1 in o.db.ops && o.db.ops[db.next + 1] == op.value)
  {
    hide Expire, Launch, FirstFrontier, ValidSpec, SortBy, Advance, NewJob;
    ExpiredActive(db, cpe, ClientKey(key), now);
    if ValidSpec(spec) { SortedSpecValid(spec); }
    var d, data := Expire(db, cpe, now), spec.(names := SortBy(Self, spec.names));
    assert JobByKey(d.jobs, cpe, ClientKey(key)).None?;
    var job := NewJob(cpe, ClientKey(key), data, FirstFrontier(p, d, cpe, data).value, now);
    FreshJob(cpe, ClientKey(key), data, FirstFrontier(p, d, cpe, data).value, now);
    AdvanceNew(p, WithJob(d, job), d.next, now);
  }

  lemma FreshJob(cpe: Id, key: Key, spec: Spec, frontier: seq<Step>, now: Time)
    ensures var job := NewJob(cpe, key, spec, frontier, now);
            job.cpe == cpe && job.state.JobRunning? && job.current.None?
  {}

  /** Advancing a job that waits for nothing launches it. */
  lemma AdvanceNew(p: Policy, db: Db, j: Id, now: Time)
    requires j in db.jobs && db.jobs[j].state.JobRunning? && db.jobs[j].current.None? && db.jobs[j].cpe in db.store.cpes
    ensures var d, (next, op) := Advance(p, db, j, now),
            Launch(p, TargetOf(db.store.cpes[db.jobs[j].cpe]), db.jobs[j], db.next, now);
            d.jobs == db.jobs[j := next] && (op.Some? ==> db.next in d.ops && d.ops[db.next] == op.value)
  {
    hide Launch;
  }

  lemma SameLeaves(db: Db, cpe: Id, names: seq<string>, sorted: seq<string>)
    requires forall n :: n in sorted <==> n in names
    ensures AllLeaves(db, cpe, sorted) <==> AllLeaves(db, cpe, names)
  {}

  /** The new job: of this CPE, with the specification given, its names ascending, and of a selection no name that was
      not a catalogued leaf; a discovery starts by reading the names below its root. */
  lemma AcceptedJob(p: Policy, db: Db, cpe: Id, spec: Spec, key: nat, now: Time)
    requires NewJobKey(db.jobs, cpe, ClientKey(key)) && CreateJob(p, db, cpe, spec, key, now).Commit?
    ensures var o := CreateJob(p, db, cpe, spec, key, now);
            && o.result == db.next && o.result in o.db.jobs && o.db.jobs == db.jobs[o.result := o.db.jobs[o.result]]
            && var job := o.db.jobs[o.result];
            && job.cpe == cpe && job.key == ClientKey(key) && job.createdAt == now
            && job.spec == spec.(names := job.spec.names) && Ascending(Self, job.spec.names)
            && (forall n :: n in job.spec.names <==> n in spec.names) && AllLeaves(db, cpe, job.spec.names)
            && (spec.kind.WalkJob? ==>
                  && job.state.JobRunning? && job.current == Some(db.next + 1) && job.frontier == []
                  && job.opIds == [db.next + 1] && db.next + 1 in o.db.ops
                  && ReadsRoot(o.db.ops[db.next + 1], cpe, spec.root, db.next + 1, now))
  {
    hide Expire, Concrete, AllLeaves, Launch, CreateJob, SortBy, Ascending, ReadsRoot, Leaves;
    CreatedJob(p, db, cpe, spec, key, now);
    SortedDistinct(spec.names);
    SortedSpecValid(spec);
    AcceptsJob(p, db, cpe, spec, key, now);
    var d, data := Expire(db, cpe, now), spec.(names := SortBy(Self, spec.names));
    SameLeaves(db, cpe, spec.names, data.names);
    ExpiredActive(db, cpe, ClientKey(key), now);
    var job := NewJob(cpe, ClientKey(key), data, FirstFrontier(p, d, cpe, data).value, now);
    NewlyLaunched(p, TargetOf(db.store.cpes[cpe]), job, db.next + 1, now);
    if spec.kind.WalkJob? { RootLaunched(p, TargetOf(db.store.cpes[cpe]), job, db.next + 1, now); }
  }

  // ----- What is asked can be handed out -----

  /** The operation that a job launches: new, of the job's CPE and kind, under a key of its own, without evidence,
      asking for the path of a waiting step and for the names of that step as far as the entry budget goes. */
  ghost predicate AsksStep(job: Job, op: Op, step: Step, target: Target, id: Id, now: Time)
    requires job.entryCount <= job.spec.maxEntries
  {
    && op.state.Pending? && op.expiresAt == now + 600 && op.ask.createdAt == now && op.ask.key == ServerKey(id)
    && op.ask.cpe == job.cpe && !op.ask.capture && op.ask.firmware == target.firmware && op.ask.path == step.path
    && (if job.spec.kind.WalkJob? then op.ask.kind.GetNames? && op.ask.scope.Discovery?
        else op.ask.kind.GetValues? && op.ask.scope.DeviceInfo?)
    && op.ask.requested ==
         (if |step.names| <= job.spec.maxEntries - job.entryCount then step.names
          else step.names[..job.spec.maxEntries - job.entryCount])
  }

  /** What a job launches asks for the first waiting step that the policy has a plan for, and under the profile of a
      plan that its stored request gives again for the same device. */
  lemma {:induction false} LaunchAsks(p: Policy, target: Target, job: Job, id: Id, now: Time)
    requires PlanContract(p) && 0 <= job.entryCount <= job.spec.maxEntries
    requires forall k | 0 <= k < |job.frontier| :: job.spec.kind.WalkJob? ==> job.frontier[k].names == []
    ensures var op := Launch(p, target, job, id, now).1;
            op.Some? ==>
              && StillPlanned(p, target, op.value.ask)
              && exists k :: 0 <= k < |job.frontier| && AsksStep(job, op.value, job.frontier[k], target, id, now)
    decreases |job.frontier|
  {
    if job.frontier != [] && job.rpcCount < job.spec.maxRpcs && job.entryCount < job.spec.maxEntries {
      var step, names := job.frontier[0], HeadNames(job);
      match p.plan(target, ScopeOf(job), step.path, names)
      case None =>
        var rest := Popped(job).(failures := Popped(job).failures + [PlanFailure]);
        LaunchAsks(p, target, rest, id, now);
        var op := Launch(p, target, rest, id, now).1;
        if op.Some? {
          var k :| 0 <= k < |rest.frontier| && AsksStep(rest, op.value, rest.frontier[k], target, id, now);
          assert AsksStep(job, op.value, job.frontier[k + 1], target, id, now);
        }
      case Some(plan) =>
        assert AsksStep(job, NewOp(StepAsk(job, step, names, plan, id, now)), step, target, id, now);
    }
  }

  /** Under the shipped policy the stored request of an accepted operation gives its plan again for the same device. */
  lemma AcceptedPlanned(lib: Lib, rule: (Reply, Plan, Kind, Time) -> Option<string>, db: Db, r: Request,
                        discovered: seq<string>, now: Time)
    requires NewKey(db.ops, r.cpe, ClientKey(r.key))
    requires Create(Huawei.HuaweiPolicy(lib, rule), db, r, discovered, now).Commit?
    ensures var p := Huawei.HuaweiPolicy(lib, rule);
            var o := Create(p, db, r, discovered, now);
            && r.cpe in db.store.cpes && o.result in o.db.ops
            && StillPlanned(p, TargetOf(db.store.cpes[r.cpe]), o.db.ops[o.result].ask)
  {
    hide Expire, CreatePlan, Agrees, WasDiscovered, SameRequest, Ascending, Concrete, Huawei.MakePlan, AsksNow,
      Contract;
    var p := Huawei.HuaweiPolicy(lib, rule);
    Huawei.HuaweiMeetsContract(lib, rule);
    AcceptsRequest(p, db, r, discovered, now);
    var t, wanted := TargetOf(db.store.cpes[r.cpe]), Wanted(r, discovered);
    ExpiredActive(db, r.cpe, ClientKey(r.key), now);
    PlannedExactly(p, t, r, discovered);
    var plan := Huawei.MakePlan(t, r.scope, r.path, wanted).value;
    Huawei.PlanFitsRequest(t, r.scope, r.path, wanted);
    Huawei.PlanIdempotent(t, r.scope, r.path, wanted);
  }
}
